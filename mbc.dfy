/**
 * cartridge/mbc.go and the header of cartridge.go: the three header bytes
 * that choose a memory bank controller (MBC) and size its ROM and RAM.
 */
module Mbc {
  import opened Bytes

  const ROM_BANK_SIZE: nat := 0x4000
  const RAM_BANK_SIZE: nat := 0x2000

  /** Header offsets of the cartridge type, ROM size code and RAM size code. */
  const CART_TYPE_OFFSET: nat := 0x147
  const ROM_SIZE_OFFSET: nat := 0x148
  const RAM_SIZE_OFFSET: nat := 0x149

  /** `CartridgeHeader`: the three bytes read from the image. */
  datatype Header = Header(cartType: bv8, romSize: bv8, ramSize: bv8)

  /** The bank controller families the emulator implements. */
  datatype MbcKind = NoMbc | Mbc1 | Mbc3

  /**
   * The header of an image.  Go indexes the byte slice directly, so an
   * image too short to hold the header bytes panics.
   */
  function HeaderOf(data: seq<bv8>): (h: Outcome<Header>)
    ensures h.Ok? <==> |data| > RAM_SIZE_OFFSET
    ensures h.Ok? ==>
              h.value.cartType == data[CART_TYPE_OFFSET] && h.value.romSize == data[ROM_SIZE_OFFSET]
              && h.value.ramSize == data[RAM_SIZE_OFFSET]
  {
    if |data| <= RAM_SIZE_OFFSET then Fatal
    else Ok(Header(data[0x147], data[0x148], data[0x149]))
  }

  /** `NewMBC`: type 0x00 has no controller, 0x01-0x03 is MBC1, 0x0F-0x13 MBC3; any other type panics. */
  function SelectMbc(cartType: bv8): (k: Outcome<MbcKind>)
    ensures k == Ok(NoMbc) <==> cartType == 0x00
    ensures k == Ok(Mbc1) <==> 0x01 <= cartType <= 0x03
    ensures k == Ok(Mbc3) <==> 0x0F <= cartType <= 0x13
  {
    if cartType == 0x00 then Ok(NoMbc)
    else if 0x01 <= cartType <= 0x03 then Ok(Mbc1)
    else if 0x0F <= cartType <= 0x13 then Ok(Mbc3)
    else Fatal
  }

  /** `getRomSize`: the ROM size in bytes for a size code; unknown codes count as 32 KiB. */
  function RomSize(code: bv8): (n: nat)
  {
    if code == 0x00 then 32 * 1024
    else if code == 0x01 then 64 * 1024
    else if code == 0x02 then 128 * 1024
    else if code == 0x03 then 256 * 1024
    else if code == 0x04 then 512 * 1024
    else if code == 0x05 then 1024 * 1024
    else if code == 0x06 then 2048 * 1024
    else if code == 0x07 then 4096 * 1024
    else if code == 0x08 then 8192 * 1024
    else 32 * 1024
  }

  /** `getRamSize`: the external RAM size in bytes for a size code; unknown codes mean no RAM. */
  function RamSize(code: bv8): (n: nat)
  {
    if code == 0x00 then 0
    else if code == 0x01 then 2 * 1024
    else if code == 0x02 then 8 * 1024
    else if code == 0x03 then 32 * 1024
    else if code == 0x04 then 128 * 1024
    else if code == 0x05 then 64 * 1024
    else 0
  }

  function Pow2(n: nat): (r: nat)
    ensures r >= 1
  {
    if n == 0 then 1 else 2 * Pow2(n - 1)
  }

  /** Size codes 0..8 double the ROM from 32 KiB up; every other code gives 32 KiB. */
  lemma RomSizeDoubles(code: bv8)
    ensures code <= 8 ==> RomSize(code) == 32 * 1024 * Pow2(code as nat)
    ensures code > 8 ==> RomSize(code) == 32 * 1024
  {
    assert Pow2(4) == 16 && Pow2(8) == 256;
  }

  /** The ROM always holds a whole number of banks, at least two. */
  lemma RomSizeInBanks(code: bv8)
    ensures RomSize(code) % ROM_BANK_SIZE == 0 && RomSize(code) >= 2 * ROM_BANK_SIZE
  {
  }
}
