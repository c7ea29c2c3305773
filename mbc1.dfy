/**
 * mbc1.go: the MBC1 bank controller.  Writes to the ROM area set the RAM
 * enable latch, a 5-bit ROM bank, a 2-bit RAM bank (also the upper ROM bank
 * bits) and the banking mode.  The bank number is not reduced modulo the
 * number of banks in the image: an offset past the image reads 0xFF in the
 * switchable window, and panics in the fixed window.
 */
module Mbc1 {
  import opened Bytes
  import opened Mbc

  const RAM_ENABLE_END: Word := 0x1FFF
  const ROM_BANK_START: Word := 0x2000
  const RAM_BANK_START: Word := 0x4000
  const BANK_MODE_START: Word := 0x6000
  const ROM_END: Word := 0x7FFF
  const EXTERNAL_RAM_START: Word := 0xA000
  const EXTERNAL_RAM_END: Word := 0xBFFF

  /** The bank-select registers. */
  datatype Banks = Banks(romBank: bv8, ramBank: bv8, ramEnabled: bool, bankMode: bv8)

  /** The registers after construction: ROM bank 1, RAM bank 0, RAM disabled, mode 0. */
  const POWER_ON: Banks := Banks(1, 0, false, 0)

  /** What every write keeps true of the registers. */
  predicate BanksValid(b: Banks)
  {
    1 <= b.romBank <= 31 && b.ramBank <= 3 && b.bankMode <= 1
  }

  /** The ROM offset of the fixed window: bank `ramBank << 5` in mode 1, bank 0 otherwise. */
  function FixedOffset(b: Banks, address: Word): int
  {
    (if b.bankMode == 1 then (b.ramBank as int) * 32 else 0) * ROM_BANK_SIZE + address
  }

  /** The bank of the switchable window: the ROM bank, with the RAM bank as bits 5-6 in mode 0. */
  function SwitchableBank(b: Banks): bv8
  {
    if b.bankMode == 0 then b.romBank | (b.ramBank << 5) else b.romBank
  }

  /** The RAM offset of an external RAM address: bank `ramBank` in mode 1, bank 0 otherwise. */
  function RamOffset(b: Banks, address: Word): int
    requires EXTERNAL_RAM_START <= address
  {
    (if b.bankMode == 1 then b.ramBank as int else 0) * RAM_BANK_SIZE + (address - EXTERNAL_RAM_START)
  }

  predicate RamAccessible(hasRam: bool, b: Banks)
  {
    b.ramEnabled && hasRam
  }

  /** Read; only the unchecked index into the fixed window can panic. */
  function ReadOf(rom: seq<bv8>, hasRam: bool, b: Banks, ram: seq<bv8>, address: Word): (r: Outcome<bv8>)
    ensures r.Fatal? <==> address < RAM_BANK_START && FixedOffset(b, address) >= |rom|
    ensures address < RAM_BANK_START && r.Ok? ==> r.value == rom[FixedOffset(b, address)]
    ensures RAM_BANK_START <= address <= ROM_END ==>
              var offset := (SwitchableBank(b) as int) * ROM_BANK_SIZE + (address - RAM_BANK_START);
              r == Ok(if offset < |rom| then rom[offset] else 0xFF)
    ensures EXTERNAL_RAM_START <= address <= EXTERNAL_RAM_END ==>
              r == Ok(if RamAccessible(hasRam, b) && RamOffset(b, address) < |ram| then ram[RamOffset(b, address)] else 0xFF)
    ensures ROM_END < address < EXTERNAL_RAM_START || EXTERNAL_RAM_END < address ==> r == Ok(0xFF)
  {
    if address < RAM_BANK_START then
      var offset := FixedOffset(b, address);
      if offset < |rom| then Ok(rom[offset]) else Fatal
    else if address <= ROM_END then
      var offset := (SwitchableBank(b) as int) * ROM_BANK_SIZE + (address - RAM_BANK_START);
      if offset < |rom| then Ok(rom[offset]) else Ok(0xFF)
    else if EXTERNAL_RAM_START <= address <= EXTERNAL_RAM_END then
      if !RamAccessible(hasRam, b) then Ok(0xFF)
      else
        var offset := RamOffset(b, address);
        if offset < |ram| then Ok(ram[offset]) else Ok(0xFF)
    else Ok(0xFF)
  }

  /** The registers after a write to the ROM area (0x0000-0x7FFF). */
  function BanksWritten(b: Banks, address: Word, v: bv8): (r: Banks)
    requires address <= ROM_END
  {
    if address <= RAM_ENABLE_END then b.(ramEnabled := v & 0x0F == 0x0A)
    else if address < RAM_BANK_START then
      var bank := v & 0x1F;
      b.(romBank := if bank == 0 then 1 else bank)
    else if address < BANK_MODE_START then b.(ramBank := v & 0x03)
    else b.(bankMode := v & 0x01)
  }

  /** The external RAM after a write: stored only when enabled, present and inside the RAM. */
  function RamWritten(hasRam: bool, b: Banks, ram: seq<bv8>, address: Word, v: bv8): (r: seq<bv8>)
    ensures |r| == |ram|
  {
    if EXTERNAL_RAM_START <= address <= EXTERNAL_RAM_END && RamAccessible(hasRam, b)
      && RamOffset(b, address) < |ram|
    then ram[RamOffset(b, address) := v]
    else ram
  }

  /** Every write keeps the bank registers in range; ROM bank 0 is never selected. */
  lemma {:induction false} WrittenBanksValid(b: Banks, address: Word, v: bv8)
    requires address <= ROM_END
    ensures BanksValid(b) ==> BanksValid(BanksWritten(b, address, v))
    ensures ROM_BANK_START <= address < RAM_BANK_START ==> 1 <= BanksWritten(b, address, v).romBank <= 31
  {
    var bank := v & 0x1F;
    assert bank <= 31;
  }

  /** 0x0000-0x1FFF: RAM is enabled exactly when the low nibble is 0xA; nothing else changes. */
  lemma RamEnableWrite(b: Banks, address: Word, v: bv8)
    requires address <= RAM_ENABLE_END
    ensures BanksWritten(b, address, v) == b.(ramEnabled := (v & 0x0F == 0x0A))
  {
  }

  /** 0x2000-0x3FFF: the ROM bank takes the low five bits, with 0 read as 1. */
  lemma RomBankWrite(b: Banks, address: Word, v: bv8)
    requires ROM_BANK_START <= address < RAM_BANK_START
    ensures BanksWritten(b, address, v).romBank == (if v & 0x1F == 0 then 1 else v & 0x1F)
    ensures BanksWritten(b, address, v) == b.(romBank := BanksWritten(b, address, v).romBank)
  {
  }

  /** 0x4000-0x5FFF sets the RAM bank to the low two bits; 0x6000-0x7FFF sets the mode to bit 0. */
  lemma RamBankAndModeWrite(b: Banks, address: Word, v: bv8)
    requires RAM_BANK_START <= address <= ROM_END
    ensures address < BANK_MODE_START ==> BanksWritten(b, address, v) == b.(ramBank := v & 0x03)
    ensures address >= BANK_MODE_START ==> BanksWritten(b, address, v) == b.(bankMode := v & 0x01)
  {
  }

  /** In mode 0 the switchable window addresses bank `romBank + 32 * ramBank`; in mode 1 bank `romBank`. */
  lemma {:induction false} SwitchableBankValue(b: Banks)
    requires BanksValid(b)
    ensures b.bankMode == 0 ==> SwitchableBank(b) as int == b.romBank as int + 32 * b.ramBank as int
    ensures b.bankMode == 1 ==> SwitchableBank(b) == b.romBank
  {
    if b.bankMode == 0 {
      assert b.ramBank << 5 == b.ramBank * 32;
      assert b.romBank | (b.ramBank * 32) == b.romBank + b.ramBank * 32 by {
        assert b.romBank & (b.ramBank * 32) == 0;
      }
    }
  }

  /** A RAM write that reaches the RAM is read back at the same address. */
  lemma RamRoundTrip(rom: seq<bv8>, hasRam: bool, b: Banks, ram: seq<bv8>, address: Word, v: bv8)
    requires EXTERNAL_RAM_START <= address <= EXTERNAL_RAM_END
    requires RamAccessible(hasRam, b) && RamOffset(b, address) < |ram|
    ensures ReadOf(rom, hasRam, b, RamWritten(hasRam, b, ram, address, v), address) == Ok(v)
  {
  }

  /** With RAM disabled, or on a cartridge without RAM, the window reads 0xFF and writes are dropped. */
  lemma RamInaccessible(rom: seq<bv8>, hasRam: bool, b: Banks, ram: seq<bv8>, address: Word, v: bv8)
    requires EXTERNAL_RAM_START <= address <= EXTERNAL_RAM_END && !RamAccessible(hasRam, b)
    ensures ReadOf(rom, hasRam, b, ram, address) == Ok(0xFF)
    ensures RamWritten(hasRam, b, ram, address, v) == ram
  {
  }

  class Mbc1 {
    const rom: seq<bv8>
    const ram: array<bv8>
    const hasRam: bool
    var romBank: bv8
    var ramBank: bv8
    var ramEnabled: bool
    var bankMode: bv8

    function Registers(): Banks
      reads this
    {
      Banks(romBank, ramBank, ramEnabled, bankMode)
    }

    predicate Valid()
      reads this
    {
      BanksValid(Registers()) && (!hasRam ==> ram.Length == 0)
    }

    /** `NewMBC1`: the whole image as ROM, the power-on registers, and RAM only for types 0x02 and 0x03. */
    constructor (data: seq<bv8>, header: Header)
      ensures Valid() && fresh(ram) && rom == data && Registers() == POWER_ON
      ensures hasRam <==> header.cartType == 0x02 || header.cartType == 0x03
      ensures ram.Length == (if hasRam then RamSize(header.ramSize) else 0)
      ensures forall i :: 0 <= i < ram.Length ==> ram[i] == 0
    {
      rom := data;
      romBank, ramBank, ramEnabled, bankMode := 1, 0, false, 0;
      hasRam := header.cartType == 0x02 || header.cartType == 0x03;
      ram := new bv8[if header.cartType == 0x02 || header.cartType == 0x03 then RamSize(header.ramSize) else 0](_ => 0);
    }

    function Read(address: Word): Outcome<bv8>
      reads this, ram
    {
      ReadOf(rom, hasRam, Registers(), ram[..], address)
    }

    /** Write: a bank register in the ROM area, or a byte of the external RAM. */
    method Write(address: Word, v: bv8)
      requires Valid()
      modifies this, ram
      ensures Valid()
      ensures Registers() == (if address <= ROM_END then BanksWritten(old(Registers()), address, v) else old(Registers()))
      ensures ram[..] == RamWritten(hasRam, old(Registers()), old(ram[..]), address, v)
    {
      if address <= ROM_END {
        WrittenBanksValid(Registers(), address, v);
      }
      if address <= RAM_ENABLE_END {
        ramEnabled := v & 0x0F == 0x0A;
      } else if address < RAM_BANK_START {
        var bank := v & 0x1F;
        if bank == 0 {
          bank := 1;
        }
        romBank := bank;
      } else if address < BANK_MODE_START {
        ramBank := v & 0x03;
      } else if address <= ROM_END {
        bankMode := v & 0x01;
      } else if EXTERNAL_RAM_START <= address <= EXTERNAL_RAM_END {
        if !ramEnabled || !hasRam {
          return;
        }
        var offset := RamOffset(Registers(), address);
        if offset < ram.Length {
          ram[offset] := v;
        }
      }
    }
  }
}
