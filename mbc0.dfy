/**
 * mbc0.go and cartridge/mbc0.go (the same code in both layouts): a
 * cartridge without a bank controller.  32 KiB of ROM sit at 0x0000-0x7FFF
 * and the optional external RAM at 0xA000-0xBFFF.
 */
module Mbc0 {
  import opened Bytes
  import opened Memory
  import opened Mbc

  const ROM_WINDOW_END: Word := 0x7FFF
  const RAM_START: Word := 0xA000
  const RAM_END: Word := 0xBFFF
  const ROM_IMAGE_SIZE: nat := 0x8000

  /**
   * The ROM an MBC0 cartridge keeps: `copy` into a zeroed 32 KiB buffer, so
   * a longer image is truncated and a shorter one padded with zeros.
   */
  function Padded(data: seq<bv8>): (rom: seq<bv8>)
    ensures |rom| == ROM_IMAGE_SIZE
    ensures forall i :: 0 <= i < ROM_IMAGE_SIZE ==> rom[i] == if i < |data| then data[i] else 0
  {
    if |data| >= ROM_IMAGE_SIZE then data[..ROM_IMAGE_SIZE]
    else data + seq(ROM_IMAGE_SIZE - |data|, _ => 0)
  }

  predicate InRamWindow(address: Word)
  {
    RAM_START <= address <= RAM_END
  }

  /**
   * Read: the ROM window, then the RAM window (0xFF when the cartridge has
   * no RAM).  Any other address panics, and so does a RAM offset past a RAM
   * smaller than the window.
   */
  function ReadOf(rom: seq<bv8>, ram: seq<bv8>, address: Word): (r: Outcome<bv8>)
    requires |rom| == ROM_IMAGE_SIZE
    ensures r.Ok? <==>
              address <= ROM_WINDOW_END || (InRamWindow(address) && (|ram| == 0 || address - RAM_START < |ram|))
  {
    if address <= ROM_WINDOW_END then Ok(rom[address])
    else if InRamWindow(address) then
      if |ram| > 0 then
        if address - RAM_START < |ram| then Ok(ram[address - RAM_START]) else Fatal
      else Ok(0xFF)
    else Fatal
  }

  /**
   * Write: ROM writes are ignored, a RAM write stores the byte when there
   * is RAM (panicking past its end), and any other address is ignored.
   */
  function RamWritten(ram: seq<bv8>, address: Word, v: bv8): (r: Outcome<seq<bv8>>)
    ensures r.Ok? ==> |r.value| == |ram|
    ensures r.Fatal? <==> InRamWindow(address) && 0 < |ram| <= address - RAM_START
  {
    if InRamWindow(address) && |ram| > 0 then
      if address - RAM_START < |ram| then Ok(ram[address - RAM_START := v]) else Fatal
    else Ok(ram)
  }

  /** The ROM window reads the padded image. */
  lemma RomReadsImage(data: seq<bv8>, ram: seq<bv8>, address: Word)
    requires address <= ROM_WINDOW_END
    ensures ReadOf(Padded(data), ram, address) == Ok(if address < |data| then data[address] else 0)
  {
  }

  /** Writing anywhere outside the RAM window changes nothing. */
  lemma WriteOutsideRamIgnored(ram: seq<bv8>, address: Word, v: bv8)
    requires !InRamWindow(address)
    ensures RamWritten(ram, address, v) == Ok(ram)
  {
  }

  /** A RAM byte reads back what was written to it, and no other RAM byte changes. */
  lemma RamRoundTrip(rom: seq<bv8>, ram: seq<bv8>, offset: nat, v: bv8)
    requires |rom| == ROM_IMAGE_SIZE && offset < |ram| && offset <= RAM_END - RAM_START
    ensures var w := RamWritten(ram, RAM_START + offset, v);
      w.Ok? && ReadOf(rom, w.value, RAM_START + offset) == Ok(v)
      && forall i :: 0 <= i < |ram| && i != offset ==> w.value[i] == ram[i]
  {
  }

  /** Without RAM the window reads 0xFF and ignores writes. */
  lemma NoRam(rom: seq<bv8>, address: Word, v: bv8)
    requires |rom| == ROM_IMAGE_SIZE && InRamWindow(address)
    ensures ReadOf(rom, [], address) == Ok(0xFF)
    ensures RamWritten([], address, v) == Ok([])
  {
  }

  class Mbc0 {
    const rom: Rom
    const ram: Ram
    const ramSize: nat

    predicate Valid()
    {
      |rom.data| == ROM_IMAGE_SIZE && ram.Size() == ramSize
    }

    /** `NewMBC0`: the padded ROM and a zeroed RAM of the header's size. */
    constructor (data: seq<bv8>, header: Header)
      ensures Valid() && fresh(ram) && fresh(ram.data)
      ensures rom.data == Padded(data) && ramSize == RamSize(header.ramSize)
      ensures forall i :: 0 <= i < ramSize ==> ram.data[i] == 0
    {
      rom := new Rom(Padded(data));
      ram := new Ram(RamSize(header.ramSize));
      ramSize := RamSize(header.ramSize);
    }

    function Read(address: Word): Outcome<bv8>
      reads ram.data
      requires Valid()
    {
      ReadOf(rom.data, ram.data[..], address)
    }

    method Write(address: Word, v: bv8) returns (ok: bool)
      requires Valid()
      modifies ram.data
      ensures var w := RamWritten(old(ram.data[..]), address, v);
        ok == w.Ok? && (ok ==> ram.data[..] == w.value) && (!ok ==> unchanged(ram.data))
    {
      if address <= ROM_WINDOW_END {
        return true;
      } else if InRamWindow(address) {
        if ramSize > 0 {
          if address - RAM_START >= ram.Size() {
            return false;
          }
          ram.Write(address - RAM_START, v);
        }
      }
      ok := true;
    }
  }
}
