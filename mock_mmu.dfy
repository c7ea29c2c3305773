/**
 * test/mock_mmu.go (and the identical `MockMmu` at mmu.go:191-222): a flat
 * 64 KiB memory behind the CPU's bus interface, as the single-step CPU tests
 * build it over `NewRAM(0x10000)`.
 */
module MockMmu {
  import opened Bytes
  import opened Memory

  class MockMmu {
    const ram: Ram
    var bootROMEnabled: bool

    /** `MockMmu{ram: NewRAM(0x10000)}` */
    constructor ()
      ensures Valid() && fresh(ram.data) && !bootROMEnabled
      ensures forall a: Word :: Read(a) == 0
    {
      ram := new Ram(0x10000);
      bootROMEnabled := false;
    }

    /** Every 16-bit address is backed by a byte. */
    predicate Valid()
    {
      ram.Size() == 0x10000
    }

    function Read(address: Word): bv8
      reads ram.data
      requires Valid()
    {
      ram.Read(address)
    }

    /** A Read of `address` returns `v` afterwards, over the whole 16-bit space; no other byte changes. */
    method Write(address: Word, v: bv8)
      requires Valid()
      modifies ram.data
      ensures Read(address) == v
      ensures ram.data[..] == old(ram.data[..])[address as int := v]
    {
      ram.Write(address, v);
    }

    /** Little-endian: the byte at `address` is the low half, the byte at `address + 1` (wrapping at 0xFFFF) the high half. */
    function ReadWord(address: Word): (r: Word)
      reads ram.data
      requires Valid()
      ensures Lo(r) == Read(address) && Hi(r) == Read(Wrap16(address + 1))
    {
      var lo, hi := Read(address), Read(Wrap16(address + 1));
      HiLoJoin(hi, lo);
      Join(hi, lo)
    }

    /**
     * Writes the low byte at `address`, then the high byte at `address + 1`;
     * ReadWord at `address` then returns `v`.
     */
    method WriteWord(address: Word, v: Word)
      requires Valid()
      modifies ram.data
      ensures ram.data[..] == old(ram.data[..])[address := Lo(v)][Wrap16(address + 1) := Hi(v)]
      ensures ReadWord(address) == v
    {
      var hi := Hi(v);
      var lo := Lo(v);
      Write(address, lo);
      Write(Wrap16(address + 1), hi);
      SameHalves(ReadWord(address), v);
    }

    /** Changes only the flag: every Read is unaffected. */
    method SetBootRomEnabled(enabled: bool)
      modifies this
      ensures bootROMEnabled == enabled
    {
      bootROMEnabled := enabled;
    }
  }
}
