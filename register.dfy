/**
 * The SM83 register file of register.go.
 *
 * The Go `Register8` interface has two implementations, `SingleRegister8`
 * and `FlagRegister`; here they are one class whose constant `isFlag` says
 * which one an object is.  The 16-bit pairs AF, BC, DE and HL hold
 * references to the very 8-bit objects that A..L name, so a write through a
 * pair is visible through its halves and vice versa.
 */
module Registers {
  import opened Bytes

  /** An 8-bit register; the flag register keeps only its top nibble. */
  class Register8 {
    const isFlag: bool
    var val: bv8

    /** `&SingleRegister8{}` */
    constructor Single()
      ensures !isFlag && val == 0
    {
      isFlag := false;
      val := 0;
    }

    /** `&FlagRegister{}` */
    constructor Flag()
      ensures isFlag && val == 0
    {
      isFlag := true;
      val := 0;
    }

    /** The value the register reports; a flag register never reports its low nibble. */
    function Read(): (r: bv8)
      reads this
      ensures isFlag ==> r & 0x0F == 0 && r & 0xF0 == val & 0xF0
      ensures !isFlag ==> r == val
    {
      if isFlag then val & 0xF0 else val
    }

    /** Stores `v`, or its top nibble for the flag register; the next Read returns what was stored. */
    method Write(v: bv8)
      modifies this
      ensures val == (if isFlag then v & 0xF0 else v)
      ensures Read() == (if isFlag then v & 0xF0 else v)
    {
      val := if isFlag then v & 0xF0 else v;
    }

    /** Adds 1 modulo 256 and returns the new value; the flag register panics. */
    method Increment() returns (r: Outcome<bv8>)
      modifies this
      ensures isFlag ==> r == Fatal && val == old(val)
      ensures !isFlag ==> val == old(val) + 1 && r == Ok(Read())
    {
      if isFlag {
        return Fatal;
      }
      val := val + 1;
      return Ok(val);
    }

    /** Subtracts 1 modulo 256 and returns the new value; the flag register panics. */
    method Decrement() returns (r: Outcome<bv8>)
      modifies this
      ensures isFlag ==> r == Fatal && val == old(val)
      ensures !isFlag ==> val == old(val) - 1 && r == Ok(Read())
    {
      if isFlag {
        return Fatal;
      }
      val := val - 1;
      return Ok(val);
    }

    /** Zero flag, bit 7. */
    function Z(): (z: bool)
      reads this
      requires isFlag
      ensures z <==> Read() & 0x80 != 0
    {
      val & 0x80 != 0
    }

    /** Subtract flag, bit 6. */
    function N(): (n: bool)
      reads this
      requires isFlag
      ensures n <==> Read() & 0x40 != 0
    {
      val & 0x40 != 0
    }

    /** Half-carry flag, bit 5. */
    function H(): (h: bool)
      reads this
      requires isFlag
      ensures h <==> Read() & 0x20 != 0
    {
      val & 0x20 != 0
    }

    /** Carry flag, bit 4. */
    function C(): (c: bool)
      reads this
      requires isFlag
      ensures c <==> Read() & 0x10 != 0
    {
      val & 0x10 != 0
    }

    /** Sets or clears bit `mask` of `val`, as the four Set* methods do. */
    method SetBit(mask: bv8, on: bool)
      requires isFlag
      modifies this
      ensures val == (if on then old(val) | mask else old(val) & !mask)
    {
      if on {
        val := val | mask;
      } else {
        val := val & !mask;
      }
    }

    /** SetZ changes bit 7 only; Z() then reports the value set. */
    method SetZ(on: bool)
      requires isFlag
      modifies this
      ensures Z() == on
      ensures val & 0x7F == old(val) & 0x7F
      ensures N() == old(N()) && H() == old(H()) && C() == old(C())
    {
      SetBit(0x80, on);
    }

    /** SetN changes bit 6 only; N() then reports the value set. */
    method SetN(on: bool)
      requires isFlag
      modifies this
      ensures N() == on
      ensures val & 0xBF == old(val) & 0xBF
      ensures Z() == old(Z()) && H() == old(H()) && C() == old(C())
    {
      SetBit(0x40, on);
    }

    /** SetH changes bit 5 only; H() then reports the value set. */
    method SetH(on: bool)
      requires isFlag
      modifies this
      ensures H() == on
      ensures val & 0xDF == old(val) & 0xDF
      ensures Z() == old(Z()) && N() == old(N()) && C() == old(C())
    {
      SetBit(0x20, on);
    }

    /** SetC changes bit 4 only; C() then reports the value set. */
    method SetC(on: bool)
      requires isFlag
      modifies this
      ensures C() == on
      ensures val & 0xEF == old(val) & 0xEF
      ensures Z() == old(Z()) && N() == old(N()) && H() == old(H())
    {
      SetBit(0x10, on);
    }
  }

  /** SP and PC: a plain 16-bit register. */
  class SingleRegister16 {
    var val: Word

    constructor ()
      ensures val == 0
    {
      val := 0;
    }

    function Read(): Word
      reads this
    {
      val
    }

    method Write(v: Word)
      modifies this
      ensures Read() == v
    {
      val := v;
    }

    /** Adds 1 modulo 2^16 and returns the new value. */
    method Increment() returns (r: Word)
      modifies this
      ensures val == Wrap16(old(val) + 1) && r == val
    {
      val := Wrap16(val + 1);
      r := val;
    }

    /** Subtracts 1 modulo 2^16 and returns the new value. */
    method Decrement() returns (r: Word)
      modifies this
      ensures val == Wrap16(old(val) - 1) && r == val
    {
      val := Wrap16(val - 1);
      r := val;
    }

    /** Returns the old value and leaves the register at old + 1. */
    method PostIncrement() returns (r: Word)
      modifies this
      ensures r == old(val) && val == Wrap16(old(val) + 1)
    {
      r := val;
      var _ := Increment();
    }

    /** Returns the old value and leaves the register at old - 1. */
    method PostDecrement() returns (r: Word)
      modifies this
      ensures r == old(val) && val == Wrap16(old(val) - 1)
    {
      r := val;
      var _ := Decrement();
    }
  }

  /** Masking a byte with 0xF0 drops its value modulo 16. */
  lemma HighNibble(b: bv8)
    ensures (b & 0xF0) as int == b as int - b as int % 0x10
  {
  }

  /** What a pair reads back after `v` was written through it. */
  function PairStored(loIsFlag: bool, v: Word): (r: Word)
    ensures Hi(r) == Hi(v)
    ensures loIsFlag ==> Lo(r) == Lo(v) & 0xF0 && r == v - v % 0x10
    ensures !loIsFlag ==> r == v
  {
    HiLoJoin(Hi(v), Lo(v) & 0xF0);
    if loIsFlag then FlagMaskedWord(v); Join(Hi(v), Lo(v) & 0xF0) else v
  }

  /** Keeping the top nibble of the low byte is Go's `v & 0xFFF0`. */
  lemma FlagMaskedWord(v: Word)
    ensures Join(Hi(v), Lo(v) & 0xF0) == v - v % 0x10
  {
    HighNibble(Lo(v));
    ByteValue(v % 0x100);
    ByteValue(v / 0x100);
    assert Lo(v) as int == v % 0x100;
    assert Hi(v) as int == v / 0x100;
    assert (v % 0x100) % 0x10 == v % 0x10;
  }

  /** A 16-bit view of two 8-bit registers (AF, BC, DE, HL). */
  class CombinedRegister16 {
    const hi: Register8
    const lo: Register8

    constructor (hi: Register8, lo: Register8)
      ensures this.hi == hi && this.lo == lo
    {
      this.hi := hi;
      this.lo := lo;
    }

    /** Two distinct halves; the high half is never the flag register. */
    predicate Valid()
    {
      hi != lo && !hi.isFlag
    }

    /** `(hi << 8) | lo` */
    function Read(): (r: Word)
      reads hi, lo
      ensures Hi(r) == hi.Read() && Lo(r) == lo.Read()
    {
      HiLoJoin(hi.Read(), lo.Read());
      Join(hi.Read(), lo.Read())
    }

    /** Writes `v >> 8` to the high half and `v & 0xFF` to the low half. */
    method Write(v: Word)
      requires Valid()
      modifies hi, lo
      ensures hi.val == Hi(v)
      ensures lo.val == (if lo.isFlag then Lo(v) & 0xF0 else Lo(v))
      ensures Read() == PairStored(lo.isFlag, v)
    {
      hi.Write(Hi(v));
      lo.Write(Lo(v));
      JoinHiLo(v);
    }

    /** `Write(Read() + 1)` and returns the new reading. */
    method Increment() returns (r: Word)
      requires Valid()
      modifies hi, lo
      ensures r == Read() == PairStored(lo.isFlag, Wrap16(old(Read()) + 1))
    {
      Write(Wrap16(Read() + 1));
      r := Read();
    }

    /** `Write(Read() - 1)` and returns the new reading. */
    method Decrement() returns (r: Word)
      requires Valid()
      modifies hi, lo
      ensures r == Read() == PairStored(lo.isFlag, Wrap16(old(Read()) - 1))
    {
      Write(Wrap16(Read() - 1));
      r := Read();
    }

    method PostIncrement() returns (r: Word)
      requires Valid()
      modifies hi, lo
      ensures r == old(Read())
      ensures Read() == PairStored(lo.isFlag, Wrap16(old(Read()) + 1))
    {
      r := Read();
      var _ := Increment();
    }

    method PostDecrement() returns (r: Word)
      requires Valid()
      modifies hi, lo
      ensures r == old(Read())
      ensures Read() == PairStored(lo.isFlag, Wrap16(old(Read()) - 1))
    {
      r := Read();
      var _ := Decrement();
    }
  }

  /** The register file built by NewRegisters. */
  class Registers {
    const a: Register8
    const b: Register8
    const c: Register8
    const d: Register8
    const e: Register8
    const f: Register8
    const h: Register8
    const l: Register8
    const af: CombinedRegister16
    const bc: CombinedRegister16
    const de: CombinedRegister16
    const hl: CombinedRegister16
    const sp: SingleRegister16
    const pc: SingleRegister16

    /**
     * The wiring of register.go:56-92: eight distinct 8-bit registers, only
     * F a flag register, each pair made of its two halves, SP and PC apart.
     */
    predicate Valid()
    {
      && !a.isFlag && !b.isFlag && !c.isFlag && !d.isFlag && !e.isFlag && !h.isFlag && !l.isFlag && f.isFlag
      && a != b && a != c && a != d && a != e && a != h && a != l
      && b != c && b != d && b != e && b != h && b != l
      && c != d && c != e && c != h && c != l
      && d != e && d != h && d != l
      && e != h && e != l
      && h != l
      && af.hi == a && af.lo == f
      && bc.hi == b && bc.lo == c
      && de.hi == d && de.lo == e
      && hl.hi == h && hl.lo == l
      && sp != pc
    }

    /** Every 8-bit register object. */
    function Bytes(): set<object>
    {
      {a, b, c, d, e, f, h, l}
    }

    /** NewRegisters: everything zero. */
    constructor ()
      ensures Valid()
      ensures fresh(Bytes()) && fresh(sp) && fresh(pc)
      ensures a.val == 0 && b.val == 0 && c.val == 0 && d.val == 0
      ensures e.val == 0 && f.val == 0 && h.val == 0 && l.val == 0
      ensures sp.val == 0 && pc.val == 0
    {
      var a := new Register8.Single();
      var b := new Register8.Single();
      var c := new Register8.Single();
      var d := new Register8.Single();
      var e := new Register8.Single();
      var f := new Register8.Flag();
      var h := new Register8.Single();
      var l := new Register8.Single();
      this.a, this.b, this.c, this.d, this.e, this.f, this.h, this.l := a, b, c, d, e, f, h, l;
      af := new CombinedRegister16(a, f);
      bc := new CombinedRegister16(b, c);
      de := new CombinedRegister16(d, e);
      hl := new CombinedRegister16(h, l);
      sp := new SingleRegister16();
      pc := new SingleRegister16();
    }
  }

  /** Writing v to BC reads back v, through BC and through B and C, and leaves every other register unchanged. */
  method WriteBcRoundTrip(r: Registers, v: Word)
    requires r.Valid()
    modifies r.b, r.c
    ensures r.bc.Read() == v && r.b.val == Hi(v) && r.c.val == Lo(v)
    ensures r.a.val == old(r.a.val) && r.f.val == old(r.f.val) && r.d.val == old(r.d.val)
    ensures r.e.val == old(r.e.val) && r.h.val == old(r.h.val) && r.l.val == old(r.l.val)
  {
    r.bc.Write(v);
  }

  /** Writing v to DE reads back v, through DE and through D and E, and leaves every other register unchanged. */
  method WriteDeRoundTrip(r: Registers, v: Word)
    requires r.Valid()
    modifies r.d, r.e
    ensures r.de.Read() == v && r.d.val == Hi(v) && r.e.val == Lo(v)
    ensures r.a.val == old(r.a.val) && r.f.val == old(r.f.val) && r.b.val == old(r.b.val)
    ensures r.c.val == old(r.c.val) && r.h.val == old(r.h.val) && r.l.val == old(r.l.val)
  {
    r.de.Write(v);
  }

  /** Writing v to HL reads back v, through HL and through H and L, and leaves every other register unchanged. */
  method WriteHlRoundTrip(r: Registers, v: Word)
    requires r.Valid()
    modifies r.h, r.l
    ensures r.hl.Read() == v && r.h.val == Hi(v) && r.l.val == Lo(v)
    ensures r.a.val == old(r.a.val) && r.f.val == old(r.f.val) && r.b.val == old(r.b.val)
    ensures r.c.val == old(r.c.val) && r.d.val == old(r.d.val) && r.e.val == old(r.e.val)
  {
    r.hl.Write(v);
  }

  /** Writing v to AF reads back v & 0xFFF0, since F keeps only its top nibble. */
  method WriteAfRoundTrip(r: Registers, v: Word)
    requires r.Valid()
    modifies r.a, r.f
    ensures r.af.Read() == v - v % 0x10 && r.a.val == Hi(v) && r.f.Read() & 0x0F == 0
  {
    r.af.Write(v);
  }
}
