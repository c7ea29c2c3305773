/** interrupts/register.go: a byte-wide register with no masking. */
module InterruptRegister {

  class InterruptRegister {
    var val: bv8

    /** `&InterruptRegister{}` reads 0. */
    constructor ()
      ensures val == 0 && Read() == 0
    {
      val := 0;
    }

    function Read(): bv8
      reads this
    {
      val
    }

    /** All eight bits are stored; the next Read returns `v`. */
    method Write(v: bv8)
      modifies this
      ensures Read() == v
    {
      val := v;
    }
  }
}

/**
 * interrupts.go: the interrupt-flag (IF, 0xFF0F) and interrupt-enable (IE,
 * 0xFFFF) registers, and the five interrupt sources.
 */
module Interrupts {
  import opened Bytes
  import opened InterruptRegister

  const VBLANK_INTERRUPT: bv8 := 0
  const LCD_INTERRUPT: bv8 := 1
  const TIMER_INTERRUPT: bv8 := 2
  const SERIAL_INTERRUPT: bv8 := 3
  const JOYPAD_INTERRUPT: bv8 := 4

  /** The vector of interrupt `i` is 0x40 + 8i, in bit order. */
  const INTERRUPT_SOURCES: seq<Word> := [0x40, 0x48, 0x50, 0x58, 0x60]

  lemma InterruptSourceVectors(i: nat)
    requires i < |INTERRUPT_SOURCES|
    ensures INTERRUPT_SOURCES[i] == 0x40 + 8 * i
  {
  }

  /** IF with bit `i` set, as `Request` computes it. */
  function Requested(flags: bv8, i: bv8): (r: bv8)
    ensures i < 8 ==> IsBitSet(r, i as nat)
    ensures r & !BitMask(i) == flags & !BitMask(i)
  {
    flags | BitMask(i)
  }

  /** IF with bit `i` cleared, as `Clear` computes it. */
  function Cleared(flags: bv8, i: bv8): (r: bv8)
    ensures i < 8 ==> !IsBitSet(r, i as nat)
    ensures r & !BitMask(i) == flags & !BitMask(i)
  {
    flags & !BitMask(i)
  }

  /** Every request pending in `before` is still pending in `after`. */
  predicate Kept(before: bv8, after: bv8)
  {
    after & before == before
  }

  /** A request keeps every pending request, and keeping is transitive. */
  lemma RequestKeeps(flags: bv8, i: bv8, later: bv8)
    ensures Kept(flags, Requested(flags, i))
    ensures Kept(Requested(flags, i), later) ==> Kept(flags, later)
  {
  }

  /** Requesting twice is requesting once; clearing after a request leaves the bit clear. */
  lemma RequestIdempotent(flags: bv8, i: bv8)
    ensures Requested(Requested(flags, i), i) == Requested(flags, i)
    ensures Cleared(Requested(flags, i), i) == Cleared(flags, i)
  {
  }

  class Interrupts {
    const interruptFlag: InterruptRegister
    const interruptEnable: InterruptRegister

    predicate Valid()
    {
      interruptFlag != interruptEnable
    }

    /** NewInterrupts: IF and IE both 0. */
    constructor ()
      ensures Valid() && fresh(interruptFlag) && fresh(interruptEnable)
      ensures IF() == 0 && IE() == 0
    {
      interruptFlag := new InterruptRegister();
      interruptEnable := new InterruptRegister();
    }

    function IF(): bv8
      reads interruptFlag
    {
      interruptFlag.Read()
    }

    function IE(): bv8
      reads interruptEnable
    {
      interruptEnable.Read()
    }

    /** 0xFF0F stores IF, 0xFFFF stores IE, all 8 bits; any other address panics. */
    method Write(address: Word, v: bv8) returns (ok: bool)
      requires Valid()
      modifies interruptFlag, interruptEnable
      ensures ok <==> address == 0xFF0F || address == 0xFFFF
      ensures IF() == (if address == 0xFF0F then v else old(IF()))
      ensures IE() == (if address == 0xFFFF then v else old(IE()))
    {
      if address == 0xFF0F {
        interruptFlag.Write(v);
        ok := true;
      } else if address == 0xFFFF {
        interruptEnable.Write(v);
        ok := true;
      } else {
        ok := false;
      }
    }

    /** Sets bit `i` of IF; no other bit of IF, and nothing of IE, changes. */
    method Request(i: bv8)
      requires Valid()
      modifies interruptFlag
      ensures Valid()
      ensures IF() == Requested(old(IF()), i) && IE() == old(IE())
    {
      interruptFlag.Write(interruptFlag.Read() | BitMask(i));
    }

    /** Clears bit `i` of IF; no other bit of IF, and nothing of IE, changes. */
    method Clear(i: bv8)
      requires Valid()
      modifies interruptFlag
      ensures Valid()
      ensures IF() == Cleared(old(IF()), i) && IE() == old(IE())
    {
      interruptFlag.Write(interruptFlag.Read() & !BitMask(i));
    }
  }
}
