/**
 * timer.go: the divider/timer unit.  A 16-bit counter advances once per
 * step; TIMA ticks on each falling edge of the counter bit that TAC selects,
 * and an overflow of TIMA reloads it from TMA and requests the timer
 * interrupt four steps later.  Go's `x >> p & 1` on the counter is written
 * with integer division by 2^p.
 */
module Timer {
  import opened Bytes
  import opened Interrupts

  const TAC_ENABLE: nat := 2
  const TAC_CLOCK_SELECT_MASK: bv8 := 0x03

  /** The counter bit watched for each clock select value 0..3. */
  const TIMER_BIT_POSITIONS: seq<nat> := [9, 3, 5, 7]

  const DIV_ADDRESS: Word := 0xFF04
  const TIMA_ADDRESS: Word := 0xFF05
  const TMA_ADDRESS: Word := 0xFF06
  const TAC_ADDRESS: Word := 0xFF07

  /** The steps between an overflow of TIMA and its reload (one M-cycle). */
  const RELOAD_DELAY: bv8 := 4

  /** Everything the timer reads or writes: its own registers and IF. */
  datatype TimerState = TimerState(
    counter: Word, tima: bv8, tma: bv8, tac: bv8, delay: bv8, iff: bv8)

  function Pow2(n: nat): (r: nat)
    ensures r >= 1
  {
    if n == 0 then 1 else 2 * Pow2(n - 1)
  }

  /** Bit `p` of the counter, as Go's `(counter >> p) & 1`. */
  function CounterBit(counter: Word, p: nat): (b: nat)
    ensures b < 2
  {
    (counter / Pow2(p)) % 2
  }

  /** Bit 2 of TAC switches the timer on. */
  predicate Enabled(tac: bv8)
  {
    IsBitSet(tac, TAC_ENABLE)
  }

  /** The clock select field, TAC's two low bits. */
  function ClockSelect(tac: bv8): (k: nat)
    ensures k < 4 && k == tac as int % 4
  {
    (tac & TAC_CLOCK_SELECT_MASK) as nat
  }

  /** The counter bit TAC selects. */
  function BitPosition(tac: bv8): nat
  {
    TIMER_BIT_POSITIONS[ClockSelect(tac)]
  }

  /** A 1 -> 0 change of bit `p` between two counter values. */
  predicate FallingEdge(prev: Word, next: Word, p: nat)
  {
    CounterBit(prev, p) == 1 && CounterBit(next, p) == 0
  }

  /** incrementTimer: TIMA + 1, or at 0xFF back to 0 with the reload delay armed. */
  function Incremented(s: TimerState): (t: TimerState)
    ensures s.tima == 0xFF ==> t == s.(tima := 0, delay := RELOAD_DELAY)
    ensures s.tima != 0xFF ==> t == s.(tima := t.tima) && t.tima as int == s.tima as int + 1
  {
    if s.tima == 0xFF then s.(tima := 0, delay := RELOAD_DELAY) else s.(tima := s.tima + 1)
  }

  /** The reload countdown at the head of Step: as it reaches 0, TIMA := TMA and IF bit 2 is set. */
  function Reloaded(s: TimerState): (t: TimerState)
  {
    if s.delay == 0 then s
    else if s.delay == 1 then s.(delay := 0, tima := s.tma, iff := Requested(s.iff, TIMER_INTERRUPT))
    else s.(delay := s.delay - 1)
  }

  /** The falling-edge detector: TIMA ticks when the selected bit falls from `prev` to `next`. */
  function EdgeTicked(s: TimerState, prev: Word, next: Word): TimerState
  {
    if Enabled(s.tac) && FallingEdge(prev, next, BitPosition(s.tac)) then Incremented(s) else s
  }

  /** Step: the counter advances, the reload counts down, then the edge detector runs. */
  function Stepped(s: TimerState): (t: TimerState)
    ensures t.counter == Wrap16(s.counter + 1) && t.tma == s.tma && t.tac == s.tac
  {
    var next := Wrap16(s.counter + 1);
    EdgeTicked(Reloaded(s.(counter := next)), s.counter, next)
  }

  /** Read: DIV is the counter's high byte, TAC reads with bits 3-7 set; other addresses panic. */
  function ReadOf(s: TimerState, address: Word): (r: Outcome<bv8>)
    ensures r.Ok? <==> DIV_ADDRESS <= address <= TAC_ADDRESS
    ensures address == TIMA_ADDRESS ==> r.value == s.tima
    ensures address == TMA_ADDRESS ==> r.value == s.tma
  {
    if address == DIV_ADDRESS then Ok(Hi(s.counter))
    else if address == TIMA_ADDRESS then Ok(s.tima)
    else if address == TMA_ADDRESS then Ok(s.tma)
    else if address == TAC_ADDRESS then Ok(s.tac | 0xF8)
    else Fatal
  }

  /** DIV reads as the counter's high byte, `counter >> 8`. */
  lemma ReadDiv(s: TimerState)
    ensures ReadOf(s, DIV_ADDRESS).value as int == s.counter / 0x100
  {
    ByteValue(s.counter / 0x100);
  }

  /** TAC reads its three bits with bits 3-7 set. */
  lemma ReadTac(s: TimerState)
    ensures var v := ReadOf(s, TAC_ADDRESS).value;
      v & 0xF8 == 0xF8 && v & 0x07 == s.tac & 0x07
  {
  }

  /** handleDivReset: TIMA ticks if the timer is on and the selected bit is 1; the counter becomes 0. */
  function DivReset(s: TimerState): (t: TimerState)
    ensures t.counter == 0
  {
    var s1 := if Enabled(s.tac) && CounterBit(s.counter, BitPosition(s.tac)) == 1 then Incremented(s) else s;
    s1.(counter := 0)
  }

  /** Write: DIV resets, TIMA cancels a pending reload, TMA also lands in TIMA during one, TAC keeps 3 bits; other addresses are ignored. */
  function Written(s: TimerState, address: Word, v: bv8): (t: TimerState)
    ensures t.iff == s.iff
    ensures address == TIMA_ADDRESS ==> t == s.(tima := v, delay := 0)
    ensures address == TMA_ADDRESS ==> t == s.(tma := v, tima := if s.delay > 0 then v else s.tima)
    ensures address == TAC_ADDRESS ==> t == s.(tac := v & 0x07)
    ensures !(DIV_ADDRESS <= address <= TAC_ADDRESS) ==> t == s
  {
    if address == DIV_ADDRESS then DivReset(s)
    else if address == TIMA_ADDRESS then s.(delay := 0, tima := v)
    else if address == TMA_ADDRESS then s.(tima := if s.delay > 0 then v else s.tima, tma := v)
    else if address == TAC_ADDRESS then s.(tac := v & 0x07)
    else s
  }

  /** The four counter bits that TAC can select. */
  lemma SelectedPowers(tac: bv8)
    ensures BitPosition(tac) in {9, 3, 5, 7}
    ensures Pow2(9) == 512 && Pow2(3) == 8 && Pow2(5) == 32 && Pow2(7) == 128
  {
  }

  /** The period of TIMA in steps for clock select 0..3. */
  function Period(tac: bv8): (n: nat)
    ensures n in {1024, 16, 64, 256}
  {
    [1024, 16, 64, 256][ClockSelect(tac)]
  }

  /** Bit log2(w) of the counter falls exactly when the new value is a multiple of 2w; one lemma per selectable w. */
  lemma EdgeEvery16(c: Word)
    ensures ((c / 8) % 2 == 1 && (Wrap16(c + 1) / 8) % 2 == 0) <==> Wrap16(c + 1) % 16 == 0
  {
    var q, r := c / 16, c % 16;
    assert c / 8 == 2 * q + r / 8;
    if c < 0xFFFF {
      assert Wrap16(c + 1) / 8 == if r == 15 then 2 * q + 2 else 2 * q + (r + 1) / 8;
    }
  }

  lemma EdgeEvery64(c: Word)
    ensures ((c / 32) % 2 == 1 && (Wrap16(c + 1) / 32) % 2 == 0) <==> Wrap16(c + 1) % 64 == 0
  {
    var q, r := c / 64, c % 64;
    assert c / 32 == 2 * q + r / 32;
    if c < 0xFFFF {
      assert Wrap16(c + 1) / 32 == if r == 63 then 2 * q + 2 else 2 * q + (r + 1) / 32;
    }
  }

  lemma EdgeEvery256(c: Word)
    ensures ((c / 128) % 2 == 1 && (Wrap16(c + 1) / 128) % 2 == 0) <==> Wrap16(c + 1) % 256 == 0
  {
    var q, r := c / 256, c % 256;
    assert c / 128 == 2 * q + r / 128;
    if c < 0xFFFF {
      assert Wrap16(c + 1) / 128 == if r == 255 then 2 * q + 2 else 2 * q + (r + 1) / 128;
    }
  }

  lemma EdgeEvery1024(c: Word)
    ensures ((c / 512) % 2 == 1 && (Wrap16(c + 1) / 512) % 2 == 0) <==> Wrap16(c + 1) % 1024 == 0
  {
    var q, r := c / 1024, c % 1024;
    assert c / 512 == 2 * q + r / 512;
    if c < 0xFFFF {
      assert Wrap16(c + 1) / 512 == if r == 1023 then 2 * q + 2 else 2 * q + (r + 1) / 512;
    }
  }

  /** Bit `p` falls exactly when the new counter value is a multiple of 2^(p+1), wrapping included. */
  lemma FallingEdgeAtMultiple(c: Word, p: nat)
    requires p in {3, 5, 7, 9}
    ensures FallingEdge(c, Wrap16(c + 1), p) <==> Wrap16(c + 1) % (2 * Pow2(p)) == 0
  {
    if p == 3 {
      assert Pow2(3) == 8;
      EdgeEvery16(c);
    } else if p == 5 {
      assert Pow2(5) == 32;
      EdgeEvery64(c);
    } else if p == 7 {
      assert Pow2(7) == 128;
      EdgeEvery256(c);
    } else {
      assert Pow2(9) == 512;
      EdgeEvery1024(c);
    }
  }

  /**
   * With the timer on and no reload pending, a step ticks TIMA exactly when
   * the new counter value is a multiple of the selected period: once every
   * 1024, 16, 64 or 256 steps.  A tick adds one, or wraps 0xFF to 0 and arms
   * the reload.
   */
  lemma StepTicksOncePerPeriod(s: TimerState)
    requires Enabled(s.tac) && s.delay == 0
    ensures var t := Stepped(s);
      && (t != s.(counter := t.counter) <==> t.counter % Period(s.tac) == 0)
      && (t.counter % Period(s.tac) == 0 ==> t == Incremented(s).(counter := t.counter))
  {
    SelectedPowers(s.tac);
    var p := BitPosition(s.tac);
    FallingEdgeAtMultiple(s.counter, p);
  }

  /** With bit 2 of TAC clear, only the counter and a pending reload move. */
  lemma StepWhileDisabled(s: TimerState)
    requires !Enabled(s.tac)
    ensures Stepped(s) == Reloaded(s.(counter := Wrap16(s.counter + 1)))
    ensures s.delay == 0 ==> Stepped(s) == s.(counter := Wrap16(s.counter + 1))
  {
  }

  /** Overflow of TIMA: it becomes 0 and the reload is armed; no interrupt yet. */
  lemma OverflowArmsReload(s: TimerState)
    requires s.delay == 0 && s.tima == 0xFF
    requires Enabled(s.tac) && FallingEdge(s.counter, Wrap16(s.counter + 1), BitPosition(s.tac))
    ensures Stepped(s).tima == 0 && Stepped(s).delay == RELOAD_DELAY && Stepped(s).iff == s.iff
  {
  }

  /** While the reload counts down from 2..4, a step lowers the delay by one, leaves IF alone and raises TIMA by at most one. */
  lemma ReloadCountsDown(s: TimerState)
    requires 2 <= s.delay <= RELOAD_DELAY && s.tima != 0xFF
    ensures Stepped(s).delay == s.delay - 1 && Stepped(s).iff == s.iff
    ensures Stepped(s).tima as int <= s.tima as int + 1
  {
  }

  /** The step that finds the delay at 1 loads TMA (ticking it once more on an edge) and requests the timer interrupt. */
  lemma ReloadFires(s: TimerState)
    requires s.delay == 1
    ensures Stepped(s).iff == Requested(s.iff, TIMER_INTERRUPT)
    ensures IsBitSet(Stepped(s).iff, TIMER_INTERRUPT as nat)
    ensures Stepped(s).tima == s.tma || Stepped(s).tima == Incremented(s.(delay := 0, tima := s.tma)).tima
  {
  }

  /**
   * Four steps after the overflow, TIMA is reloaded from TMA (and may tick
   * once more in that step) and the timer interrupt is requested; the three
   * steps before do not touch IF.
   */
  lemma {:induction false} ReloadAfterFourSteps(s: TimerState)
    requires s.delay == RELOAD_DELAY && s.tima < 0xFC
    ensures var s3 := Stepped(Stepped(Stepped(s)));
      && s3.iff == s.iff && s3.delay == 1 && s3.tma == s.tma
      && Stepped(s3).iff == Requested(s.iff, TIMER_INTERRUPT)
      && (Stepped(s3).tima == s.tma || Stepped(s3).tima == Incremented(s.(delay := 0, tima := s.tma)).tima)
  {
    var s1 := Stepped(s);
    ReloadCountsDown(s);
    var s2 := Stepped(s1);
    ReloadCountsDown(s1);
    var s3 := Stepped(s2);
    ReloadCountsDown(s2);
    ReloadFires(s3);
  }

  /** A step keeps every pending interrupt request and touches no IF bit but the timer's own. */
  lemma StepKeepsRequests(s: TimerState)
    ensures Kept(s.iff, Stepped(s).iff)
    ensures Stepped(s).iff & !BitMask(TIMER_INTERRUPT) == s.iff & !BitMask(TIMER_INTERRUPT)
  {
    RequestKeeps(s.iff, TIMER_INTERRUPT, 0);
  }

  /** Writing DIV is a falling edge of the selected bit as the counter drops to 0. */
  lemma DivResetIsFallingEdge(s: TimerState, v: bv8)
    ensures Written(s, DIV_ADDRESS, v) == EdgeTicked(s, s.counter, 0).(counter := 0)
    ensures ReadOf(Written(s, DIV_ADDRESS, v), DIV_ADDRESS) == Ok(0)
  {
    assert CounterBit(0, BitPosition(s.tac)) == 0;
  }

  /** Writing TIMA during a pending reload cancels it: the next step requests nothing. */
  lemma TimaWriteCancelsReload(s: TimerState, v: bv8)
    ensures var t := Written(s, TIMA_ADDRESS, v);
      && ReadOf(t, TIMA_ADDRESS) == Ok(v)
      && Stepped(t).iff == s.iff
  {
  }

  /** Writing TMA during a pending reload also sets TIMA, and the reload then loads the new value. */
  lemma TmaWriteDuringReload(s: TimerState, v: bv8)
    requires s.delay == 1
    ensures var t := Written(s, TMA_ADDRESS, v);
      && ReadOf(t, TMA_ADDRESS) == Ok(v) && ReadOf(t, TIMA_ADDRESS) == Ok(v)
      && Reloaded(t).tima == v
  {
  }

  /** TAC keeps only its three low bits and reads back with the others set. */
  lemma TacRoundTrip(s: TimerState, v: bv8)
    ensures ReadOf(Written(s, TAC_ADDRESS, v), TAC_ADDRESS) == Ok(v | 0xF8)
  {
  }

  class Timer {
    var internalCounter: Word
    var tima: bv8
    var tma: bv8
    var tac: bv8
    var overflowDelay: bv8
    const interrupts: Interrupts

    function View(): TimerState
      reads this, interrupts.interruptFlag
    {
      TimerState(internalCounter, tima, tma, tac, overflowDelay, interrupts.IF())
    }

    /** NewTimer: every register 0. */
    constructor (interrupts: Interrupts)
      ensures this.interrupts == interrupts
      ensures View() == TimerState(0, 0, 0, 0, 0, interrupts.IF())
    {
      internalCounter, tima, tma, tac, overflowDelay := 0, 0, 0, 0, 0;
      this.interrupts := interrupts;
    }

    predicate IsTimerEnabled()
      reads this
    {
      Enabled(tac)
    }

    function TimerBitPosition(): nat
      reads this
    {
      BitPosition(tac)
    }

    method IncrementTimer()
      modifies this
      ensures View() == Incremented(old(View()))
    {
      if tima == 0xFF {
        tima := 0;
        overflowDelay := RELOAD_DELAY;
      } else {
        tima := tima + 1;
      }
    }

    /** The reload countdown at the head of Step. */
    method CountDownReload()
      requires interrupts.Valid()
      modifies this, interrupts.interruptFlag
      ensures View() == Reloaded(old(View()))
    {
      if overflowDelay > 0 {
        overflowDelay := overflowDelay - 1;
        if overflowDelay == 0 {
          tima := tma;
          interrupts.Request(TIMER_INTERRUPT);
        }
      }
    }

    method Step()
      requires interrupts.Valid()
      modifies this, interrupts.interruptFlag
      ensures View() == Stepped(old(View()))
    {
      var prevCounter := internalCounter;
      internalCounter := Wrap16(internalCounter + 1);
      CountDownReload();
      if !IsTimerEnabled() {
        return;
      }
      var bitPos := TimerBitPosition();
      var prevBit := CounterBit(prevCounter, bitPos);
      var currentBit := CounterBit(internalCounter, bitPos);
      if prevBit == 1 && currentBit == 0 {
        IncrementTimer();
      }
    }

    function Read(address: Word): Outcome<bv8>
      reads this, interrupts.interruptFlag
    {
      ReadOf(View(), address)
    }

    method HandleDivReset()
      modifies this
      ensures View() == DivReset(old(View()))
    {
      if IsTimerEnabled() {
        var bitPos := TimerBitPosition();
        if CounterBit(internalCounter, bitPos) == 1 {
          IncrementTimer();
        }
      }
      internalCounter := 0;
    }

    method Write(address: Word, v: bv8)
      modifies this
      ensures View() == Written(old(View()), address, v)
    {
      if address == DIV_ADDRESS {
        HandleDivReset();
      } else if address == TIMA_ADDRESS {
        if overflowDelay > 0 {
          overflowDelay := 0;
        }
        tima := v;
      } else if address == TMA_ADDRESS {
        if overflowDelay > 0 {
          tima := v;
        }
        tma := v;
      } else if address == TAC_ADDRESS {
        tac := v & 0x07;
      }
    }
  }
}
