/**
 * cpu.go: the fetch/decode/execute step, delayed IME enable, interrupt
 * dispatch and the stack.
 *
 * The Go CPU talks to memory through the `MmuInterface`, which the emulator
 * implements with the full MMU and the CPU tests with `MockMmu`; the model
 * runs the CPU over the flat `MockMmu`.  `getImm8` is not part of the
 * source; it is modelled as "read the byte at PC, then advance PC".
 *
 * The state a step touches is summarised by the value `CpuState`; each
 * method of the class is proved to move its `View()` exactly as a pure
 * function describes, and the properties of a step are lemmas about those
 * functions.
 */
module Cpu {
  import opened Bytes
  import opened Registers
  import opened Interrupts
  import opened MockMmu
  import opened Instructions

  const INTERRUPT_CYCLES: Word := 20
  const HALTED_CYCLES: Word := 4

  /** Everything a CPU step reads or writes, besides the 8-bit registers. */
  datatype CpuState = CpuState(
    pc: Word, sp: Word,
    ie: bv8, iff: bv8,
    ime: bool, imeDelay: bv8,
    halted: bool, haltBug: bool, branched: bool,
    mem: seq<bv8>)

  /** The memory covers the whole 16-bit address space. */
  predicate Addressable(s: CpuState)
  {
    |s.mem| == 0x10000
  }

  /** The little-endian word at `a`, its high byte at `a + 1` (wrapping). */
  function WordAt(mem: seq<bv8>, a: Word): (w: Word)
    requires |mem| == 0x10000
    ensures Lo(w) == mem[a] && Hi(w) == mem[Wrap16(a + 1)]
  {
    HiLoJoin(mem[Wrap16(a + 1)], mem[a]);
    Join(mem[Wrap16(a + 1)], mem[a])
  }

  /** The interrupts that are both enabled (IE) and requested (IF). */
  function Pending(ie: bv8, iff: bv8): (p: bv8)
    ensures p & ie == p && p & iff == p
  {
    ie & iff
  }

  /**
   * The first interrupt `k` in `i..4` whose bit is set in `pending`, or 5
   * when there is none: the loop of handleInterrupts scans bits upwards.
   */
  function FirstPendingFrom(pending: bv8, i: nat): (k: nat)
    requires i <= 5
    ensures i <= k <= 5
    ensures k < 5 ==> IsBitSet(pending, k)
    ensures forall j :: i <= j < k ==> !IsBitSet(pending, j)
    decreases 5 - i
  {
    if i == 5 then 5 else if IsBitSet(pending, i) then i else FirstPendingFrom(pending, i + 1)
  }

  /** The interrupt that is serviced for `pending`, or 5 for none. */
  function FirstPending(pending: bv8): (k: nat)
    ensures k <= 5
    ensures k < 5 ==> IsBitSet(pending, k)
    ensures forall j :: 0 <= j < k ==> !IsBitSet(pending, j)
  {
    FirstPendingFrom(pending, 0)
  }

  /** Only bits 5-7 can be pending without an interrupt being found. */
  lemma FirstPendingNone(pending: bv8)
    ensures FirstPending(pending) == 5 <==> pending & 0x1F == 0
  {
    var k := FirstPending(pending);
    if k == 5 {
      assert !IsBitSet(pending, 0) && !IsBitSet(pending, 1) && !IsBitSet(pending, 2);
      assert !IsBitSet(pending, 3) && !IsBitSet(pending, 4);
    }
  }

  /**
   * The search of handleInterrupts' loop: bits 0..4 of `pending` in turn,
   * stopping at the first one set (5 when none is).
   */
  method ScanPending(pending: bv8) returns (i: nat)
    ensures i == FirstPending(pending)
  {
    i := 0;
    while i < |INTERRUPT_SOURCES| && !IsBitSet(pending, i)
      invariant 0 <= i <= 5
      invariant FirstPendingFrom(pending, i) == FirstPending(pending)
    {
      i := i + 1;
    }
  }

  /** The IME delay after one step's countdown. */
  function DelayTicked(delay: bv8): (d: bv8)
    ensures d as int == if delay == 0 then 0 else delay as int - 1
  {
    if delay > 0 then delay - 1 else 0
  }

  /** IME after the countdown: already on, or switched on as the delay reaches 0. */
  function ImeAfterDelay(ime: bool, delay: bv8): (on: bool)
    ensures on <==> ime || (delay != 0 && DelayTicked(delay) == 0)
  {
    ime || delay == 1
  }

  /** The countdown at the head of Step. */
  function Ticked(s: CpuState): CpuState
  {
    s.(ime := ImeAfterDelay(s.ime, s.imeDelay), imeDelay := DelayTicked(s.imeDelay))
  }

  /** Push16: SP drops by 2 (wrapping) and `v` is stored there, low byte first. */
  function Pushed(s: CpuState, v: Word): (t: CpuState)
    requires Addressable(s)
    ensures Addressable(t) && t.sp == Wrap16(s.sp - 2) && WordAt(t.mem, t.sp) == v
    ensures t == s.(sp := t.sp, mem := t.mem)
    ensures forall a: Word :: a != t.sp && a != Wrap16(t.sp + 1) ==> t.mem[a] == s.mem[a]
  {
    var sp := Wrap16(s.sp - 2);
    var t := s.(sp := sp, mem := s.mem[sp := Lo(v)][Wrap16(sp + 1) := Hi(v)]);
    SameHalves(WordAt(t.mem, sp), v);
    t
  }

  /** Pop16: the word at SP, and SP raised by 2 (wrapping). */
  function Popped(s: CpuState): (CpuState, Word)
    requires Addressable(s)
  {
    (s.(sp := Wrap16(s.sp + 2)), WordAt(s.mem, s.sp))
  }

  /** Popping right after a push returns the pushed word and restores SP. */
  lemma PopAfterPush(s: CpuState, v: Word)
    requires Addressable(s)
    ensures Popped(Pushed(s, v)).1 == v
    ensures Popped(Pushed(s, v)).0.sp == s.sp
  {
    var t := Pushed(s, v);
    assert Wrap16(Wrap16(s.sp - 2) + 2) == s.sp;
  }

  /** The body of handleInterrupts' loop for interrupt `k`. */
  function Serviced(s: CpuState, k: nat): (t: CpuState)
    requires Addressable(s) && k < 5
  {
    Pushed(s, s.pc).(iff := Cleared(s.iff, k as bv8), ime := false, pc := INTERRUPT_SOURCES[k])
  }

  /** handleInterrupts: the new state, and whether an interrupt was serviced. */
  function Handled(s: CpuState): (r: (CpuState, bool))
    requires Addressable(s)
    ensures Addressable(r.0)
  {
    var pending := Pending(s.ie, s.iff);
    if pending == 0 then (s, false)
    else if !s.ime then (s.(halted := false), false)
    else
      var k := FirstPending(pending);
      if k == 5 then (s.(halted := false), false)
      else (Serviced(s.(halted := false), k), true)
  }

  /**
   * What handleInterrupts promises: anything pending wakes the CPU from
   * HALT; with IME on, the lowest pending interrupt among the five is
   * serviced: its IF bit alone is cleared, IME goes off, the old PC is on
   * the stack and PC is at the interrupt's vector.  Otherwise only `halted`
   * may change.
   */
  lemma HandledSpec(s: CpuState)
    requires Addressable(s)
    ensures var (t, serviced) := Handled(s);
      var pending := Pending(s.ie, s.iff);
      var k := FirstPending(pending);
      && Addressable(t)
      && t.halted == (s.halted && pending == 0)
      && (serviced <==> pending != 0 && s.ime && pending & 0x1F != 0)
      && (serviced ==>
            && k < 5
            && (forall j :: 0 <= j < k ==> !IsBitSet(pending, j))
            && !IsBitSet(t.iff, k) && t.iff & !BitMask(k as bv8) == s.iff & !BitMask(k as bv8)
            && !t.ime && t.pc == 0x40 + 8 * k
            && t.sp == Wrap16(s.sp - 2) && WordAt(t.mem, t.sp) == s.pc
            && t.ie == s.ie && t.imeDelay == s.imeDelay && t.haltBug == s.haltBug)
      && (!serviced ==> t == s.(halted := t.halted))
  {
    var pending := Pending(s.ie, s.iff);
    FirstPendingNone(pending);
    var k := FirstPending(pending);
    if pending != 0 && s.ime && k < 5 {
      InterruptSourceVectors(k);
      assert k as bv8 < 8 && (k as bv8) as nat == k;
    }
  }

  /** Where PC points after the opcode fetch: the halt bug leaves it where it was. */
  function AfterFetch(pc: Word, haltBug: bool): Word
  {
    if haltBug then pc else Wrap16(pc + 1)
  }

  /** fetch: the opcode at PC, and the state with PC advanced unless the halt bug is pending, which is cleared. */
  function Fetched(s: CpuState): (CpuState, bv8)
    requires Addressable(s)
  {
    (s.(pc := AfterFetch(s.pc, s.haltBug), haltBug := false), s.mem[s.pc])
  }

  /**
   * decode: 0xCB selects the CB table by the byte that follows (read at PC,
   * which then advances); every other opcode indexes INSTRUCTIONS, which has
   * no entries for 0xFE and 0xFF.  The result pairs the instruction with the
   * new PC.
   */
  function Decoded(opcode: bv8, next: bv8, pc: Word): (r: Outcome<(Instruction, Word)>)
    ensures r.Ok? <==> opcode == 0xCB || opcode < 0xFE
    ensures opcode == 0xCB ==> r.value.0.opcode == next && r.value.1 == Wrap16(pc + 1)
    ensures opcode != 0xCB && r.Ok? ==> r.value.1 == pc
  {
    if opcode == 0xCB then
      Ok((Prefixed(next), Wrap16(pc + 1)))
    else
      match Unprefixed(opcode)
      case Ok(instr) => Ok((instr, pc))
      case Fatal => Fatal
  }

  /** decode over a state: PC moves past a CB operand. */
  function DecodedIn(s: CpuState, opcode: bv8): (CpuState, Outcome<Instruction>)
    requires Addressable(s)
  {
    match Decoded(opcode, s.mem[s.pc], s.pc)
    case Ok((instr, pc)) => (s.(pc := pc), Ok(instr))
    case Fatal => (s, Fatal)
  }

  /**
   * execute: `branched` is cleared and the handler runs.  The invalid
   * handler stops the emulator; every other handler is empty, so `branched`
   * stays false and the normal cost is reported.
   */
  function Executed(s: CpuState, instr: Instruction): (r: (CpuState, Outcome<Word>))
    ensures r.0 == s.(branched := false)
    ensures r.1.Ok? <==> instr.execute != Invalid
    ensures r.1.Ok? ==> r.1.value == instr.cycles.cycles as int
  {
    var t := s.(branched := false);
    if instr.execute == Invalid then (t, Fatal)
    else (t, Ok(instr.cycles.cycles as int))
  }

  /** The tail of Step: fetch, decode and execute one instruction. */
  function Ran(s: CpuState): (r: (CpuState, Outcome<Word>))
    requires Addressable(s)
    ensures r.0 == s.(pc := r.0.pc, haltBug := false, branched := r.0.branched)
  {
    var (s3, opcode) := Fetched(s);
    var (s4, instr) := DecodedIn(s3, opcode);
    if instr.Fatal? then (s4, Fatal) else Executed(s4, instr.value)
  }

  /** A CB opcode runs the CB_INSTRUCTIONS entry named by the next byte and leaves PC past that byte. */
  lemma RanPrefixed(s: CpuState)
    requires Addressable(s) && s.mem[s.pc] == 0xCB
    ensures var pc1 := AfterFetch(s.pc, s.haltBug);
      var instr := Prefixed(s.mem[pc1]);
      && instr.opcode == s.mem[pc1]
      && Ran(s).0.pc == Wrap16(pc1 + 1)
      && Ran(s).1 == Ok(instr.cycles.cycles as int)
  {
    PrefixedEntry(s.mem[AfterFetch(s.pc, s.haltBug)]);
  }

  /**
   * Any other opcode below 0xFE runs its INSTRUCTIONS entry and leaves PC
   * just past the opcode (not even that with the halt bug); the invalid
   * entries stop the emulator.
   */
  lemma RanUnprefixed(s: CpuState)
    requires Addressable(s) && s.mem[s.pc] != 0xCB && s.mem[s.pc] < 0xFE
    ensures var instr := Unprefixed(s.mem[s.pc]).value;
      && Ran(s).0.pc == AfterFetch(s.pc, s.haltBug)
      && (Ran(s).1.Ok? <==> instr.execute != Invalid)
      && (Ran(s).1.Ok? ==> Ran(s).1.value == instr.cycles.cycles as int)
  {
  }

  /** 0xFE and 0xFF have no table entry: the emulator stops. */
  lemma RanMissingOpcode(s: CpuState)
    requires Addressable(s) && s.mem[s.pc] >= 0xFE
    ensures Ran(s).1 == Fatal
  {
  }

  /** Step: countdown, interrupts, HALT, then fetch/decode/execute. */
  function Stepped(s: CpuState): (r: (CpuState, Outcome<Word>))
    requires Addressable(s)
    ensures Addressable(r.0)
  {
    var (s2, serviced) := Handled(Ticked(s));
    if serviced then (s2, Ok(INTERRUPT_CYCLES))
    else if s2.halted then (s2, Ok(HALTED_CYCLES))
    else Ran(s2)
  }

  /** Servicing an interrupt costs 20 cycles and runs no instruction. */
  lemma StepServicesInterrupt(s: CpuState)
    requires Addressable(s)
    requires Ticked(s).ime && Pending(s.ie, s.iff) & 0x1F != 0
    ensures var (t, cycles) := Stepped(s);
      var k := FirstPending(Pending(s.ie, s.iff));
      && cycles == Ok(INTERRUPT_CYCLES) && k < 5
      && t.pc == 0x40 + 8 * k && !t.ime && !t.halted
      && t.sp == Wrap16(s.sp - 2) && WordAt(t.mem, t.sp) == s.pc
      && !IsBitSet(t.iff, k)
  {
    HandledSpec(Ticked(s));
  }

  /** A halted CPU with nothing pending idles for 4 cycles: PC, SP, memory and IF stay put. */
  lemma StepWhileHalted(s: CpuState)
    requires Addressable(s) && s.halted && Pending(s.ie, s.iff) == 0
    ensures var (t, cycles) := Stepped(s);
      && cycles == Ok(HALTED_CYCLES) && t.halted
      && t.pc == s.pc && t.sp == s.sp && t.mem == s.mem && t.iff == s.iff
      && t.imeDelay == DelayTicked(s.imeDelay)
  {
  }

  /**
   * A pending interrupt wakes a halted CPU even with IME off; it then runs
   * the instruction at PC instead of servicing the interrupt.
   */
  lemma StepWakesFromHalt(s: CpuState)
    requires Addressable(s) && s.halted && Pending(s.ie, s.iff) != 0 && !Ticked(s).ime
    ensures Stepped(s) == Ran(Ticked(s).(halted := false))
  {
    HandledSpec(Ticked(s));
  }

  /** Without an interrupt to service or a HALT, a step runs the instruction at PC. */
  lemma StepRunsInstruction(s: CpuState)
    requires Addressable(s) && !s.halted
    requires !(Ticked(s).ime && Pending(s.ie, s.iff) & 0x1F != 0)
    ensures Stepped(s) == Ran(Ticked(s))
  {
    HandledSpec(Ticked(s));
  }

  /**
   * With the halt bug pending, a one-byte opcode leaves PC where it was, so
   * the same byte is fetched again by the next step; the bug is then gone.
   */
  lemma HaltBugRefetches(s: CpuState)
    requires Addressable(s) && !s.halted && s.haltBug
    requires !(Ticked(s).ime && Pending(s.ie, s.iff) & 0x1F != 0)
    requires s.mem[s.pc] != 0xCB && s.mem[s.pc] < 0xFE
    ensures Stepped(s).0.pc == s.pc && !Stepped(s).0.haltBug
  {
    StepRunsInstruction(s);
    RanUnprefixed(Ticked(s));
  }

  /** Two 8-bit register writes in a row, high half first. */
  method WriteHalves(hi: Register8, lo: Register8, vh: bv8, vl: bv8)
    requires hi != lo && !hi.isFlag
    modifies hi, lo
    ensures hi.val == vh
    ensures lo.val == (if lo.isFlag then vl & 0xF0 else vl)
  {
    hi.Write(vh);
    lo.Write(vl);
  }

  class Cpu {
    const reg: Registers
    const mmu: MockMmu
    const interrupts: Interrupts

    var branched: bool
    var halted: bool
    var haltBug: bool
    var ime: bool
    var imeDelay: bv8

    predicate Valid()
    {
      reg.Valid() && mmu.Valid() && interrupts.Valid()
    }

    /** The part of the machine a step reads and writes. */
    function View(): (s: CpuState)
      reads this, reg.pc, reg.sp, interrupts.interruptEnable, interrupts.interruptFlag, mmu.ram.data
      requires Valid()
      ensures Addressable(s)
    {
      CpuState(reg.pc.val, reg.sp.val, interrupts.IE(), interrupts.IF(), ime, imeDelay,
               halted, haltBug, branched, mmu.ram.data[..])
    }

    /** NewCPU: fresh registers, IME on, nothing halted. */
    constructor (mmu: MockMmu, interrupts: Interrupts)
      requires mmu.Valid() && interrupts.Valid()
      ensures Valid() && this.mmu == mmu && this.interrupts == interrupts && fresh(reg)
      ensures !branched && !halted && !haltBug && ime && imeDelay == 0
      ensures reg.pc.val == 0 && reg.sp.val == 0
    {
      reg := new Registers();
      this.mmu := mmu;
      this.interrupts := interrupts;
      branched, halted, haltBug, ime, imeDelay := false, false, false, true, 0;
    }

    method Push16(v: Word)
      requires Valid()
      modifies reg.sp, mmu.ram.data
      ensures View() == Pushed(old(View()), v)
    {
      var sp := Wrap16(reg.sp.Read() as int - 2);
      mmu.WriteWord(sp, v);
      reg.sp.Write(sp);
    }

    method Pop16() returns (v: Word)
      requires Valid()
      modifies reg.sp
      ensures (View(), v) == Popped(old(View()))
    {
      var sp: int := reg.sp.Read();
      v := mmu.ReadWord(sp);
      reg.sp.Write(Wrap16(sp + 2));
    }

    /** The body of the dispatch loop, for interrupt `i`. */
    method Service(i: nat)
      requires Valid() && i < 5
      modifies this, reg.sp, reg.pc, mmu.ram.data, interrupts.interruptFlag
      ensures View() == Serviced(old(View()), i)
    {
      interrupts.Clear(i as bv8);
      ime := false;
      Push16(reg.pc.Read());
      reg.pc.Write(INTERRUPT_SOURCES[i]);
    }

    method HandleInterrupts() returns (serviced: bool)
      requires Valid()
      modifies this, reg.sp, reg.pc, mmu.ram.data, interrupts.interruptFlag
      ensures (View(), serviced) == Handled(old(View()))
    {
      var ie := interrupts.IE();
      var iff := interrupts.IF();
      var pending := Pending(ie, iff);
      if pending == 0 {
        return false;
      }
      halted := false;
      if !ime {
        return false;
      }
      var i := ScanPending(pending);
      if i == |INTERRUPT_SOURCES| {
        return false;
      }
      Service(i);
      return true;
    }

    method Fetch() returns (opcode: bv8)
      requires Valid()
      modifies this, reg.pc
      ensures (View(), opcode) == Fetched(old(View()))
    {
      opcode := mmu.Read(reg.pc.Read());
      if haltBug {
        haltBug := false;
      } else {
        var _ := reg.pc.Increment();
      }
    }

    /** decode, with `getImm8` reading the CB operand at PC and advancing PC. */
    method Decode(opcode: bv8) returns (r: Outcome<Instruction>)
      requires Valid()
      modifies reg.pc
      ensures (View(), r) == DecodedIn(old(View()), opcode)
    {
      if opcode == 0xCB {
        var addr := mmu.Read(reg.pc.Read());
        var _ := reg.pc.Increment();
        r := Ok(Prefixed(addr));
      } else {
        r := Unprefixed(opcode);
      }
    }

    method Execute(instr: Instruction) returns (r: Outcome<Word>)
      requires Valid()
      modifies this
      ensures (View(), r) == Executed(old(View()), instr)
    {
      branched := false;
      if instr.execute == Invalid {
        return Fatal;
      }
      r := Ok(instr.cycles.cycles as int);
    }

    /** The head of Step: the delay of an EI runs down, and IME comes on as it reaches 0. */
    method CountDown()
      requires Valid()
      modifies this
      ensures View() == Ticked(old(View()))
    {
      if imeDelay > 0 {
        imeDelay := imeDelay - 1;
        if imeDelay == 0 {
          ime := true;
        }
      }
    }

    method Step() returns (cycles: Outcome<Word>)
      requires Valid()
      modifies this, reg.sp, reg.pc, mmu.ram.data, interrupts.interruptFlag
      ensures (View(), cycles) == Stepped(old(View()))
    {
      CountDown();
      var serviced := HandleInterrupts();
      if serviced {
        return Ok(INTERRUPT_CYCLES);
      }
      if halted {
        return Ok(HALTED_CYCLES);
      }
      cycles := Run();
    }

    /** The fetch/decode/execute tail of Step. */
    method Run() returns (cycles: Outcome<Word>)
      requires Valid()
      modifies this, reg.pc
      ensures (View(), cycles) == Ran(old(View()))
    {
      var opcode := Fetch();
      var instruction := Decode(opcode);
      if instruction.Fatal? {
        return Fatal;
      }
      cycles := Execute(instruction.value);
    }

    /** SkipBootROM: the register values the DMG boot ROM leaves behind, and the overlay switched off. */
    method SkipBootRom()
      requires Valid()
      modifies reg.Bytes(), reg.sp, reg.pc, mmu
      ensures reg.a.val == 0x01 && reg.f.val == 0xB0
      ensures reg.b.val == 0x00 && reg.c.val == 0x13
      ensures reg.d.val == 0x00 && reg.e.val == 0xD8
      ensures reg.h.val == 0x01 && reg.l.val == 0x4D
      ensures reg.sp.val == 0xFFFE && reg.pc.val == 0x0100
      ensures !mmu.bootROMEnabled
    {
      WriteHalves(reg.a, reg.f, 0x01, 0xB0);
      WriteHalves(reg.b, reg.c, 0x00, 0x13);
      WriteHalves(reg.d, reg.e, 0x00, 0xD8);
      WriteHalves(reg.h, reg.l, 0x01, 0x4D);
      reg.sp.Write(0xFFFE);
      reg.pc.Write(0x0100);
      mmu.SetBootRomEnabled(false);
    }
  }
}
