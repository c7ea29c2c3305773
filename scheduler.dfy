/**
 * scheduler.go and scheduler/scheduler.go (the same logic in both layouts):
 * one `Step` runs the CPU for one instruction (or one interrupt dispatch or
 * one halted tick), then the timer, then the PPU, and returns the CPU's
 * cycle count.
 *
 * The scheduler hands that count to `Timer.Step` and `PPU.Step`, but the
 * Step methods of the timer and PPU models take no argument: each call
 * advances its component by one step.  Step also returns, as a ghost
 * value, the calls it made in order with the count each one was handed.
 * The three components share one interrupt controller, so a request made by
 * one is seen by the next.
 */
module Scheduler {
  import opened Bytes
  import opened Interrupts
  import C = Cpu
  import T = Timer
  import P = Ppu
  import PpuRender

  /** One call the scheduler makes, with the cycle count it hands over. */
  datatype Call = CpuStep | TimerStep(cycles: Word) | PpuStep(cycles: Word)

  /** The state of the three components a step moves. */
  datatype Machine = Machine(cpu: C.CpuState, timer: T.TimerState, ppu: P.PpuState)

  /** The three components see the one IF register. */
  predicate Consistent(m: Machine)
  {
    C.Addressable(m.cpu) && m.timer.iff == m.cpu.iff && m.ppu.iff == m.cpu.iff
  }

  /** The CPU's step; the timer and the PPU see the IF it leaves. */
  function CpuPhase(m: Machine): (r: (Machine, Outcome<Word>))
    requires Consistent(m)
    ensures Consistent(r.0)
  {
    var r := C.Stepped(m.cpu);
    (Machine(r.0, m.timer.(iff := r.0.iff), m.ppu.(iff := r.0.iff)), r.1)
  }

  /** The timer's step; the CPU and the PPU see the IF it leaves. */
  function TimerPhase(m: Machine): (r: Machine)
    requires Consistent(m)
    ensures Consistent(r)
  {
    var timer := T.Stepped(m.timer);
    Machine(m.cpu.(iff := timer.iff), timer, m.ppu.(iff := timer.iff))
  }

  /** The PPU's step; the CPU and the timer see the IF it leaves. */
  function PpuPhase(m: Machine): (r: Machine)
    requires Consistent(m)
    ensures Consistent(r)
  {
    var ppu := P.Stepped(m.ppu);
    Machine(m.cpu.(iff := ppu.iff), m.timer.(iff := ppu.iff), ppu)
  }

  /**
   * `Step`: the machine afterwards, the value returned and the calls made.
   * An unknown opcode stops the emulator inside the CPU's step, before the
   * timer and the PPU run.
   */
  function Stepped(m: Machine): (r: (Machine, Outcome<Word>, seq<Call>))
    requires Consistent(m)
    ensures Consistent(r.0)
  {
    var afterCpu := CpuPhase(m);
    if afterCpu.1.Fatal? then (afterCpu.0, Fatal, [CpuStep])
    else
      var cycles := afterCpu.1.value;
      (PpuPhase(TimerPhase(afterCpu.0)), Ok(cycles), [CpuStep] + [TimerStep(cycles)] + [PpuStep(cycles)])
  }

  /**
   * Step returns what the CPU's step returned; the CPU runs first, then the
   * timer and then the PPU, each once and each with that cycle count.
   */
  lemma StepSequence(m: Machine)
    requires Consistent(m)
    ensures var (_, cycles, calls) := Stepped(m);
      && cycles == C.Stepped(m.cpu).1
      && calls[0] == CpuStep
      && (cycles.Fatal? ==> |calls| == 1)
      && (cycles.Ok? ==> |calls| == 3 && calls[1] == TimerStep(cycles.value) && calls[2] == PpuStep(cycles.value))
  {
  }

  /**
   * Whatever the cycle count, the timer moves exactly one step: its counter
   * advances by one, and TMA and TAC stay.
   */
  lemma TimerOneStep(m: Machine)
    requires Consistent(m) && Stepped(m).1.Ok?
    ensures Stepped(m).0.timer.counter == Wrap16(m.timer.counter + 1)
    ensures Stepped(m).0.timer.tma == m.timer.tma && Stepped(m).0.timer.tac == m.timer.tac
  {
  }

  /**
   * No interrupt request is lost in a step: every IF bit set after the
   * CPU's part is still set at the end, the timer adds at most its own bit
   * and the PPU at most V-blank and LCD.
   */
  lemma RequestsSurvive(m: Machine)
    requires Consistent(m) && Stepped(m).1.Ok?
    ensures var after := C.Stepped(m.cpu).0.iff;
      var final := Stepped(m).0.cpu.iff;
      && Kept(after, final)
      && final & 0xF8 == after & 0xF8
  {
    var m1 := CpuPhase(m).0;
    assert Stepped(m).0 == PpuPhase(TimerPhase(m1));
    PhasesKeepRequests(m1);
  }

  /** The timer's phase and then the PPU's keep every request and set no bit from 3 to 7. */
  lemma PhasesKeepRequests(m: Machine)
    requires Consistent(m)
    ensures var final := PpuPhase(TimerPhase(m)).cpu.iff;
      Kept(m.cpu.iff, final) && final & 0xF8 == m.cpu.iff & 0xF8
  {
    var m2 := TimerPhase(m);
    T.StepKeepsRequests(m.timer);
    P.StepKeepsRequests(m2.ppu);
    RequestsCompose(m.cpu.iff, m2.cpu.iff, PpuPhase(m2).cpu.iff);
  }

  /** A timer-only change followed by a PPU-only change keeps every request and bits 3-7. */
  lemma RequestsCompose(a: bv8, b: bv8, c: bv8)
    requires Kept(a, b) && b & !BitMask(TIMER_INTERRUPT) == a & !BitMask(TIMER_INTERRUPT)
    requires P.OnlyPpuRequests(b, c)
    ensures Kept(a, c) && c & 0xF8 == a & 0xF8
  {
    assert BitMask(TIMER_INTERRUPT) == 0x04;
  }

  class Scheduler {
    const cpu: C.Cpu
    const ppu: P.Ppu
    const timer: T.Timer

    predicate Valid()
      reads ppu
    {
      && cpu.Valid() && ppu.Valid()
      && timer.interrupts == cpu.interrupts && ppu.interrupts == cpu.interrupts
      && cpu.mmu.ram.data !in ppu.framebuffer
    }

    function View(): (m: Machine)
      reads cpu, cpu.reg.pc, cpu.reg.sp, cpu.interrupts.interruptEnable, cpu.interrupts.interruptFlag
      reads cpu.mmu.ram.data, timer, ppu
      requires Valid()
      ensures Consistent(m)
    {
      Machine(cpu.View(), timer.View(), ppu.View())
    }

    /** `NewScheduler`: the three components, sharing one interrupt controller. */
    constructor (cpu: C.Cpu, ppu: P.Ppu, timer: T.Timer)
      requires cpu.Valid() && ppu.Valid()
      requires timer.interrupts == cpu.interrupts && ppu.interrupts == cpu.interrupts
      requires cpu.mmu.ram.data !in ppu.framebuffer
      ensures Valid() && this.cpu == cpu && this.ppu == ppu && this.timer == timer
    {
      this.cpu := cpu;
      this.ppu := ppu;
      this.timer := timer;
    }

    /**
     * `Step`: the CPU, the timer and the PPU, in that order; `cycles` is the
     * CPU's count and `calls` the calls made, in order.  When the PPU step
     * ends VRAM mode on a visible line, that framebuffer row holds the line
     * as it stood before the step; no other row changes.
     */
    method Step() returns (cycles: Outcome<Word>, ghost calls: seq<Call>)
      requires Valid()
      modifies cpu, cpu.reg.sp, cpu.reg.pc, cpu.mmu.ram.data, cpu.interrupts.interruptFlag
      modifies timer, ppu, ppu.framebuffer
      ensures Valid()
      ensures View() == Stepped(old(View())).0 && cycles == Stepped(old(View())).1
      ensures calls == Stepped(old(View())).2
      ensures cycles.Ok? && P.Renders(old(ppu.View())) && (old(ppu.ly) as int) < PpuRender.SCREEN_HEIGHT
        ==> ppu.RowRendered(old(ppu.ly) as int, old(ppu.CurrentLine()))
      ensures ppu.OtherRowsUnchanged(if cycles.Ok? && P.Renders(old(ppu.View())) then old(ppu.ly) as int else -1)
    {
      ghost var m0 := View();
      cycles := StepCpu();
      calls := [CpuStep];
      if cycles.Fatal? {
        return;
      }
      ghost var m1 := View();
      StepLater();
      assert View() == PpuPhase(TimerPhase(m1)) == Stepped(m0).0;
      calls := calls + [TimerStep(cycles.value)] + [PpuStep(cycles.value)];
    }

    /** The timer's step and then the PPU's, after the CPU's. */
    method StepLater()
      requires Valid()
      modifies timer, ppu, ppu.framebuffer, cpu.interrupts.interruptFlag
      ensures Valid() && View() == PpuPhase(TimerPhase(old(View())))
      ensures P.Renders(old(ppu.View())) && (old(ppu.ly) as int) < PpuRender.SCREEN_HEIGHT
        ==> ppu.RowRendered(old(ppu.ly) as int, old(ppu.CurrentLine()))
      ensures ppu.OtherRowsUnchanged(if P.Renders(old(ppu.View())) then old(ppu.ly) as int else -1)
    {
      ghost var renders := P.Renders(ppu.View());
      ghost var line := ppu.CurrentLine();
      StepTimer();
      assert P.Renders(ppu.View()) == renders && ppu.CurrentLine() == line;
      StepPpu();
    }

    method StepCpu() returns (cycles: Outcome<Word>)
      requires Valid()
      modifies cpu, cpu.reg.sp, cpu.reg.pc, cpu.mmu.ram.data, cpu.interrupts.interruptFlag
      ensures Valid() && (View(), cycles) == CpuPhase(old(View()))
      ensures P.Renders(ppu.View()) == P.Renders(old(ppu.View())) && ppu.CurrentLine() == old(ppu.CurrentLine())
      ensures ppu.OtherRowsUnchanged(-1)
    {
      cycles := cpu.Step();
    }

    method StepTimer()
      requires Valid()
      modifies timer, cpu.interrupts.interruptFlag
      ensures Valid() && View() == TimerPhase(old(View()))
    {
      timer.Step();
    }

    method StepPpu()
      requires Valid()
      modifies ppu, ppu.framebuffer, cpu.interrupts.interruptFlag
      ensures Valid() && View() == PpuPhase(old(View()))
      ensures P.Renders(old(ppu.View())) && (old(ppu.ly) as int) < PpuRender.SCREEN_HEIGHT
        ==> ppu.RowRendered(old(ppu.ly) as int, old(ppu.CurrentLine()))
      ensures ppu.OtherRowsUnchanged(if P.Renders(old(ppu.View())) then old(ppu.ly) as int else -1)
    {
      ppu.Step();
    }
  }
}
