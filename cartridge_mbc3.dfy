/**
 * cartridge/mbc3.go: the MBC3 controller of the package layout, with a
 * real-time clock.  The RAM bank register holds any byte: 0-3 select RAM,
 * 0x08-0x0C a clock register.  The clock counts from a base time; Go reads
 * it with `time.Now`/`time.Since`, which here become a `now` argument in
 * whole seconds on a clock that never runs backwards.
 */
module CartridgeMbc3 {
  import opened Bytes
  import opened Mbc

  const ROM_BANK1: Word := 0x4000
  const ROM_BANK_START: Word := 0x2000
  const RAM_BANK_START: Word := 0x4000
  const LATCH_START: Word := 0x6000
  const VRAM: Word := 0x8000
  const EXTERNAL_RAM: Word := 0xA000
  const WRAM: Word := 0xC000

  /** Index of the days-high clock register, which also holds the halt flag (bit 6). */
  const DAYS_HIGH: bv8 := 4

  const SECONDS_PER_DAY: nat := 86400

  datatype Banks = Banks(romBank: bv8, ramBank: bv8, ramEnabled: bool)

  /**
   * The clock: the live registers, the latched copy the game reads, the last
   * byte written to the latch area, the base time and the halt flag.
   */
  datatype Clock = Clock(regs: seq<bv8>, latch: seq<bv8>, latchData: bv8, baseTime: int, halt: bool)

  datatype Mbc3State = Mbc3State(
    rom: seq<bv8>, hasRam: bool, hasTimer: bool, banks: Banks, clock: Clock, ram: seq<bv8>)

  predicate Inv(s: Mbc3State)
  {
    |s.clock.regs| == 5 && |s.clock.latch| == 5
  }

  predicate RtcSelected(bank: bv8)
  {
    0x08 <= bank <= 0x0C
  }

  /** The RAM offset of an external RAM address in bank `bank`. */
  function RamOffset(bank: bv8, address: Word): int
    requires EXTERNAL_RAM <= address
  {
    bank as int * RAM_BANK_SIZE + (address - EXTERNAL_RAM)
  }

  /** Go's `byte(x)` for a value that fits. */
  function Byte(x: int): (b: bv8)
    requires 0 <= x < 0x100
    ensures b as int == x
  {
    ByteValue(x);
    x as bv8
  }

  /** The days-high register of a running clock: bit 0 is bit 8 of the day count, bit 7 the carry past 511 days. */
  function DaysHigh(days: nat): bv8
  {
    Byte((days / 256) % 2) | (if days > 511 then 0x80 else 0)
  }

  /** The clock registers for `total` elapsed seconds, as a latch that is not halted stores them. */
  function LatchedClock(total: nat): (c: seq<bv8>)
    ensures |c| == 5
  {
    var days := total / SECONDS_PER_DAY;
    [Byte(total % 60), Byte((total / 60) % 60), Byte((total / 3600) % 24), Byte(days % 256), DaysHigh(days)]
  }

  /** `latchRTC`: a halted clock latches its registers verbatim, a running one the elapsed time. */
  function Latched(c: Clock, now: int): (r: Clock)
    requires c.baseTime <= now
  {
    if c.halt then c.(latch := c.regs)
    else c.(latch := LatchedClock(now - c.baseTime))
  }

  /** `writeRTC`: store the byte; the days-high register also sets the halt flag and, when clear, restarts the base time. */
  function RtcWritten(c: Clock, reg: bv8, v: bv8, now: int): (r: Clock)
    requires |c.regs| == 5 && reg < 5
  {
    var stored := c.(regs := c.regs[reg := v]);
    if reg == DAYS_HIGH then
      var halt := v & 0x40 != 0;
      if halt then stored.(halt := true) else stored.(halt := false, baseTime := now)
    else stored
  }

  /** Read; only the unchecked index into ROM bank 0 can panic. */
  function ReadOf(s: Mbc3State, address: Word): (r: Outcome<bv8>)
    requires Inv(s)
    ensures r.Fatal? <==> address < ROM_BANK1 && address >= |s.rom|
  {
    if address < ROM_BANK1 then
      if address < |s.rom| then Ok(s.rom[address]) else Fatal
    else if address < VRAM then
      var offset := s.banks.romBank as int * ROM_BANK_SIZE + (address - ROM_BANK1);
      if offset < |s.rom| then Ok(s.rom[offset]) else Ok(0xFF)
    else if EXTERNAL_RAM <= address < WRAM then
      if !s.banks.ramEnabled then Ok(0xFF)
      else if s.banks.ramBank <= 0x03 then
        if !s.hasRam then Ok(0xFF)
        else
          var offset := RamOffset(s.banks.ramBank, address);
          if offset < |s.ram| then Ok(s.ram[offset]) else Ok(0xFF)
      else if RtcSelected(s.banks.ramBank) && s.hasTimer then Ok(s.clock.latch[s.banks.ramBank - 0x08])
      else Ok(0xFF)
    else Ok(0xFF)
  }

  /** Write, with the clock reading `now` for a latch or a restart of the clock. */
  function Written(s: Mbc3State, address: Word, v: bv8, now: int): (r: Mbc3State)
    requires Inv(s) && s.clock.baseTime <= now
    ensures Inv(r) && r.clock.baseTime <= now
    ensures r.rom == s.rom && r.hasRam == s.hasRam && r.hasTimer == s.hasTimer && |r.ram| == |s.ram|
  {
    if address < ROM_BANK_START then s.(banks := s.banks.(ramEnabled := v & 0x0F == 0x0A))
    else if address < RAM_BANK_START then
      var bank := v & 0x7F;
      s.(banks := s.banks.(romBank := if bank == 0 then 1 else bank))
    else if address < LATCH_START then s.(banks := s.banks.(ramBank := v))
    else if address < VRAM then
      if s.hasTimer then
        var c := if s.clock.latchData == 0x00 && v == 0x01 then Latched(s.clock, now) else s.clock;
        s.(clock := c.(latchData := v))
      else s
    else if EXTERNAL_RAM <= address < WRAM then
      if !s.banks.ramEnabled then s
      else if s.banks.ramBank <= 0x03 then
        if s.hasRam && RamOffset(s.banks.ramBank, address) < |s.ram| then
          s.(ram := s.ram[RamOffset(s.banks.ramBank, address) := v])
        else s
      else if RtcSelected(s.banks.ramBank) && s.hasTimer then
        s.(clock := RtcWritten(s.clock, s.banks.ramBank - 0x08, v, now))
      else s
    else s
  }

  /** The ROM bank takes the low seven bits, 0 read as 1, with no check against the image size. */
  lemma RomBankWrite(s: Mbc3State, address: Word, v: bv8, now: int)
    requires Inv(s) && s.clock.baseTime <= now && ROM_BANK_START <= address < RAM_BANK_START
    ensures Written(s, address, v, now) == s.(banks := s.banks.(romBank := if v & 0x7F == 0 then 1 else v & 0x7F))
  {
  }

  /** A switchable-window offset past the image reads 0xFF. */
  lemma RomPastImage(s: Mbc3State, address: Word)
    requires Inv(s) && ROM_BANK1 <= address < VRAM
    requires s.banks.romBank as int * ROM_BANK_SIZE + (address - ROM_BANK1) >= |s.rom|
    ensures ReadOf(s, address) == Ok(0xFF)
  {
  }

  /** The RAM bank register stores any byte; banks other than 0-3 and 0x08-0x0C read 0xFF and ignore writes. */
  lemma RamBankWrite(s: Mbc3State, address: Word, v: bv8, now: int)
    requires Inv(s) && s.clock.baseTime <= now && RAM_BANK_START <= address < LATCH_START
    ensures Written(s, address, v, now) == s.(banks := s.banks.(ramBank := v))
  {
  }

  lemma UnmappedBank(s: Mbc3State, address: Word, v: bv8, now: int)
    requires Inv(s) && s.clock.baseTime <= now && EXTERNAL_RAM <= address < WRAM
    requires 3 < s.banks.ramBank && !RtcSelected(s.banks.ramBank)
    ensures ReadOf(s, address) == Ok(0xFF) && Written(s, address, v, now) == s
  {
  }

  /** RAM banks need RAM on the cartridge, clock registers need the timer. */
  lemma MissingHardware(s: Mbc3State, address: Word, v: bv8, now: int)
    requires Inv(s) && s.clock.baseTime <= now && EXTERNAL_RAM <= address < WRAM
    requires (s.banks.ramBank <= 3 && !s.hasRam) || (RtcSelected(s.banks.ramBank) && !s.hasTimer)
    ensures ReadOf(s, address) == Ok(0xFF) && Written(s, address, v, now) == s
  {
  }

  /** With RAM disabled the window reads 0xFF and ignores writes. */
  lemma RamDisabled(s: Mbc3State, address: Word, v: bv8, now: int)
    requires Inv(s) && s.clock.baseTime <= now && EXTERNAL_RAM <= address < WRAM && !s.banks.ramEnabled
    ensures ReadOf(s, address) == Ok(0xFF) && Written(s, address, v, now) == s
  {
  }

  /**
   * A write to the latch area latches the clock exactly when the cartridge
   * has a timer, the previous latch byte was 0x00 and this one is 0x01; with
   * a timer the byte is always recorded.
   */
  lemma LatchWrite(s: Mbc3State, address: Word, v: bv8, now: int)
    requires Inv(s) && s.clock.baseTime <= now && LATCH_START <= address < VRAM
    ensures var r := Written(s, address, v, now);
      (r.clock.latch != s.clock.latch ==> s.hasTimer && s.clock.latchData == 0x00 && v == 0x01)
      && (s.hasTimer ==> r.clock.latchData == v)
      && (s.hasTimer && s.clock.latchData == 0x00 && v == 0x01 ==> r.clock == Latched(s.clock, now).(latchData := v))
      && (!s.hasTimer ==> r == s)
  {
  }

  /** A halted clock latches its registers as written. */
  lemma HaltedLatch(c: Clock, now: int)
    requires c.baseTime <= now && c.halt
    ensures Latched(c, now).latch == c.regs
  {
  }

  /** Bit 0 of days-high is bit 8 of the day count, bit 7 says more than 511 days, the others are clear. */
  lemma {:induction false} DaysHighBits(days: nat)
    ensures (DaysHigh(days) & 0x01) as int == (days / 256) % 2
    ensures DaysHigh(days) & 0x80 != 0 <==> days > 511
    ensures DaysHigh(days) & 0x7E == 0
  {
    var low := Byte((days / 256) % 2);
    assert low == 0 || low == 1;
  }

  /**
   * The latched registers encode the elapsed time: seconds + 60 minutes +
   * 3600 hours + 86400 days (9 bits) is the total modulo 512 days, and the
   * carry bit says whether 512 days have passed.
   */
  lemma {:induction false} LatchedClockTotal(total: nat)
    ensures var c := LatchedClock(total);
      c[0] < 60 && c[1] < 60 && c[2] < 24
      && c[0] as int + 60 * c[1] as int + 3600 * c[2] as int
        + SECONDS_PER_DAY * (c[3] as int + 256 * (c[4] & 0x01) as int)
      == total % (512 * SECONDS_PER_DAY)
      && (c[4] & 0x80 != 0 <==> total >= 512 * SECONDS_PER_DAY)
  {
    var days := total / SECONDS_PER_DAY;
    DaysHighBits(days);
    TotalDecomposition(total);
  }

  /** The same decomposition on integers. */
  lemma {:induction false} TotalDecomposition(total: nat)
    ensures var days := total / SECONDS_PER_DAY;
      (total % 60) + 60 * ((total / 60) % 60) + 3600 * ((total / 3600) % 24)
        + SECONDS_PER_DAY * (days % 256 + 256 * ((days / 256) % 2))
      == total % (512 * SECONDS_PER_DAY)
      && (days > 511 <==> total >= 512 * SECONDS_PER_DAY)
  {
    var days := total / SECONDS_PER_DAY;
    var secs := total % SECONDS_PER_DAY;
    DayDecomposition(total);
    assert days % 512 == days % 256 + 256 * ((days / 256) % 2);
    ModProduct(total, days, secs);
  }

  /** The seconds within a day split into hours, minutes and seconds. */
  lemma {:induction false} DayDecomposition(total: nat)
    ensures total % SECONDS_PER_DAY == (total % 60) + 60 * ((total / 60) % 60) + 3600 * ((total / 3600) % 24)
  {
    var m := total / 60;
    var h := m / 60;
    assert total == 60 * m + total % 60;
    assert m == 60 * h + m % 60;
    assert h == total / 3600;
    assert total == 3600 * h + 60 * (m % 60) + total % 60;
    assert h == 24 * (h / 24) + h % 24;
    assert total == SECONDS_PER_DAY * (h / 24) + (3600 * (h % 24) + 60 * (m % 60) + total % 60);
    assert 0 <= 3600 * (h % 24) + 60 * (m % 60) + total % 60 < SECONDS_PER_DAY;
  }

  /** Reducing modulo 512 days keeps the seconds within the day. */
  lemma {:induction false} ModProduct(total: nat, days: nat, secs: nat)
    requires days == total / SECONDS_PER_DAY && secs == total % SECONDS_PER_DAY
    ensures total % (512 * SECONDS_PER_DAY) == (days % 512) * SECONDS_PER_DAY + secs
  {
    assert total == (days / 512) * (512 * SECONDS_PER_DAY) + ((days % 512) * SECONDS_PER_DAY + secs);
    assert 0 <= (days % 512) * SECONDS_PER_DAY + secs < 512 * SECONDS_PER_DAY;
  }

  /** writeRTC stores the byte; the days-high register sets halt from bit 6 and a clear bit 6 restarts the clock. */
  lemma RtcWrite(c: Clock, reg: bv8, v: bv8, now: int)
    requires |c.regs| == 5 && reg < 5
    ensures var r := RtcWritten(c, reg, v, now);
      r.regs == c.regs[reg := v] && r.latch == c.latch && r.latchData == c.latchData
      && (reg != DAYS_HIGH ==> r.halt == c.halt && r.baseTime == c.baseTime)
      && (reg == DAYS_HIGH ==> r.halt == (v & 0x40 != 0) && r.baseTime == (if r.halt then c.baseTime else now))
  {
  }

  class Mbc3 {
    const rom: seq<bv8>
    const ram: array<bv8>
    const hasRam: bool
    const hasTimer: bool
    var romBank: bv8
    var ramBank: bv8
    var ramEnabled: bool
    /** Declared in the source and never used. */
    var rtcSelect: bv8
    var rtcRegs: seq<bv8>
    var rtcLatch: seq<bv8>
    var rtcLatchData: bv8
    var rtcBaseTime: int
    var rtcHalt: bool

    function View(): Mbc3State
      reads this, ram
    {
      Mbc3State(rom, hasRam, hasTimer, Banks(romBank, ramBank, ramEnabled),
                Clock(rtcRegs, rtcLatch, rtcLatchData, rtcBaseTime, rtcHalt), ram[..])
    }

    predicate Valid()
      reads this
    {
      |rtcRegs| == 5 && |rtcLatch| == 5
    }

    /** `NewMBC3`, started at clock reading `now`. */
    constructor (data: seq<bv8>, header: Header, now: int)
      ensures Valid() && fresh(ram)
      ensures rom == data && romBank == 1 && ramBank == 0 && !ramEnabled
      ensures hasRam <==> header.cartType in {0x10, 0x12, 0x13}
      ensures hasTimer <==> header.cartType in {0x0F, 0x10}
      ensures ram.Length == (if hasRam then RamSize(header.ramSize) else 0)
      ensures rtcRegs == [0, 0, 0, 0, 0] && rtcLatch == [0, 0, 0, 0, 0] && rtcLatchData == 0
      ensures rtcBaseTime == now && !rtcHalt
    {
      rom := data;
      romBank, ramBank, ramEnabled := 1, 0, false;
      hasRam := header.cartType == 0x10 || header.cartType == 0x12 || header.cartType == 0x13;
      hasTimer := header.cartType == 0x0F || header.cartType == 0x10;
      rtcSelect := 0;
      rtcRegs, rtcLatch, rtcLatchData := [0, 0, 0, 0, 0], [0, 0, 0, 0, 0], 0;
      rtcBaseTime, rtcHalt := now, false;
      var size := if header.cartType == 0x10 || header.cartType == 0x12 || header.cartType == 0x13
        then RamSize(header.ramSize) else 0;
      ram := new bv8[size](_ => 0);
    }

    function Read(address: Word): Outcome<bv8>
      reads this, ram
      requires Valid()
    {
      ReadOf(View(), address)
    }

    /** Write, at clock reading `now`. */
    method Write(address: Word, v: bv8, now: int)
      requires Valid() && rtcBaseTime <= now
      modifies this, ram
      ensures Valid() && View() == Written(old(View()), address, v, now)
    {
      if address < VRAM {
        WriteControl(address, v, now);
      } else if EXTERNAL_RAM <= address < WRAM {
        WriteRam(address, v, now);
      }
    }

    /** The part of Write for the control registers below 0x8000. */
    method WriteControl(address: Word, v: bv8, now: int)
      requires Valid() && rtcBaseTime <= now && address < VRAM
      modifies this
      ensures Valid() && View() == Written(old(View()), address, v, now)
    {
      if address < ROM_BANK_START {
        ramEnabled := v & 0x0F == 0x0A;
      } else if address < RAM_BANK_START {
        var bank := v & 0x7F;
        if bank == 0 {
          bank := 1;
        }
        romBank := bank;
      } else if address < LATCH_START {
        ramBank := v;
      } else if hasTimer {
        if rtcLatchData == 0x00 && v == 0x01 {
          LatchRtc(now);
        }
        rtcLatchData := v;
      }
    }

    /** The part of Write for the RAM window 0xA000-0xBFFF. */
    method WriteRam(address: Word, v: bv8, now: int)
      requires Valid() && rtcBaseTime <= now && EXTERNAL_RAM <= address < WRAM
      modifies this, ram
      ensures Valid() && View() == Written(old(View()), address, v, now)
    {
      if !ramEnabled {
        return;
      }
      if ramBank <= 0x03 {
        if !hasRam {
          return;
        }
        var offset := RamOffset(ramBank, address);
        if offset < ram.Length {
          ram[offset] := v;
        }
      } else if RtcSelected(ramBank) && hasTimer {
        WriteRtc(ramBank - 0x08, v, now);
      }
    }

    /** `latchRTC` at clock reading `now`. */
    method LatchRtc(now: int)
      requires Valid() && rtcBaseTime <= now
      modifies this
      ensures Valid()
      ensures View() == old(View()).(clock := Latched(old(View()).clock, now))
    {
      if rtcHalt {
        rtcLatch := rtcRegs;
        return;
      }
      var totalSeconds := now - rtcBaseTime;
      var seconds := totalSeconds % 60;
      var minutes := (totalSeconds / 60) % 60;
      var hours := (totalSeconds / 3600) % 24;
      var days := totalSeconds / SECONDS_PER_DAY;
      var dayHigh := Byte((days / 256) % 2);
      var carry: bv8 := if days > 511 then 0x80 else 0;
      rtcLatch := [Byte(seconds), Byte(minutes), Byte(hours), Byte(days % 256), dayHigh | carry];
      assert rtcLatch == LatchedClock(totalSeconds);
    }

    /** `writeRTC` at clock reading `now`. */
    method WriteRtc(reg: bv8, v: bv8, now: int)
      requires Valid() && reg < 5 && rtcBaseTime <= now
      modifies this
      ensures Valid()
      ensures View() == old(View()).(clock := RtcWritten(old(View()).clock, reg, v, now))
    {
      rtcRegs := rtcRegs[reg := v];
      if reg == DAYS_HIGH {
        rtcHalt := v & 0x40 != 0;
        if !rtcHalt {
          rtcBaseTime := now;
        }
      }
    }
  }
}
