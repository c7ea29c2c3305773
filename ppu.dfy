/**
 * ppu.go: the picture processing unit.  The mode state machine, LY/LYC and
 * the register bus are specified by pure functions on `PpuState`; the class
 * `Ppu` updates its fields and its 144x160 framebuffer in place and is proved
 * against them.  What a scanline draws is specified in module `PpuRender`.
 */
module Ppu {
  import opened Bytes
  import opened PpuRender
  import opened Interrupts
  import opened Memory

  // LCD status register bits
  const LYC_INTERRUPT_BIT: bv8 := 6
  const OAM_INTERRUPT_BIT: bv8 := 5
  const VBLANK_INTERRUPT_BIT: bv8 := 4
  const HBLANK_INTERRUPT_BIT: bv8 := 3
  /** Go's `LycFlagBit` is the bit NUMBER 2, but updateLyc also uses it as the mask 2. */
  const LYC_FLAG_BIT: bv8 := 2
  const MODE_FLAG: bv8 := 0x03

  // PPU modes
  const HBLANK_MODE: bv8 := 0
  const VBLANK_MODE: bv8 := 1
  const OAM_MODE: bv8 := 2
  const VRAM_MODE: bv8 := 3

  // Timing in T-cycles
  const OAM_SCAN_CYCLES: int := 80
  const VRAM_SCAN_CYCLES: int := 172
  const HBLANK_CYCLES: int := 204
  const SCANLINE_CYCLES: int := 456

  // Register addresses
  const LCD_CONTROL_ADDRESS: Word := 0xFF40
  const LCD_STATUS_ADDRESS: Word := 0xFF41
  const SCROLL_Y_ADDRESS: Word := 0xFF42
  const SCROLL_X_ADDRESS: Word := 0xFF43
  const LY_ADDRESS: Word := 0xFF44
  const LYC_ADDRESS: Word := 0xFF45
  const BG_PALETTE_ADDRESS: Word := 0xFF47
  const OBP0_PALETTE_ADDRESS: Word := 0xFF48
  const OBP1_PALETTE_ADDRESS: Word := 0xFF49
  const WINDOW_Y_ADDRESS: Word := 0xFF4A
  const WINDOW_X_ADDRESS: Word := 0xFF4B

  /** The registers only the renderer reads: scroll, window position and palettes. */
  datatype DrawRegisters = DrawRegisters(scy: bv8, scx: bv8, wy: bv8, wx: bv8, bgp: bv8, obp0: bv8, obp1: bv8)

  /** The PPU's registers and counters, and the interrupt flag byte it requests into. */
  datatype PpuState = PpuState(
    lcdc: bv8, stat: bv8, ly: bv8, lyc: bv8, mode: bv8, cycles: int, iff: bv8, draw: DrawRegisters)

  /** The inputs of one scanline. */
  function LineOf(s: PpuState, vram: seq<bv8>, oam: seq<bv8>): (l: Line)
    requires |vram| == 0x2000 && |oam| == 0xA0
    ensures WellFormed(l)
  {
    var d := s.draw;
    Line(s.ly, s.lcdc, d.scy, d.scx, d.bgp, d.obp0, d.obp1, d.wy, d.wx, vram, oam)
  }

  /** Go's `IsBitSet` with the bit number as a byte, which keeps the solver in bitvector arithmetic. */
  predicate Bit(b: bv8, i: bv8)
    requires i < 8
  {
    (b >> i) & 1 == 1
  }

  lemma BitIsSet(b: bv8, i: bv8)
    requires i < 8
    ensures Bit(b, i) <==> IsBitSet(b, i as nat)
  {
  }

  predicate LcdEnabled(s: PpuState)
  {
    Bit(s.lcdc, 7)
  }

  /** STAT with its two mode bits replaced by `mode`. */
  function WithMode(stat: bv8, mode: bv8): (r: bv8)
    ensures mode < 4 ==> r & 0xFC == stat & 0xFC && r & MODE_FLAG == mode
  {
    (stat & !MODE_FLAG) | mode
  }

  /** enterMode */
  function EnteredMode(s: PpuState, mode: bv8): (r: PpuState)
    ensures r == s.(mode := mode, stat := r.stat, cycles := 0)
  {
    s.(mode := mode, stat := WithMode(s.stat, mode), cycles := 0)
  }

  /** IF bit 0 (V-blank) and bit 1 (LCD), as masks. */
  const VBLANK_REQUEST: bv8 := 0x01
  const LCD_REQUEST: bv8 := 0x02

  /** `Interrupts.Request` on the IF byte, with the interrupt given by its mask. */
  function Request(s: PpuState, mask: bv8): (r: PpuState)
    ensures r == s.(iff := r.iff)
  {
    s.(iff := s.iff | mask)
  }

  lemma RequestMasks(flags: bv8)
    ensures Requested(flags, VBLANK_INTERRUPT) == flags | VBLANK_REQUEST
    ensures Requested(flags, LCD_INTERRUPT) == flags | LCD_REQUEST
  {
  }

  function StatWithFlag(stat: bv8): bv8
  {
    stat | LYC_FLAG_BIT
  }

  function StatWithoutFlag(stat: bv8): bv8
  {
    stat & !((1 as bv8) << 2)
  }

  /**
   * updateLyc: on LY == LYC it ORs the mask 2 (bit 1) into STAT and requests
   * the LCD interrupt if STAT bit 6 is set; otherwise it clears bit 2.
   */
  function LycUpdated(s: PpuState): (r: PpuState)
    ensures r == s.(stat := r.stat, iff := r.iff)
  {
    if s.ly == s.lyc then
      var t := s.(stat := StatWithFlag(s.stat));
      if Bit(t.stat, LYC_INTERRUPT_BIT) then Request(t, LCD_REQUEST) else t
    else s.(stat := StatWithoutFlag(s.stat))
  }

  /** moveToNextScanline: LY wraps at 256 like Go's uint8. */
  function NextScanline(s: PpuState): (r: PpuState)
    ensures r == s.(ly := s.ly + 1, stat := r.stat, iff := r.iff)
  {
    LycUpdated(s.(ly := s.ly + 1))
  }

  /** checkVBlankInterrupt */
  function VBlankChecked(s: PpuState): (r: PpuState)
    ensures r == s.(iff := r.iff)
  {
    var t := Request(s, VBLANK_REQUEST);
    if Bit(t.stat, VBLANK_INTERRUPT_BIT) then Request(t, LCD_REQUEST) else t
  }

  /** checkHBlankInterrupt */
  function HBlankChecked(s: PpuState): (r: PpuState)
    ensures r == s.(iff := r.iff)
  {
    if Bit(s.stat, HBLANK_INTERRUPT_BIT) then Request(s, LCD_REQUEST) else s
  }

  /** checkOamInterrupt */
  function OamChecked(s: PpuState): (r: PpuState)
    ensures r == s.(iff := r.iff)
  {
    if Bit(s.stat, OAM_INTERRUPT_BIT) then Request(s, LCD_REQUEST) else s
  }

  /** handleOamMode */
  function OamHandled(s: PpuState): PpuState
  {
    if s.cycles >= OAM_SCAN_CYCLES then EnteredMode(s, VRAM_MODE) else s
  }

  /** handleVramMode, without the scanline it renders (see `Renders`). */
  function VramHandled(s: PpuState): PpuState
  {
    if s.cycles >= VRAM_SCAN_CYCLES then HBlankChecked(EnteredMode(s, HBLANK_MODE)) else s
  }

  /** handleHBlankMode */
  function HBlankHandled(s: PpuState): PpuState
  {
    if s.cycles >= HBLANK_CYCLES then
      var t := NextScanline(s);
      if t.ly == 144 then VBlankChecked(EnteredMode(t, VBLANK_MODE))
      else OamChecked(EnteredMode(t, OAM_MODE))
    else s
  }

  /** handleVBlankMode: the counter is reset only when LY wraps to 0. */
  function VBlankHandled(s: PpuState): PpuState
  {
    if s.cycles >= SCANLINE_CYCLES then
      var t := NextScanline(s);
      if t.ly > 153 then OamChecked(LycUpdated(EnteredMode(t.(ly := 0), OAM_MODE)))
      else t
    else s
  }

  /** Step: nothing while the LCD is off; otherwise 4 more cycles and the handler of the current mode. */
  function Stepped(s: PpuState): PpuState
  {
    if !LcdEnabled(s) then s
    else
      var t := s.(cycles := s.cycles + 4);
      if t.mode == OAM_MODE then OamHandled(t)
      else if t.mode == VRAM_MODE then VramHandled(t)
      else if t.mode == HBLANK_MODE then HBlankHandled(t)
      else if t.mode == VBLANK_MODE then VBlankHandled(t)
      else t
  }

  /** From IF `before` to IF `after` every request is kept and only V-blank and LCD may be added. */
  predicate OnlyPpuRequests(before: bv8, after: bv8)
  {
    Kept(before, after) && after & 0xFC == before & 0xFC
  }

  lemma OnlyPpuRequestsChain(a: bv8, b: bv8, c: bv8)
    requires OnlyPpuRequests(a, b) && OnlyPpuRequests(b, c)
    ensures OnlyPpuRequests(a, c)
  {
  }

  /** ORing in bits 0-1 only adds V-blank and LCD requests. */
  lemma RequestOnly(s: PpuState, mask: bv8)
    requires mask & 0xFC == 0
    ensures OnlyPpuRequests(s.iff, Request(s, mask).iff)
  {
  }

  /** Each interrupt check adds at most the V-blank and LCD requests. */
  lemma LycRequestsOnly(s: PpuState)
    ensures OnlyPpuRequests(s.iff, LycUpdated(s).iff)
  {
    RequestOnly(s.(stat := StatWithFlag(s.stat)), LCD_REQUEST);
  }

  lemma VBlankCheckRequestsOnly(s: PpuState)
    ensures OnlyPpuRequests(s.iff, VBlankChecked(s).iff)
  {
    var t := Request(s, VBLANK_REQUEST);
    RequestOnly(s, VBLANK_REQUEST);
    RequestOnly(t, LCD_REQUEST);
    OnlyPpuRequestsChain(s.iff, t.iff, Request(t, LCD_REQUEST).iff);
  }

  lemma ModeChecksRequestOnly(s: PpuState)
    ensures OnlyPpuRequests(s.iff, HBlankChecked(s).iff)
    ensures OnlyPpuRequests(s.iff, OamChecked(s).iff)
  {
    RequestOnly(s, LCD_REQUEST);
  }

  lemma HBlankRequestsOnly(t: PpuState)
    ensures OnlyPpuRequests(t.iff, HBlankHandled(t).iff)
  {
    if t.cycles >= HBLANK_CYCLES {
      var u := NextScanline(t);
      LycRequestsOnly(t.(ly := t.ly + 1));
      VBlankCheckRequestsOnly(EnteredMode(u, VBLANK_MODE));
      ModeChecksRequestOnly(EnteredMode(u, OAM_MODE));
      var r := HBlankHandled(t);
      assert r == VBlankChecked(EnteredMode(u, VBLANK_MODE)) || r == OamChecked(EnteredMode(u, OAM_MODE));
      OnlyPpuRequestsChain(t.iff, u.iff, r.iff);
    }
  }

  lemma VBlankRequestsOnly(t: PpuState)
    ensures OnlyPpuRequests(t.iff, VBlankHandled(t).iff)
  {
    if t.cycles >= SCANLINE_CYCLES {
      var u := NextScanline(t);
      LycRequestsOnly(t.(ly := t.ly + 1));
      if u.ly > 153 {
        var w := LycUpdated(EnteredMode(u.(ly := 0), OAM_MODE));
        LycRequestsOnly(EnteredMode(u.(ly := 0), OAM_MODE));
        ModeChecksRequestOnly(w);
        OnlyPpuRequestsChain(u.iff, w.iff, OamChecked(w).iff);
        OnlyPpuRequestsChain(t.iff, u.iff, OamChecked(w).iff);
      }
    }
  }

  /** A step keeps every pending interrupt request and sets no IF bit but V-blank and LCD. */
  lemma StepKeepsRequests(s: PpuState)
    ensures OnlyPpuRequests(s.iff, Stepped(s).iff)
  {
    if LcdEnabled(s) {
      var t := s.(cycles := s.cycles + 4);
      if t.mode == OAM_MODE {
        assert Stepped(s).iff == s.iff;
      } else if t.mode == VRAM_MODE {
        ModeChecksRequestOnly(EnteredMode(t, HBLANK_MODE));
        assert Stepped(s) == VramHandled(t);
      } else if t.mode == HBLANK_MODE {
        HBlankRequestsOnly(t);
        assert Stepped(s) == HBlankHandled(t);
      } else if t.mode == VBLANK_MODE {
        VBlankRequestsOnly(t);
        assert Stepped(s) == VBlankHandled(t);
      }
    }
  }

  /** Whether Step renders the scanline LY: it leaves VRAM mode. */
  predicate Renders(s: PpuState)
  {
    LcdEnabled(s) && s.mode == VRAM_MODE && s.cycles + 4 >= VRAM_SCAN_CYCLES
  }

  /** STAT as the register bus stores a write: bits 6-3 from the value, the rest kept. */
  function StatWritten(stat: bv8, v: bv8): bv8
  {
    (stat & 0x87) | (v & 0x78)
  }

  /** Write to a PPU register; VRAM and OAM writes are in `VramWritten` and `OamWritten`. */
  function Written(s: PpuState, address: Word, v: bv8): (r: PpuState)
    ensures address != LCD_CONTROL_ADDRESS ==> r.ly == s.ly && r.mode == s.mode && r.cycles == s.cycles && r.lcdc == s.lcdc
  {
    if address == LCD_CONTROL_ADDRESS then
      var t := s.(lcdc := v);
      if LcdEnabled(s) && !LcdEnabled(t) then EnteredMode(t.(ly := 0), HBLANK_MODE) else t
    else if address == LCD_STATUS_ADDRESS then s.(stat := StatWritten(s.stat, v))
    else if address == SCROLL_Y_ADDRESS then s.(draw := s.draw.(scy := v))
    else if address == SCROLL_X_ADDRESS then s.(draw := s.draw.(scx := v))
    else if address == LYC_ADDRESS then LycUpdated(s.(lyc := v))
    else if address == WINDOW_Y_ADDRESS then s.(draw := s.draw.(wy := v))
    else if address == WINDOW_X_ADDRESS then s.(draw := s.draw.(wx := v))
    else if address == BG_PALETTE_ADDRESS then s.(draw := s.draw.(bgp := v))
    else if address == OBP0_PALETTE_ADDRESS then s.(draw := s.draw.(obp0 := v))
    else if address == OBP1_PALETTE_ADDRESS then s.(draw := s.draw.(obp1 := v))
    else s
  }

  predicate IsRegister(address: Word)
  {
    LCD_CONTROL_ADDRESS <= address <= WINDOW_X_ADDRESS && address != 0xFF46
  }

  /** writeVram through Write: only a VRAM address that is not a register changes a byte. */
  function VramWritten(vram: seq<bv8>, address: Word, v: bv8): (r: seq<bv8>)
    requires |vram| == 0x2000
    ensures |r| == 0x2000
  {
    if VRAM_ADDRESS <= address <= VRAM_END_ADDRESS then vram[address - VRAM_ADDRESS := v] else vram
  }

  function OamWritten(oam: seq<bv8>, address: Word, v: bv8): (r: seq<bv8>)
    requires |oam| == 0xA0
    ensures |r| == 0xA0
  {
    if OAM_ADDRESS <= address <= OAM_END_ADDRESS then oam[address - OAM_ADDRESS := v] else oam
  }

  /** Read: the registers (STAT with bit 7 forced), VRAM, OAM, and 0xFF elsewhere. */
  function ReadOf(s: PpuState, vram: seq<bv8>, oam: seq<bv8>, address: Word): (b: bv8)
    requires |vram| == 0x2000 && |oam| == 0xA0
    ensures address == LCD_STATUS_ADDRESS ==> Bit(b, 7)
    ensures (!IsRegister(address) && !(VRAM_ADDRESS <= address <= VRAM_END_ADDRESS)
      && !(OAM_ADDRESS <= address <= OAM_END_ADDRESS)) ==> b == 0xFF
  {
    if address == LCD_CONTROL_ADDRESS then s.lcdc
    else if address == LCD_STATUS_ADDRESS then s.stat | 0x80
    else if address == SCROLL_Y_ADDRESS then s.draw.scy
    else if address == SCROLL_X_ADDRESS then s.draw.scx
    else if address == LY_ADDRESS then s.ly
    else if address == LYC_ADDRESS then s.lyc
    else if address == WINDOW_Y_ADDRESS then s.draw.wy
    else if address == WINDOW_X_ADDRESS then s.draw.wx
    else if address == BG_PALETTE_ADDRESS then s.draw.bgp
    else if address == OBP0_PALETTE_ADDRESS then s.draw.obp0
    else if address == OBP1_PALETTE_ADDRESS then s.draw.obp1
    else if VRAM_ADDRESS <= address <= VRAM_END_ADDRESS then ReadVram(vram, address)
    else if OAM_ADDRESS <= address <= OAM_END_ADDRESS then oam[address - OAM_ADDRESS]
    else 0xFF
  }

  /** NewPPU and Reset: LCD on, STAT 0x85, BGP 0xFC, both sprite palettes 0xFF, all else 0. */
  function PowerOn(iff: bv8): PpuState
  {
    PpuState(0x91, 0x85, 0, 0, HBLANK_MODE, 0, iff, DrawRegisters(0, 0, 0, 0, 0xFC, 0xFF, 0xFF))
  }

  /** `n` consecutive Steps. */
  function Steps(s: PpuState, n: nat): PpuState
    decreases n
  {
    if n == 0 then s else Steps(Stepped(s), n - 1)
  }

  /**
   * The states the machine keeps to: a mode 0..3, LY in 0..153, and LY at
   * 144 or more exactly in V-blank.
   */
  predicate Consistent(s: PpuState)
  {
    s.mode < 4 && s.ly <= 153 && (s.mode == VBLANK_MODE <==> s.ly >= 144)
  }

  // ----- LY/LYC -----

  /**
   * On LY == LYC, updateLyc sets STAT bit 1 (the mask 2) and leaves the
   * coincidence flag, bit 2, as it was; the other bits are kept.
   */
  lemma LycMatch(s: PpuState)
    requires s.ly == s.lyc
    ensures var r := LycUpdated(s);
      Bit(r.stat, 1) && (Bit(r.stat, 2) <==> Bit(s.stat, 2)) && r.stat & 0xFD == s.stat & 0xFD
  {
    assert LycUpdated(s).stat == StatWithFlag(s.stat);
  }

  /** On LY != LYC, updateLyc clears the coincidence flag, keeps every other bit and requests nothing. */
  lemma LycMismatch(s: PpuState)
    requires s.ly != s.lyc
    ensures var r := LycUpdated(s);
      !Bit(r.stat, 2) && r.stat & 0xFB == s.stat & 0xFB && r.iff == s.iff
  {
    assert LycUpdated(s).stat == StatWithoutFlag(s.stat);
  }

  /** updateLyc requests the LCD interrupt exactly on a match with STAT bit 6 set. */
  lemma LycRequest(s: PpuState)
    ensures LycUpdated(s).iff == if s.ly == s.lyc && Bit(s.stat, LYC_INTERRUPT_BIT) then s.iff | LCD_REQUEST else s.iff
  {
    if s.ly == s.lyc {
      assert Bit(StatWithFlag(s.stat), LYC_INTERRUPT_BIT) <==> Bit(s.stat, LYC_INTERRUPT_BIT);
    }
  }

  /** updateLyc never sets the coincidence flag: after it, bit 2 is set only if it was set on a match. */
  lemma LycFlagNeverSet(s: PpuState)
    ensures Bit(LycUpdated(s).stat, 2) ==> Bit(s.stat, 2) && s.ly == s.lyc
  {
    if s.ly == s.lyc {
      LycMatch(s);
    } else {
      LycMismatch(s);
    }
  }

  /** On LY == LYC the mode bits of STAT read as the mode with bit 1 forced on. */
  lemma LycMatchForcesModeBit(s: PpuState)
    requires s.ly == s.lyc
    ensures LycUpdated(s).stat & MODE_FLAG == (s.stat & MODE_FLAG) | 2
  {
    assert LycUpdated(s).stat == StatWithFlag(s.stat);
  }

  /** STAT bits 3 to 7 survive updateLyc. */
  lemma LycKeepsHighBits(s: PpuState, i: bv8)
    requires 3 <= i < 8
    ensures Bit(LycUpdated(s).stat, i) <==> Bit(s.stat, i)
  {
    if s.ly == s.lyc {
      assert LycUpdated(s).stat == StatWithFlag(s.stat);
    } else {
      assert LycUpdated(s).stat == StatWithoutFlag(s.stat);
    }
  }

  // ----- the mode state machine -----

  /** With LCDC bit 7 clear a Step changes nothing. */
  lemma StepWhileLcdOff(s: PpuState)
    requires !LcdEnabled(s)
    ensures Stepped(s) == s && !Renders(s)
  {
  }

  /** The handler a Step runs, after adding 4 to the counter. */
  lemma StepDispatch(s: PpuState)
    requires LcdEnabled(s)
    ensures var t := s.(cycles := s.cycles + 4);
      && (s.mode == OAM_MODE ==> Stepped(s) == OamHandled(t))
      && (s.mode == VRAM_MODE ==> Stepped(s) == VramHandled(t))
      && (s.mode == HBLANK_MODE ==> Stepped(s) == HBlankHandled(t))
      && (s.mode == VBLANK_MODE ==> Stepped(s) == VBlankHandled(t))
  {
  }

  /** enterMode records the mode in the field and in STAT bits 1-0, keeps bits 7-2, and zeroes the counter. */
  lemma EnterMode(s: PpuState, mode: bv8)
    requires mode < 4
    ensures var r := EnteredMode(s, mode);
      && r == s.(mode := mode, stat := r.stat, cycles := 0)
      && r.stat & MODE_FLAG == mode && r.stat & 0xFC == s.stat & 0xFC
  {
  }

  /** STAT bits 3 to 7 survive enterMode. */
  lemma EnterModeKeepsHighBits(s: PpuState, mode: bv8, i: bv8)
    requires mode < 4 && 3 <= i < 8
    ensures Bit(EnteredMode(s, mode).stat, i) <==> Bit(s.stat, i)
  {
  }

  /** OAM scan lasts until the counter reaches 80, then VRAM mode starts. */
  lemma OamScan(s: PpuState)
    requires LcdEnabled(s) && s.mode == OAM_MODE
    ensures var r := Stepped(s);
      && (s.cycles + 4 < OAM_SCAN_CYCLES ==> r == s.(cycles := s.cycles + 4))
      && (s.cycles + 4 >= OAM_SCAN_CYCLES ==> r.mode == VRAM_MODE && r.cycles == 0 && r.ly == s.ly && r.iff == s.iff)
  {
    StepDispatch(s);
  }

  /**
   * VRAM mode lasts until the counter reaches 172; then the scanline is
   * rendered, H-blank starts, and STAT bit 3 requests the LCD interrupt.
   */
  lemma VramScan(s: PpuState)
    requires LcdEnabled(s) && s.mode == VRAM_MODE
    ensures var r := Stepped(s);
      && (s.cycles + 4 < VRAM_SCAN_CYCLES ==> r == s.(cycles := s.cycles + 4) && !Renders(s))
      && (s.cycles + 4 >= VRAM_SCAN_CYCLES ==>
            && Renders(s)
            && r.mode == HBLANK_MODE && r.cycles == 0 && r.ly == s.ly
            && r.iff == (if Bit(s.stat, HBLANK_INTERRUPT_BIT) then s.iff | LCD_REQUEST else s.iff))
  {
    StepDispatch(s);
    EnterModeKeepsHighBits(s.(cycles := s.cycles + 4), HBLANK_MODE, HBLANK_INTERRUPT_BIT);
  }

  lemma RequestBits(flags: bv8)
    ensures Bit(flags | VBLANK_REQUEST, 0) && Bit((flags | VBLANK_REQUEST) | LCD_REQUEST, 0)
    ensures Bit((flags | VBLANK_REQUEST) | LCD_REQUEST, 1)
  {
  }

  /** Leaving H-blank at line 143 enters V-blank on line 144 and requests the V-blank interrupt. */
  lemma HBlankToVBlank(s: PpuState)
    requires LcdEnabled(s) && s.mode == HBLANK_MODE && s.cycles + 4 >= HBLANK_CYCLES && s.ly == 143
    ensures var r := Stepped(s);
      && r.ly == 144 && r.mode == VBLANK_MODE && r.cycles == 0
      && Bit(r.iff, 0)
      && (Bit(s.stat, VBLANK_INTERRUPT_BIT) ==> Bit(r.iff, 1))
  {
    StepDispatch(s);
    var t := s.(cycles := s.cycles + 4);
    var n := NextScanline(t);
    LycKeepsHighBits(t.(ly := t.ly + 1), VBLANK_INTERRUPT_BIT);
    EnterModeKeepsHighBits(n, VBLANK_MODE, VBLANK_INTERRUPT_BIT);
    RequestBits(n.iff);
  }

  /** Leaving H-blank on any other line moves to the next line in OAM mode. */
  lemma HBlankToOam(s: PpuState)
    requires LcdEnabled(s) && s.mode == HBLANK_MODE && s.cycles + 4 >= HBLANK_CYCLES && s.ly != 143
    ensures var r := Stepped(s);
      r.ly == s.ly + 1 && r.mode == OAM_MODE && r.cycles == 0
  {
    StepDispatch(s);
  }

  /**
   * In V-blank a line ends at 456 cycles but the counter is not reset, so the
   * lines after the first one last one Step each.
   */
  lemma VBlankCounterKept(s: PpuState)
    requires LcdEnabled(s) && s.mode == VBLANK_MODE && s.cycles + 4 >= SCANLINE_CYCLES && s.ly < 153
    ensures var r := Stepped(s);
      r.ly == s.ly + 1 && r.mode == VBLANK_MODE && r.cycles == s.cycles + 4 && r.lcdc == s.lcdc
  {
    StepDispatch(s);
  }

  /** After line 153, LY wraps to 0 in OAM mode with the counter reset. */
  lemma VBlankWraps(s: PpuState)
    requires LcdEnabled(s) && s.mode == VBLANK_MODE && s.cycles + 4 >= SCANLINE_CYCLES && 153 <= s.ly < 255
    ensures var r := Stepped(s);
      r.ly == 0 && r.mode == OAM_MODE && r.cycles == 0 && r.lcdc == s.lcdc
  {
    StepDispatch(s);
  }

  /**
   * Once the first V-blank line has run its 456 cycles, each of the following
   * `n` Steps advances LY by one.
   */
  lemma {:induction false} VBlankOneLinePerStep(s: PpuState, n: nat)
    requires LcdEnabled(s) && s.mode == VBLANK_MODE && s.cycles + 4 >= SCANLINE_CYCLES
    requires s.ly as int + n <= 153
    ensures var r := Steps(s, n);
      r.ly as int == s.ly as int + n && r.mode == VBLANK_MODE && r.cycles == s.cycles + 4 * n && r.lcdc == s.lcdc
    decreases n
  {
    if n > 0 {
      VBlankCounterKept(s);
      VBlankOneLinePerStep(Stepped(s), n - 1);
    }
  }

  /** A Step keeps the machine consistent. */
  lemma StepConsistent(s: PpuState)
    requires Consistent(s)
    ensures Consistent(Stepped(s))
  {
    if LcdEnabled(s) {
      StepDispatch(s);
      var t := s.(cycles := s.cycles + 4);
      if s.mode == HBLANK_MODE {
        HBlankConsistent(t);
      } else if s.mode == VBLANK_MODE {
        VBlankConsistent(t);
      }
    }
  }

  lemma HBlankConsistent(t: PpuState)
    requires Consistent(t) && t.mode == HBLANK_MODE
    ensures Consistent(HBlankHandled(t))
  {
  }

  lemma VBlankConsistent(t: PpuState)
    requires Consistent(t) && t.mode == VBLANK_MODE
    ensures Consistent(VBlankHandled(t))
  {
  }

  /** In a consistent state the line rendered on leaving VRAM mode is on screen. */
  lemma RenderedLineVisible(s: PpuState)
    requires Consistent(s) && Renders(s)
    ensures (s.ly as int) < SCREEN_HEIGHT
  {
  }

  // ----- the register bus -----

  /** A STAT write takes bits 6-3 from the value and keeps bits 7 and 2-0. */
  lemma StatWriteMask(stat: bv8, v: bv8, i: bv8)
    requires i < 8
    ensures Bit(StatWritten(stat, v), i) <==> if 3 <= i <= 6 then Bit(v, i) else Bit(stat, i)
  {
  }

  /** Turning the LCD off resets LY to 0 in H-blank, after which Steps change nothing. */
  lemma LcdOff(s: PpuState, v: bv8)
    requires LcdEnabled(s) && !Bit(v, 7)
    ensures var r := Written(s, LCD_CONTROL_ADDRESS, v);
      r.lcdc == v && r.ly == 0 && r.mode == HBLANK_MODE && r.cycles == 0 && Stepped(r) == r
  {
  }

  /** Writing a register other than STAT and LY reads the value back. */
  lemma RegisterRoundTrip(s: PpuState, vram: seq<bv8>, oam: seq<bv8>, address: Word, v: bv8)
    requires |vram| == 0x2000 && |oam| == 0xA0
    requires IsRegister(address) && address != LCD_STATUS_ADDRESS && address != LY_ADDRESS
    ensures ReadOf(Written(s, address, v), vram, oam, address) == v
  {
  }

  /** A STAT write reads back as the masked value with bit 7 set; LY is read-only. */
  lemma StatAndLy(s: PpuState, vram: seq<bv8>, oam: seq<bv8>, v: bv8)
    requires |vram| == 0x2000 && |oam| == 0xA0
    ensures ReadOf(Written(s, LCD_STATUS_ADDRESS, v), vram, oam, LCD_STATUS_ADDRESS) == StatWritten(s.stat, v) | 0x80
    ensures Written(s, LY_ADDRESS, v) == s
  {
  }

  /** VRAM and OAM writes read back, and leave the registers alone. */
  lemma MemoryRoundTrip(s: PpuState, vram: seq<bv8>, oam: seq<bv8>, address: Word, v: bv8)
    requires |vram| == 0x2000 && |oam| == 0xA0
    requires VRAM_ADDRESS <= address <= VRAM_END_ADDRESS || OAM_ADDRESS <= address <= OAM_END_ADDRESS
    ensures ReadOf(s, VramWritten(vram, address, v), OamWritten(oam, address, v), address) == v
    ensures Written(s, address, v) == s
  {
  }

  /** Register writes keep the machine consistent. */
  lemma WriteConsistent(s: PpuState, address: Word, v: bv8)
    requires Consistent(s)
    ensures Consistent(Written(s, address, v))
  {
    if address == LCD_CONTROL_ADDRESS {
      assert Written(s, address, v).ly == 0 || Written(s, address, v) == s.(lcdc := v);
    } else {
    }
  }

  /** The power-on state is consistent. */
  lemma PowerOnConsistent(iff: bv8)
    ensures Consistent(PowerOn(iff)) && LcdEnabled(PowerOn(iff))
  {
  }

  /** The loop of renderWindow: the window's pixels from its first column to the right edge. */
  method DrawWindow(l: Line, line: array<bv8>)
    requires WellFormed(l) && l.ly >= l.wy && line.Length == SCREEN_WIDTH
    modifies line
    ensures forall x :: 0 <= x < SCREEN_WIDTH ==> line[x] == WindowOver(l, x, old(line[x]))
  {
    ghost var before := line[..];
    var screenX := WindowStart(l.wx);
    while screenX < SCREEN_WIDTH
      invariant WindowStart(l.wx) <= screenX
      invariant forall x :: 0 <= x < SCREEN_WIDTH ==>
        line[x] == if x < screenX then WindowOver(l, x, before[x]) else before[x]
      decreases SCREEN_WIDTH - screenX
    {
      line[screenX] := WindowPixel(l, screenX);
      screenX := screenX + 1;
    }
  }

  // ----- the PPU object -----

  class Ppu {
    var vram: Ram
    var oam: Ram

    var lcdc: bv8
    var stat: bv8
    var scy: bv8
    var scx: bv8
    var ly: bv8
    var lyc: bv8
    var bgp: bv8
    var obp0: bv8
    var obp1: bv8
    var wy: bv8
    var wx: bv8

    var mode: bv8
    var cycles: int
    /** The 144 rows of 160 palette shades, one array per row. */
    const framebuffer: seq<array<bv8>>

    const interrupts: Interrupts

    predicate Valid()
      reads this
    {
      interrupts.Valid() && vram.data.Length == 0x2000 && oam.data.Length == 0xA0
      && |framebuffer| == SCREEN_HEIGHT
      && (forall y :: 0 <= y < SCREEN_HEIGHT ==> framebuffer[y].Length == SCREEN_WIDTH && framebuffer[y] != oam.data)
      && (forall y, z :: 0 <= y < z < SCREEN_HEIGHT ==> framebuffer[y] != framebuffer[z])
    }

    function View(): PpuState
      reads this, interrupts.interruptFlag
    {
      PpuState(lcdc, stat, ly, lyc, mode, cycles, interrupts.IF(), DrawRegisters(scy, scx, wy, wx, bgp, obp0, obp1))
    }

    /** What the current scanline is drawn from. */
    function CurrentLine(): (l: Line)
      reads this, vram.data, oam.data
      requires Valid()
      ensures WellFormed(l)
    {
      Line(ly, lcdc, scy, scx, bgp, obp0, obp1, wy, wx, vram.data[..], oam.data[..])
    }

    /** Row `row` holds what the scanline drawn from `l` shows. */
    predicate RowRendered(row: int, l: Line)
      reads this, framebuffer
      requires Valid() && 0 <= row < SCREEN_HEIGHT && WellFormed(l)
    {
      forall x :: 0 <= x < SCREEN_WIDTH ==> framebuffer[row][x] == ScanlinePixel(l, x)
    }

    /** No framebuffer row other than `row` has changed. */
    twostate predicate OtherRowsUnchanged(row: int)
      reads this, framebuffer
      requires Valid()
    {
      forall y :: 0 <= y < SCREEN_HEIGHT && y != row ==> unchanged(framebuffer[y])
    }

    /** The framebuffer row of the current line. */
    function Row(): int
      reads this
    {
      ly as int
    }

    /** NewPPU: zeroed VRAM, OAM and framebuffer and the power-on registers. */
    constructor (interrupts: Interrupts)
      requires interrupts.Valid()
      ensures Valid() && this.interrupts == interrupts
      ensures View() == PowerOn(interrupts.IF())
      ensures fresh(vram) && fresh(vram.data) && fresh(oam) && fresh(oam.data)
      ensures forall y :: 0 <= y < SCREEN_HEIGHT ==> fresh(framebuffer[y])
      ensures forall i :: 0 <= i < 0x2000 ==> vram.data[i] == 0
      ensures forall i :: 0 <= i < 0xA0 ==> oam.data[i] == 0
      ensures forall y, x :: 0 <= y < SCREEN_HEIGHT && 0 <= x < SCREEN_WIDTH ==> framebuffer[y][x] == 0
    {
      var rows: seq<array<bv8>> := [];
      while |rows| < SCREEN_HEIGHT
        invariant |rows| <= SCREEN_HEIGHT
        invariant forall y :: 0 <= y < |rows| ==> fresh(rows[y]) && rows[y].Length == SCREEN_WIDTH
        invariant forall y, x :: 0 <= y < |rows| && 0 <= x < rows[y].Length ==> rows[y][x] == 0
        invariant forall y, z :: 0 <= y < z < |rows| ==> rows[y] != rows[z]
      {
        var row := new bv8[SCREEN_WIDTH](_ => 0);
        rows := rows + [row];
      }
      vram := new Ram(0x2000);
      oam := new Ram(0xA0);
      lcdc, stat, scy, scx, ly, lyc := 0x91, 0x85, 0, 0, 0, 0;
      bgp, obp0, obp1, wy, wx := 0xFC, 0xFF, 0xFF, 0, 0;
      mode, cycles := HBLANK_MODE, 0;
      framebuffer := rows;
      this.interrupts := interrupts;
    }

    predicate IsLcdEnabled()
      reads this
    {
      Bit(lcdc, LCD_ENABLE as bv8)
    }

    method EnterMode(m: bv8)
      modifies this
      ensures View() == EnteredMode(old(View()), m)
      ensures vram == old(vram) && oam == old(oam)
    {
      mode := m;
      stat := WithMode(stat, m);
      cycles := 0;
    }

    method UpdateLyc()
      requires interrupts.Valid()
      modifies this, interrupts.interruptFlag
      ensures View() == LycUpdated(old(View()))
      ensures vram == old(vram) && oam == old(oam)
    {
      if ly == lyc {
        stat := StatWithFlag(stat);
        if Bit(stat, LYC_INTERRUPT_BIT) {
          RequestMasks(interrupts.IF());
          interrupts.Request(LCD_INTERRUPT);
        }
      } else {
        stat := StatWithoutFlag(stat);
      }
    }

    method MoveToNextScanline()
      requires interrupts.Valid()
      modifies this, interrupts.interruptFlag
      ensures View() == NextScanline(old(View()))
      ensures vram == old(vram) && oam == old(oam)
    {
      ly := ly + 1;
      UpdateLyc();
    }

    method CheckVBlankInterrupt()
      requires interrupts.Valid()
      modifies interrupts.interruptFlag
      ensures View() == VBlankChecked(old(View()))
    {
      ghost var before := View();
      RequestMasks(interrupts.IF());
      interrupts.Request(VBLANK_INTERRUPT);
      assert View() == Request(before, VBLANK_REQUEST);
      if Bit(stat, VBLANK_INTERRUPT_BIT) {
        ghost var requested := View();
        RequestMasks(interrupts.IF());
        interrupts.Request(LCD_INTERRUPT);
        assert View() == Request(requested, LCD_REQUEST);
      }
    }

    method CheckHBlankInterrupt()
      requires interrupts.Valid()
      modifies interrupts.interruptFlag
      ensures View() == HBlankChecked(old(View()))
    {
      if Bit(stat, HBLANK_INTERRUPT_BIT) {
        RequestMasks(interrupts.IF());
        interrupts.Request(LCD_INTERRUPT);
      }
    }

    method CheckOamInterrupt()
      requires interrupts.Valid()
      modifies interrupts.interruptFlag
      ensures View() == OamChecked(old(View()))
    {
      if Bit(stat, OAM_INTERRUPT_BIT) {
        RequestMasks(interrupts.IF());
        interrupts.Request(LCD_INTERRUPT);
      }
    }

    method HandleOamMode()
      requires interrupts.Valid()
      modifies this
      ensures View() == OamHandled(old(View()))
      ensures vram == old(vram) && oam == old(oam)
    {
      if cycles >= OAM_SCAN_CYCLES {
        EnterMode(VRAM_MODE);
      }
    }

    /** Leaving VRAM mode renders the current line. */
    method HandleVramMode()
      requires Valid()
      modifies this, interrupts.interruptFlag, framebuffer
      ensures View() == VramHandled(old(View()))
      ensures vram == old(vram) && oam == old(oam) && Valid()
      ensures old(cycles) >= VRAM_SCAN_CYCLES && (old(ly) as int) < SCREEN_HEIGHT ==>
        RowRendered(old(ly) as int, old(CurrentLine()))
      ensures OtherRowsUnchanged(if old(cycles) >= VRAM_SCAN_CYCLES then old(ly) as int else -1)
    {
      if cycles >= VRAM_SCAN_CYCLES {
        ghost var l := CurrentLine();
        EnterMode(HBLANK_MODE);
        assert CurrentLine() == l;
        RenderScanline();
        CheckHBlankInterrupt();
      }
    }

    method HandleHBlankMode()
      requires interrupts.Valid()
      modifies this, interrupts.interruptFlag
      ensures View() == HBlankHandled(old(View()))
      ensures vram == old(vram) && oam == old(oam)
    {
      if cycles >= HBLANK_CYCLES {
        MoveToNextScanline();
        if ly as int == SCREEN_HEIGHT {
          EnterMode(VBLANK_MODE);
          CheckVBlankInterrupt();
        } else {
          EnterMode(OAM_MODE);
          CheckOamInterrupt();
        }
      }
    }

    method HandleVBlankMode()
      requires interrupts.Valid()
      modifies this, interrupts.interruptFlag
      ensures View() == VBlankHandled(old(View()))
      ensures vram == old(vram) && oam == old(oam)
    {
      if cycles >= SCANLINE_CYCLES {
        MoveToNextScanline();
        if ly > 153 {
          ly := 0;
          EnterMode(OAM_MODE);
          UpdateLyc();
          CheckOamInterrupt();
        }
      }
    }

    /**
     * Step: with the LCD on, 4 more cycles and the handler of the current
     * mode; the line LY is rendered when VRAM mode ends.
     */
    method Step()
      requires Valid()
      modifies this, interrupts.interruptFlag, framebuffer
      ensures View() == Stepped(old(View()))
      ensures vram == old(vram) && oam == old(oam) && Valid()
      ensures Renders(old(View())) && (old(ly) as int) < SCREEN_HEIGHT ==> RowRendered(old(ly) as int, old(CurrentLine()))
      ensures OtherRowsUnchanged(if Renders(old(View())) then old(ly) as int else -1)
    {
      if !IsLcdEnabled() {
        return;
      }
      ghost var s := View();
      ghost var l := CurrentLine();
      StepDispatch(s);
      cycles := cycles + 4;
      assert View() == s.(cycles := s.cycles + 4) && CurrentLine() == l;
      if mode == OAM_MODE {
        HandleOamMode();
      } else if mode == VRAM_MODE {
        HandleVramMode();
      } else if mode == HBLANK_MODE {
        HandleHBlankMode();
      } else if mode == VBLANK_MODE {
        HandleVBlankMode();
      }
    }

    // ----- rendering -----

    /** renderScanline: nothing for LY >= 144, otherwise the layers of line LY in order. */
    method RenderScanline()
      requires Valid()
      modifies framebuffer
      ensures Row() < SCREEN_HEIGHT ==> RowRendered(Row(), CurrentLine())
      ensures OtherRowsUnchanged(Row())
    {
      if ly as int >= SCREEN_HEIGHT {
        return;
      }
      RenderBackgroundLayer();
      RenderWindowLayer();
      if IsBitSet(lcdc, SPRITE_ENABLE) {
        RenderSprites();
      }
    }

    /** The first part of renderScanline: the row cleared, then the background if LCDC bit 0 is set. */
    method RenderBackgroundLayer()
      requires Valid() && Row() < SCREEN_HEIGHT
      modifies framebuffer[Row()]
      ensures forall x :: 0 <= x < SCREEN_WIDTH ==> framebuffer[Row()][x] == BackgroundLayer(CurrentLine(), x)
    {
      ClearScanline();
      if IsBitSet(lcdc, BG_WINDOW_ENABLE) {
        RenderBackground();
      }
    }

    /** The second part of renderScanline: the window if LCDC bit 5 is set and shouldRenderWindow holds. */
    method RenderWindowLayer()
      requires Valid() && Row() < SCREEN_HEIGHT
      requires forall x :: 0 <= x < SCREEN_WIDTH ==> framebuffer[Row()][x] == BackgroundLayer(CurrentLine(), x)
      modifies framebuffer[Row()]
      ensures forall x :: 0 <= x < SCREEN_WIDTH ==> framebuffer[Row()][x] == WindowLayer(CurrentLine(), x)
    {
      if IsBitSet(lcdc, WINDOW_ENABLE) && ShouldRenderWindow() {
        RenderWindow();
      }
    }

    /** clearScanline: row LY back to 0. */
    method ClearScanline()
      requires Valid() && Row() < SCREEN_HEIGHT
      modifies framebuffer[Row()]
      ensures forall x :: 0 <= x < SCREEN_WIDTH ==> framebuffer[Row()][x] == 0
    {
      ClearRow(ly as int);
    }

    /** Every column of row `y` set to 0. */
    method ClearRow(y: int)
      requires Valid() && 0 <= y < SCREEN_HEIGHT
      modifies framebuffer[y]
      ensures forall x :: 0 <= x < SCREEN_WIDTH ==> framebuffer[y][x] == 0
    {
      var line := framebuffer[y];
      var x := 0;
      while x < SCREEN_WIDTH
        invariant 0 <= x <= SCREEN_WIDTH
        invariant forall i :: 0 <= i < x ==> line[i] == 0
      {
        line[x] := 0;
        x := x + 1;
      }
    }

    predicate ShouldRenderWindow()
      reads this
    {
      ly >= wy && wx <= 166
    }

    /** renderBackground: every column of the row gets the scrolled background map's pixel. */
    method RenderBackground()
      requires Valid() && Row() < SCREEN_HEIGHT
      modifies framebuffer[Row()]
      ensures forall x :: 0 <= x < SCREEN_WIDTH ==> framebuffer[Row()][x] == BackgroundPixel(CurrentLine(), x)
    {
      var l := CurrentLine();
      var line := framebuffer[ly as int];
      var screenX := 0;
      while screenX < SCREEN_WIDTH
        invariant 0 <= screenX <= SCREEN_WIDTH
        invariant forall x :: 0 <= x < screenX ==> line[x] == BackgroundPixel(l, x)
      {
        line[screenX] := BackgroundPixel(l, screenX);
        screenX := screenX + 1;
      }
    }

    /** renderWindow: from the window's first column, for LY at or below WY. */
    method RenderWindow()
      requires Valid() && Row() < SCREEN_HEIGHT
      modifies framebuffer[Row()]
      ensures forall x :: 0 <= x < SCREEN_WIDTH ==>
        framebuffer[Row()][x] == WindowOver(CurrentLine(), x, old(framebuffer[Row()][x]))
    {
      var windowY := ly as int - wy as int;
      if windowY < 0 {
        return;
      }
      DrawWindow(CurrentLine(), framebuffer[ly as int]);
    }

    /**
     * renderSprites: OAM entries 39 down to 0, drawing each one on the line
     * until ten have been drawn.
     */
    method RenderSprites()
      requires Valid() && Row() < SCREEN_HEIGHT
      modifies framebuffer[Row()]
      ensures var l := CurrentLine();
        var height := SpriteHeight(lcdc);
        forall x :: 0 <= x < SCREEN_WIDTH ==>
          framebuffer[Row()][x] == SpritesOver(l, Selection(l, height, MAX_SPRITES - 1, 0), height, x, old(framebuffer[Row()][x]))
    {
      var l := CurrentLine();
      var line := framebuffer[ly as int];
      ghost var base := line[..];
      var spriteHeight := SpriteHeight(lcdc);
      var spritesRendered := 0;
      var spriteIndex := MAX_SPRITES - 1;
      ghost var drawn: seq<Sprite> := [];
      while spriteIndex >= 0 && spritesRendered < SPRITES_PER_LINE
        invariant -1 <= spriteIndex < MAX_SPRITES
        invariant AllOnLine(l, drawn, spriteHeight)
        invariant Selection(l, spriteHeight, MAX_SPRITES - 1, 0) == drawn + Selection(l, spriteHeight, spriteIndex, spritesRendered)
        invariant forall x :: 0 <= x < SCREEN_WIDTH ==> line[x] == SpritesOver(l, drawn, spriteHeight, x, base[x])
        decreases spriteIndex + 1
      {
        var sprite := SpriteAt(l.oam, spriteIndex);
        if OnLine(sprite, spriteHeight, ly) {
          RenderNextSprite(sprite, spriteHeight, drawn, base);
          SelectionAppend(l, spriteHeight, drawn, spriteIndex, spritesRendered);
          drawn := drawn + [sprite];
          spritesRendered := spritesRendered + 1;
        }
        spriteIndex := spriteIndex - 1;
      }
      assert Selection(l, spriteHeight, spriteIndex, spritesRendered) == [];
      assert drawn == Selection(l, spriteHeight, MAX_SPRITES - 1, 0);
    }

    /** One step of renderSprites: the next selected sprite drawn after those already drawn. */
    method RenderNextSprite(sprite: Sprite, spriteHeight: nat, ghost drawn: seq<Sprite>, ghost base: seq<bv8>)
      requires Valid() && Row() < SCREEN_HEIGHT && |base| == SCREEN_WIDTH
      requires OnLine(sprite, spriteHeight, ly) && (spriteHeight == 8 || spriteHeight == 16)
      requires AllOnLine(CurrentLine(), drawn, spriteHeight)
      requires forall x :: 0 <= x < SCREEN_WIDTH ==>
        framebuffer[Row()][x] == SpritesOver(CurrentLine(), drawn, spriteHeight, x, base[x])
      modifies framebuffer[Row()]
      ensures AllOnLine(CurrentLine(), drawn + [sprite], spriteHeight)
      ensures forall x :: 0 <= x < SCREEN_WIDTH ==>
        framebuffer[Row()][x] == SpritesOver(CurrentLine(), drawn + [sprite], spriteHeight, x, base[x])
    {
      ghost var l := CurrentLine();
      RenderSprite(sprite, spriteHeight);
      forall x | 0 <= x < SCREEN_WIDTH
        ensures framebuffer[Row()][x] == SpritesOver(l, drawn + [sprite], spriteHeight, x, base[x])
      {
        SpritesOverSnoc(l, drawn, sprite, spriteHeight, x, base[x]);
      }
      SpritesOverSnoc(l, drawn, sprite, spriteHeight, 0, 0);
    }

    /**
     * renderSprite: the sprite's eight columns that fall on the screen, each
     * drawn over what is there (transparency and priority as SpriteOver says).
     */
    method RenderSprite(sprite: Sprite, spriteHeight: nat)
      requires Valid() && Row() < SCREEN_HEIGHT
      requires OnLine(sprite, spriteHeight, ly) && (spriteHeight == 8 || spriteHeight == 16)
      modifies framebuffer[Row()]
      ensures forall x :: 0 <= x < SCREEN_WIDTH ==>
        framebuffer[Row()][x] == SpriteOver(CurrentLine(), sprite, spriteHeight, x, old(framebuffer[Row()][x]))
    {
      var l := CurrentLine();
      var line := framebuffer[ly as int];
      var left := sprite.x as int - 8;
      var pixelX := 0;
      while pixelX < 8
        invariant 0 <= pixelX <= 8
        invariant forall x :: 0 <= x < SCREEN_WIDTH ==>
          line[x] == if left <= x < left + pixelX then SpriteOver(l, sprite, spriteHeight, x, old(line[x])) else old(line[x])
      {
        var screenX := left + pixelX;
        if 0 <= screenX < SCREEN_WIDTH {
          line[screenX] := SpriteOver(l, sprite, spriteHeight, screenX, line[screenX]);
        }
        pixelX := pixelX + 1;
      }
      forall x | 0 <= x < SCREEN_WIDTH && !(left <= x < left + 8)
        ensures line[x] == SpriteOver(l, sprite, spriteHeight, x, old(line[x]))
      {
        OutsideSprite(l, sprite, spriteHeight, x, old(line[x]));
      }
    }

    // ----- the register bus -----

    function Read(address: Word): bv8
      reads this, interrupts.interruptFlag, vram.data, oam.data
      requires Valid()
    {
      ReadOf(View(), vram.data[..], oam.data[..], address)
    }

    /** Write: a register, a VRAM byte or an OAM byte; any other address is ignored. */
    method Write(address: Word, v: bv8)
      requires Valid()
      modifies this, vram.data, oam.data, interrupts.interruptFlag
      ensures vram == old(vram) && oam == old(oam) && Valid()
      ensures View() == Written(old(View()), address, v)
      ensures vram.data[..] == VramWritten(old(vram.data[..]), address, v)
      ensures oam.data[..] == OamWritten(old(oam.data[..]), address, v)
    {
      if IsRegister(address) {
        WriteRegister(address, v);
      } else if VRAM_ADDRESS <= address <= VRAM_END_ADDRESS {
        vram.Write(address - VRAM_ADDRESS, v);
      } else if OAM_ADDRESS <= address <= OAM_END_ADDRESS {
        oam.Write(address - OAM_ADDRESS, v);
      }
    }

    /**
     * The register cases of Write, LCDC, STAT and LYC first (LY, 0xFF44,
     * is read-only).
     */
    method WriteRegister(address: Word, v: bv8)
      requires interrupts.Valid()
      requires IsRegister(address)
      modifies this, interrupts.interruptFlag
      ensures vram == old(vram) && oam == old(oam)
      ensures View() == Written(old(View()), address, v)
    {
      if address == LCD_CONTROL_ADDRESS {
        var prevEnabled := IsLcdEnabled();
        lcdc := v;
        if prevEnabled && !IsLcdEnabled() {
          ly := 0;
          EnterMode(HBLANK_MODE);
        }
      } else if address == LCD_STATUS_ADDRESS {
        stat := StatWritten(stat, v);
      } else if address == LYC_ADDRESS {
        lyc := v;
        UpdateLyc();
      } else {
        WriteDrawRegister(address, v);
      }
    }

    /** The scroll, window and palette cases of Write. */
    method WriteDrawRegister(address: Word, v: bv8)
      requires address != LCD_CONTROL_ADDRESS && address != LCD_STATUS_ADDRESS && address != LYC_ADDRESS
      modifies this
      ensures vram == old(vram) && oam == old(oam)
      ensures View() == Written(old(View()), address, v)
    {
      if address == SCROLL_Y_ADDRESS {
        scy := v;
      } else if address == SCROLL_X_ADDRESS {
        scx := v;
      } else if address == WINDOW_Y_ADDRESS {
        wy := v;
      } else if address == WINDOW_X_ADDRESS {
        wx := v;
      } else if address == BG_PALETTE_ADDRESS {
        bgp := v;
      } else if address == OBP0_PALETTE_ADDRESS {
        obp0 := v;
      } else if address == OBP1_PALETTE_ADDRESS {
        obp1 := v;
      }
    }

    /** The register part of Reset: the control and status registers, then the others. */
    method PowerOnRegisters()
      modifies this
      ensures View() == PowerOn(interrupts.IF())
      ensures vram == old(vram) && oam == old(oam)
    {
      lcdc, stat, ly, lyc := 0x91, 0x85, 0, 0;
      mode, cycles := HBLANK_MODE, 0;
      PowerOnDrawRegisters();
    }

    /** Reset's values for the scroll, window and palette registers. */
    method PowerOnDrawRegisters()
      modifies this
      ensures View() == old(View()).(draw := PowerOn(0).draw)
      ensures vram == old(vram) && oam == old(oam)
    {
      scy, scx := 0, 0;
      bgp, obp0, obp1, wy, wx := 0xFC, 0xFF, 0xFF, 0, 0;
      assert View().draw == DrawRegisters(0, 0, 0, 0, 0xFC, 0xFF, 0xFF);
    }

    /** Reset: the power-on registers, fresh zeroed VRAM and OAM, and a cleared framebuffer. */
    method Reset()
      requires Valid()
      modifies this, framebuffer
      ensures Valid() && View() == PowerOn(old(interrupts.IF()))
      ensures fresh(vram) && fresh(vram.data) && fresh(oam) && fresh(oam.data)
      ensures forall i :: 0 <= i < 0x2000 ==> vram.data[i] == 0
      ensures forall i :: 0 <= i < 0xA0 ==> oam.data[i] == 0
      ensures forall y, x :: 0 <= y < SCREEN_HEIGHT && 0 <= x < SCREEN_WIDTH ==> framebuffer[y][x] == 0
    {
      PowerOnRegisters();
      vram := new Ram(0x2000);
      oam := new Ram(0xA0);
      var y := 0;
      while y < SCREEN_HEIGHT
        invariant 0 <= y <= SCREEN_HEIGHT
        invariant forall i, j :: 0 <= i < y && 0 <= j < SCREEN_WIDTH ==> framebuffer[i][j] == 0
        modifies framebuffer
      {
        ClearRow(y);
        y := y + 1;
      }
    }
  }
}
