/**
 * mmu.go: the memory bus.  Every CPU access goes through one decoder that
 * sends it to the boot ROM (while mapped), the cartridge, the PPU, work RAM
 * and its echo, the timer, the interrupt controller, the I/O block or high
 * RAM, in the order of the Go `switch`.  The pure part below states the
 * decoder over a `Bus` value; class `Mmu` is proved against it.
 */
module Mmu {
  import opened Bytes
  import opened Memory
  import opened BootRom
  import C = Cartridge
  import P = Ppu
  import T = Timer
  import opened Interrupts

  // Start of each region
  const VRAM_ADDRESS: Word := 0x8000
  const EXTERNAL_RAM_ADDRESS: Word := 0xA000
  const WRAM_ADDRESS: Word := 0xC000
  const ECHO_RAM_ADDRESS: Word := 0xE000
  const OAM_ADDRESS: Word := 0xFE00
  const NOT_USABLE_ADDRESS: Word := 0xFEA0
  const IO_REGISTERS_ADDRESS: Word := 0xFF00
  const SERIAL_BUFFER_ADDRESS: Word := 0xFF01
  const SERIAL_TRANSFER_ADDRESS: Word := 0xFF02
  const HRAM_ADDRESS: Word := 0xFF80

  const DIV_ADDRESS: Word := 0xFF04
  const TAC_ADDRESS: Word := 0xFF07
  const INTERRUPT_FLAG_ADDRESS: Word := 0xFF0F
  const INTERRUPT_ENABLE_ADDRESS: Word := 0xFFFF
  const LCD_CONTROL_ADDRESS: Word := 0xFF40
  const DMA_ADDRESS: Word := 0xFF46
  const WINDOW_X_ADDRESS: Word := 0xFF4B
  const BOOT_ROM_CONTROL_ADDRESS: Word := 0xFF50

  const WRAM_SIZE: nat := 0x2000
  const HRAM_SIZE: nat := 0x7F
  const IO_SIZE: nat := 0x80

  /** The PPU's registers with its two memories. */
  datatype Video = Video(regs: P.PpuState, vram: seq<bv8>, oam: seq<bv8>)

  /** The bus's own memories. */
  datatype Blocks = Blocks(wram: seq<bv8>, hram: seq<bv8>, io: seq<bv8>)

  /**
   * Everything behind the bus.  IF lives in the interrupt controller, which
   * the PPU and the timer share, so it appears in both of their states.
   */
  datatype Bus = Bus(
    cart: C.CartState, video: Video, timer: T.TimerState, ie: bv8, blocks: Blocks,
    bootRom: seq<bv8>, bootRomEnabled: bool)

  predicate BusInv(s: Bus)
  {
    && C.CartInv(s.cart)
    && |s.video.vram| == 0x2000 && |s.video.oam| == 0xA0
    && |s.blocks.wram| == WRAM_SIZE && |s.blocks.hram| == HRAM_SIZE && |s.blocks.io| == IO_SIZE
    && |s.bootRom| == 0x100
    && s.video.regs.iff == s.timer.iff
  }

  /** The interrupt flag byte. */
  function IF(s: Bus): bv8
  {
    s.timer.iff
  }

  /** `address & 0x1FFF`: the work-RAM offset of a work-RAM or echo-RAM address. */
  function WramOffset(address: Word): (o: nat)
    ensures o < WRAM_SIZE
  {
    address % 0x2000
  }

  predicate InWram(address: Word)
  {
    WRAM_ADDRESS <= address < OAM_ADDRESS
  }

  predicate InHram(address: Word)
  {
    HRAM_ADDRESS <= address < INTERRUPT_ENABLE_ADDRESS
  }

  predicate InTimer(address: Word)
  {
    DIV_ADDRESS <= address <= TAC_ADDRESS
  }

  predicate InLcdRegisters(address: Word)
  {
    LCD_CONTROL_ADDRESS <= address <= WINDOW_X_ADDRESS
  }

  predicate InCartridge(address: Word)
  {
    address < VRAM_ADDRESS || EXTERNAL_RAM_ADDRESS <= address < WRAM_ADDRESS
  }

  predicate BootRomMapped(s: Bus, address: Word)
  {
    address <= 0xFF && s.bootRomEnabled
  }

  function PpuRead(s: Bus, address: Word): bv8
    requires BusInv(s)
  {
    P.ReadOf(s.video.regs, s.video.vram, s.video.oam, address)
  }

  /** Both holders of IF take the value `f`. */
  function WithIf(s: Bus, f: bv8): (r: Bus)
    ensures BusInv(s) ==> BusInv(r)
  {
    s.(video := s.video.(regs := s.video.regs.(iff := f)), timer := s.timer.(iff := f))
  }

  /** `ppu.Write`: a PPU register, VRAM or OAM; an LYC write may request an interrupt, which lands in IF. */
  function PpuWritten(s: Bus, address: Word, v: bv8): (r: Bus)
    requires BusInv(s)
    ensures BusInv(r)
  {
    var regs := P.Written(s.video.regs, address, v);
    WithIf(s.(video := Video(regs, P.VramWritten(s.video.vram, address, v), P.OamWritten(s.video.oam, address, v))),
           regs.iff)
  }

  /** `Read`: the decoder, case by case in the order of the Go `switch`. */
  function BusRead(s: Bus, address: Word): Outcome<bv8>
    requires BusInv(s)
  {
    if BootRomMapped(s, address) then Ok(s.bootRom[address])
    else if address < VRAM_ADDRESS then C.CartRead(s.cart, address)
    else if address < EXTERNAL_RAM_ADDRESS then Ok(PpuRead(s, address))
    else if address < WRAM_ADDRESS then C.CartRead(s.cart, address)
    else if address < OAM_ADDRESS then Ok(s.blocks.wram[WramOffset(address)])
    else if address < NOT_USABLE_ADDRESS then Ok(PpuRead(s, address))
    else if address < IO_REGISTERS_ADDRESS then Ok(0xFF)
    else if InTimer(address) then T.ReadOf(s.timer, address)
    else if address == INTERRUPT_FLAG_ADDRESS then Ok(IF(s))
    else if InLcdRegisters(address) then Ok(PpuRead(s, address))
    else if address < HRAM_ADDRESS then Ok(s.blocks.io[address - IO_REGISTERS_ADDRESS])
    else if address < INTERRUPT_ENABLE_ADDRESS then Ok(s.blocks.hram[address - HRAM_ADDRESS])
    else Ok(s.ie)
  }

  /** A cartridge write; only the controller can panic. */
  function CartWritten(s: Bus, address: Word, v: bv8): (r: Outcome<Bus>)
    requires BusInv(s)
    ensures r.Ok? ==> BusInv(r.value)
  {
    var c := C.CartWritten(s.cart, address, v);
    if c.Ok? then Ok(s.(cart := c.value)) else Fatal
  }

  /**
   * `Write`, case by case in the order of the Go `switch`.  Writing 0x81 to
   * 0xFF02 only prints the serial byte; writing a nonzero value to 0xFF50
   * while the boot ROM is mapped unmaps it and stores nothing.
   */
  function BusWritten(s: Bus, address: Word, v: bv8): (r: Outcome<Bus>)
    requires BusInv(s)
    ensures r.Ok? ==> BusInv(r.value)
    ensures r.Fatal? ==> InCartridge(address)
  {
    if address < VRAM_ADDRESS then CartWritten(s, address, v)
    else if address < EXTERNAL_RAM_ADDRESS then Ok(PpuWritten(s, address, v))
    else if address < WRAM_ADDRESS then CartWritten(s, address, v)
    else if address < OAM_ADDRESS then
      Ok(s.(blocks := s.blocks.(wram := s.blocks.wram[WramOffset(address) := v])))
    else if address < NOT_USABLE_ADDRESS then Ok(PpuWritten(s, address, v))
    else if address < IO_REGISTERS_ADDRESS then Ok(s)
    else if address == SERIAL_TRANSFER_ADDRESS && v == 0x81 then Ok(s)
    else if InTimer(address) then Ok(s.(timer := T.Written(s.timer, address, v)))
    else if address == INTERRUPT_FLAG_ADDRESS then Ok(WithIf(s, v))
    else if InLcdRegisters(address) then Ok(PpuWritten(s, address, v))
    else if address == BOOT_ROM_CONTROL_ADDRESS && s.bootRomEnabled && v != 0 then Ok(s.(bootRomEnabled := false))
    else if address < HRAM_ADDRESS then
      Ok(s.(blocks := s.blocks.(io := s.blocks.io[address - IO_REGISTERS_ADDRESS := v])))
    else if address < INTERRUPT_ENABLE_ADDRESS then
      Ok(s.(blocks := s.blocks.(hram := s.blocks.hram[address - HRAM_ADDRESS := v])))
    else Ok(s.(ie := v))
  }

  /** `ReadWord`: little-endian, the high byte at `address + 1` wrapping past 0xFFFF. */
  function WordRead(s: Bus, address: Word): (r: Outcome<Word>)
    requires BusInv(s)
    ensures r.Ok? <==> BusRead(s, address).Ok? && BusRead(s, Wrap16(address + 1)).Ok?
    ensures r.Ok? ==> Lo(r.value) == BusRead(s, address).value && Hi(r.value) == BusRead(s, Wrap16(address + 1)).value
  {
    var lo := BusRead(s, address);
    var hi := BusRead(s, Wrap16(address + 1));
    if lo.Ok? && hi.Ok? then
      HiLoJoin(hi.value, lo.value);
      Ok(Join(hi.value, lo.value))
    else Fatal
  }

  /** `WriteWord`: the low byte at `address`, then the high byte at `address + 1`. */
  function WordWritten(s: Bus, address: Word, v: Word): (r: Outcome<Bus>)
    requires BusInv(s)
    ensures r.Ok? ==> BusInv(r.value)
  {
    var first := BusWritten(s, address, Lo(v));
    if first.Fatal? then Fatal else BusWritten(first.value, Wrap16(address + 1), Hi(v))
  }

  // ----- properties of the decoder -----

  /**
   * While the boot ROM is mapped it answers 0x0000-0x00FF; otherwise, and
   * for the rest of 0x0000-0x7FFF, the cartridge answers.
   */
  lemma BootRomOverlay(s: Bus, address: Word)
    requires BusInv(s) && address < VRAM_ADDRESS
    ensures address <= 0xFF && s.bootRomEnabled ==> BusRead(s, address) == Ok(s.bootRom[address])
    ensures address > 0xFF || !s.bootRomEnabled ==> BusRead(s, address) == C.CartRead(s.cart, address)
  {
  }

  /**
   * A nonzero write to 0xFF50 unmaps the boot ROM and changes nothing else;
   * a zero write goes to the I/O block and leaves it mapped.
   */
  lemma BootRomLatch(s: Bus, v: bv8)
    requires BusInv(s) && s.bootRomEnabled
    ensures v != 0 ==> BusWritten(s, BOOT_ROM_CONTROL_ADDRESS, v) == Ok(s.(bootRomEnabled := false))
    ensures v == 0 ==> BusWritten(s, BOOT_ROM_CONTROL_ADDRESS, v) == Ok(s.(blocks := s.blocks.(io := s.blocks.io[0x50 := 0])))
  {
  }

  /** No bus write maps the boot ROM again once it is off. */
  lemma BootRomStaysOff(s: Bus, address: Word, v: bv8)
    requires BusInv(s) && BusWritten(s, address, v).Ok?
    ensures BusWritten(s, address, v).value.bootRomEnabled ==> s.bootRomEnabled
  {
  }

  /**
   * Writes to 0x0000-0x7FFF and 0xA000-0xBFFF go to the cartridge and
   * change nothing else, even under the mapped boot ROM.
   */
  lemma CartridgeWrites(s: Bus, address: Word, v: bv8)
    requires BusInv(s) && InCartridge(address)
    ensures var c := C.CartWritten(s.cart, address, v);
      && (BusWritten(s, address, v).Ok? <==> c.Ok?)
      && (c.Ok? ==> BusWritten(s, address, v) == Ok(s.(cart := c.value)))
  {
  }

  /** Echo RAM: 0xE000-0xFDFF reads and writes the work-RAM byte 0x2000 below. */
  lemma EchoRam(s: Bus, address: Word, v: bv8)
    requires BusInv(s) && ECHO_RAM_ADDRESS <= address < OAM_ADDRESS
    ensures BusRead(s, address) == BusRead(s, address - 0x2000)
    ensures BusWritten(s, address, v) == BusWritten(s, address - 0x2000, v)
  {
    assert WramOffset(address) == WramOffset(address - 0x2000);
  }

  /** 0xFEA0-0xFEFF reads 0xFF and ignores writes. */
  lemma UnusableRegion(s: Bus, address: Word, v: bv8)
    requires BusInv(s) && NOT_USABLE_ADDRESS <= address < IO_REGISTERS_ADDRESS
    ensures BusRead(s, address) == Ok(0xFF)
    ensures BusWritten(s, address, v) == Ok(s)
  {
  }

  /**
   * A work-RAM (or echo) write is read back at the same address, and every
   * work-RAM address with a different offset keeps its byte.
   */
  lemma WramRoundTrip(s: Bus, address: Word, v: bv8, other: Word)
    requires BusInv(s) && InWram(address)
    ensures BusWritten(s, address, v).Ok?
    ensures BusRead(BusWritten(s, address, v).value, address) == Ok(v)
    ensures InWram(other) && WramOffset(other) != WramOffset(address) ==>
              BusRead(BusWritten(s, address, v).value, other) == BusRead(s, other)
  {
  }

  /** A high-RAM write (0xFF80-0xFFFE) is read back, and no other high-RAM byte changes. */
  lemma HramRoundTrip(s: Bus, address: Word, v: bv8, other: Word)
    requires BusInv(s) && InHram(address)
    ensures BusWritten(s, address, v).Ok?
    ensures BusRead(BusWritten(s, address, v).value, address) == Ok(v)
    ensures InHram(other) && other != address ==> BusRead(BusWritten(s, address, v).value, other) == BusRead(s, other)
  {
  }

  /** 0xFF04-0xFF07 are the timer's, for reads and writes. */
  lemma TimerRouting(s: Bus, address: Word, v: bv8)
    requires BusInv(s) && InTimer(address)
    ensures BusRead(s, address) == T.ReadOf(s.timer, address)
    ensures BusWritten(s, address, v) == Ok(s.(timer := T.Written(s.timer, address, v)))
  {
  }

  /** 0xFF0F and 0xFFFF are IF and IE: all eight bits are stored and read back, nothing else changes. */
  lemma InterruptRegisters(s: Bus, v: bv8)
    requires BusInv(s)
    ensures BusWritten(s, INTERRUPT_FLAG_ADDRESS, v) == Ok(WithIf(s, v))
    ensures BusRead(WithIf(s, v), INTERRUPT_FLAG_ADDRESS) == Ok(v)
    ensures BusWritten(s, INTERRUPT_ENABLE_ADDRESS, v) == Ok(s.(ie := v))
    ensures BusRead(s.(ie := v), INTERRUPT_ENABLE_ADDRESS) == Ok(v)
  {
  }

  /**
   * 0xFF40-0xFF4B are the PPU's.  0xFF46 (DMA) is among them, and the PPU
   * ignores it: in this layout a DMA write has no effect at all.
   */
  lemma LcdRouting(s: Bus, address: Word, v: bv8)
    requires BusInv(s) && InLcdRegisters(address)
    ensures BusRead(s, address) == Ok(P.ReadOf(s.video.regs, s.video.vram, s.video.oam, address))
    ensures BusWritten(s, address, v) == Ok(PpuWritten(s, address, v))
    ensures BusWritten(s, DMA_ADDRESS, v) == Ok(s)
  {
    assert P.Written(s.video.regs, DMA_ADDRESS, v) == s.video.regs;
  }

  /** 0xFE00-0xFE9F is OAM: a write replaces that one OAM byte and changes nothing else. */
  lemma OamWrites(s: Bus, address: Word, v: bv8)
    requires BusInv(s) && OAM_ADDRESS <= address < NOT_USABLE_ADDRESS
    ensures BusWritten(s, address, v) == Ok(s.(video := s.video.(oam := s.video.oam[address - OAM_ADDRESS := v])))
  {
    P.MemoryRoundTrip(s.video.regs, s.video.vram, s.video.oam, address, v);
  }

  /** Writing 0x81 to 0xFF02 stores nothing; any other value lands in the I/O block. */
  lemma SerialTransfer(s: Bus, v: bv8)
    requires BusInv(s)
    ensures v == 0x81 ==> BusWritten(s, SERIAL_TRANSFER_ADDRESS, v) == Ok(s)
    ensures v != 0x81 ==> BusWritten(s, SERIAL_TRANSFER_ADDRESS, v) == Ok(s.(blocks := s.blocks.(io := s.blocks.io[2 := v])))
  {
  }

  /** Work RAM that is all zero reads 0 at every work-RAM and echo address. */
  lemma ZeroedWram(s: Bus, address: Word)
    requires BusInv(s) && InWram(address)
    requires forall i :: 0 <= i < WRAM_SIZE ==> s.blocks.wram[i] == 0
    ensures BusRead(s, address) == Ok(0)
  {
    assert s.blocks.wram[WramOffset(address)] == 0;
  }

  /** A RAM-backed address: work RAM, its echo, or high RAM. */
  predicate RamBacked(address: Word)
  {
    InWram(address) || InHram(address)
  }

  /** Bytes written at one RAM-backed address stay there while another RAM-backed address is written. */
  lemma RamWriteKeeps(s: Bus, a: Word, b: Word, v: bv8)
    requires BusInv(s) && RamBacked(a) && RamBacked(b)
    requires (InWram(a) && InWram(b)) ==> WramOffset(a) != WramOffset(b)
    requires a != b
    ensures BusWritten(s, b, v).Ok?
    ensures BusRead(BusWritten(s, b, v).value, a) == BusRead(s, a)
  {
  }

  /** WriteWord then ReadWord returns the word when both of its bytes are RAM-backed. */
  lemma {:induction false} WordRoundTrip(s: Bus, address: Word, v: Word)
    requires BusInv(s) && RamBacked(address) && RamBacked(Wrap16(address + 1))
    ensures WordWritten(s, address, v).Ok?
    ensures WordRead(WordWritten(s, address, v).value, address) == Ok(v)
  {
    var next := Wrap16(address + 1);
    var s1 := BusWritten(s, address, Lo(v)).value;
    var s2 := BusWritten(s1, next, Hi(v)).value;
    assert BusRead(s1, address) == Ok(Lo(v)) by {
      if InWram(address) {
        WramRoundTrip(s, address, Lo(v), address);
      } else {
        HramRoundTrip(s, address, Lo(v), address);
      }
    }
    assert BusRead(s2, next) == Ok(Hi(v)) by {
      if InWram(next) {
        WramRoundTrip(s1, next, Hi(v), next);
      } else {
        HramRoundTrip(s1, next, Hi(v), next);
      }
    }
    assert (InWram(address) && InWram(next)) ==> WramOffset(address) != WramOffset(next);
    RamWriteKeeps(s1, address, next, Hi(v));
    var w := WordRead(s2, address).value;
    SameHalves(w, v);
  }

  // ----- the bus object -----

  class Mmu {
    const cartridge: C.Cartridge
    const ppu: P.Ppu
    const timer: T.Timer
    const interrupts: Interrupts

    const wram: Ram
    const hram: Ram
    const io: IoRegisters

    const bootROM: Rom
    var bootROMEnabled: bool

    /**
     * The collaborators share one interrupt controller, and no two of the
     * objects the bus writes through are the same.
     */
    predicate Valid()
      reads ppu, cartridge.Repr
    {
      && cartridge.Valid() && ppu.Valid() && interrupts.Valid()
      && ppu.interrupts == interrupts && timer.interrupts == interrupts
      && wram.data.Length == WRAM_SIZE && hram.data.Length == HRAM_SIZE && io.data.Length == IO_SIZE
      && |bootROM.data| == 0x100
      && ppu.vram.data != ppu.oam.data
      && cartridge.Repr !! {this, ppu, timer, interrupts.interruptFlag, interrupts.interruptEnable,
                            ppu.vram.data, ppu.oam.data, wram.data, hram.data, io.data}
      && wram.data != ppu.vram.data && wram.data != ppu.oam.data && wram.data != hram.data && wram.data != io.data
      && hram.data != ppu.vram.data && hram.data != ppu.oam.data && hram.data != io.data
      && io.data != ppu.vram.data && io.data != ppu.oam.data
    }

    function View(): (s: Bus)
      reads this, cartridge.Repr, ppu, ppu.vram.data, ppu.oam.data, timer
      reads interrupts.interruptFlag, interrupts.interruptEnable, wram.data, hram.data, io.data
      requires Valid()
      ensures BusInv(s)
    {
      Bus(cartridge.View(), Video(ppu.View(), ppu.vram.data[..], ppu.oam.data[..]), timer.View(), interrupts.IE(),
          Blocks(wram.data[..], hram.data[..], io.data[..]), bootROM.data, bootROMEnabled)
    }

    /** `NewMMU`: zeroed work RAM, high RAM and I/O block, and the boot ROM mapped. */
    constructor (cart: C.Cartridge, ppu: P.Ppu, timer: T.Timer, interrupts: Interrupts)
      requires cart.Valid() && ppu.Valid() && interrupts.Valid()
      requires ppu.interrupts == interrupts && timer.interrupts == interrupts
      requires ppu.vram.data != ppu.oam.data
      requires cart.Repr !! {ppu, timer, interrupts.interruptFlag, interrupts.interruptEnable, ppu.vram.data, ppu.oam.data}
      ensures Valid() && bootROMEnabled && bootROM.data == BOOT_ROM
      ensures cartridge == cart && this.ppu == ppu && this.timer == timer && this.interrupts == interrupts
      ensures fresh(wram.data) && fresh(hram.data) && fresh(io.data)
      ensures forall i :: 0 <= i < WRAM_SIZE ==> wram.data[i] == 0
    {
      cartridge := cart;
      this.ppu := ppu;
      this.timer := timer;
      this.interrupts := interrupts;
      wram := new Ram(WRAM_SIZE);
      hram := new Ram(HRAM_SIZE);
      io := new IoRegisters();
      BootRomLayout();
      bootROM := new Rom(BOOT_ROM);
      bootROMEnabled := true;
    }

    function Read(address: Word): Outcome<bv8>
      reads this, cartridge.Repr, ppu, ppu.vram.data, ppu.oam.data, timer
      reads interrupts.interruptFlag, interrupts.interruptEnable, wram.data, hram.data, io.data
      requires Valid()
    {
      BusRead(View(), address)
    }

    function ReadWord(address: Word): Outcome<Word>
      reads this, cartridge.Repr, ppu, ppu.vram.data, ppu.oam.data, timer
      reads interrupts.interruptFlag, interrupts.interruptEnable, wram.data, hram.data, io.data
      requires Valid()
    {
      WordRead(View(), address)
    }

    /** `Write`; `ok` is false where Go panics (a cartridge controller's panic). */
    method Write(address: Word, v: bv8) returns (ok: bool)
      requires Valid()
      modifies this, cartridge.Repr, ppu, ppu.vram.data, ppu.oam.data, timer
      modifies interrupts.interruptFlag, interrupts.interruptEnable, wram.data, hram.data, io.data
      ensures Valid() && ppu.vram == old(ppu.vram) && ppu.oam == old(ppu.oam)
      ensures ok == BusWritten(old(View()), address, v).Ok?
      ensures ok ==> View() == BusWritten(old(View()), address, v).value
    {
      if address < VRAM_ADDRESS || (EXTERNAL_RAM_ADDRESS <= address < WRAM_ADDRESS) {
        ok := WriteCartridge(address, v);
      } else if address < EXTERNAL_RAM_ADDRESS || (OAM_ADDRESS <= address < NOT_USABLE_ADDRESS) {
        WritePpu(address, v);
        ok := true;
      } else if address < OAM_ADDRESS {
        WriteWram(address, v);
        ok := true;
      } else if address < IO_REGISTERS_ADDRESS {
        ok := true;
      } else {
        WriteHigh(address, v);
        ok := true;
      }
    }

    method WriteCartridge(address: Word, v: bv8) returns (ok: bool)
      requires Valid() && InCartridge(address)
      modifies cartridge.Repr
      ensures Valid()
      ensures ok == BusWritten(old(View()), address, v).Ok?
      ensures ok ==> View() == BusWritten(old(View()), address, v).value
    {
      ok := cartridge.Write(address, v);
    }

    method WritePpu(address: Word, v: bv8)
      requires Valid()
      modifies ppu, ppu.vram.data, ppu.oam.data, interrupts.interruptFlag
      ensures Valid() && ppu.vram == old(ppu.vram) && ppu.oam == old(ppu.oam)
      ensures View() == PpuWritten(old(View()), address, v)
    {
      ppu.Write(address, v);
    }

    method WriteWram(address: Word, v: bv8)
      requires Valid() && InWram(address)
      modifies wram.data
      ensures Valid()
      ensures View() == BusWritten(old(View()), address, v).value
    {
      wram.Write(WramOffset(address), v);
    }

    /** The cases of Write from 0xFF00 up. */
    method WriteHigh(address: Word, v: bv8)
      requires Valid() && IO_REGISTERS_ADDRESS <= address
      modifies this, ppu, ppu.vram.data, ppu.oam.data, timer
      modifies interrupts.interruptFlag, interrupts.interruptEnable, hram.data, io.data
      ensures Valid() && ppu.vram == old(ppu.vram) && ppu.oam == old(ppu.oam)
      ensures View() == BusWritten(old(View()), address, v).value
    {
      if address == SERIAL_TRANSFER_ADDRESS && v == 0x81 {
        // The serial byte at 0xFF01 is printed; printing is not modelled.
      } else if InTimer(address) {
        WriteTimer(address, v);
      } else if address == INTERRUPT_FLAG_ADDRESS || address == INTERRUPT_ENABLE_ADDRESS {
        WriteInterrupts(address, v);
      } else if InLcdRegisters(address) {
        WritePpu(address, v);
      } else if address < HRAM_ADDRESS {
        WriteIo(address, v);
      } else {
        WriteHram(address, v);
      }
    }

    method WriteTimer(address: Word, v: bv8)
      requires Valid() && InTimer(address)
      modifies timer
      ensures Valid()
      ensures View() == BusWritten(old(View()), address, v).value
    {
      timer.Write(address, v);
    }

    method WriteInterrupts(address: Word, v: bv8)
      requires Valid() && (address == INTERRUPT_FLAG_ADDRESS || address == INTERRUPT_ENABLE_ADDRESS)
      modifies interrupts.interruptFlag, interrupts.interruptEnable
      ensures Valid()
      ensures View() == BusWritten(old(View()), address, v).value
    {
      var _ := interrupts.Write(address, v);
    }

    /** 0xFF00-0xFF7F outside the timer, IF and the LCD registers: the boot-ROM latch or the I/O block. */
    method WriteIo(address: Word, v: bv8)
      requires Valid() && IO_REGISTERS_ADDRESS <= address < HRAM_ADDRESS
      requires !(address == SERIAL_TRANSFER_ADDRESS && v == 0x81) && !InTimer(address)
      requires address != INTERRUPT_FLAG_ADDRESS && !InLcdRegisters(address)
      modifies this, io.data
      ensures Valid()
      ensures View() == BusWritten(old(View()), address, v).value
    {
      if address == BOOT_ROM_CONTROL_ADDRESS && bootROMEnabled && v != 0 {
        bootROMEnabled := false;
      } else {
        io.Write(address - IO_REGISTERS_ADDRESS, v);
      }
    }

    method WriteHram(address: Word, v: bv8)
      requires Valid() && InHram(address)
      modifies hram.data
      ensures Valid()
      ensures View() == BusWritten(old(View()), address, v).value
    {
      hram.Write(address - HRAM_ADDRESS, v);
    }

    /** `WriteWord`: the low byte first, then the high byte at `address + 1`. */
    method WriteWord(address: Word, v: Word) returns (ok: bool)
      requires Valid()
      modifies this, cartridge.Repr, ppu, ppu.vram.data, ppu.oam.data, timer
      modifies interrupts.interruptFlag, interrupts.interruptEnable, wram.data, hram.data, io.data
      ensures Valid()
      ensures ok == WordWritten(old(View()), address, v).Ok?
      ensures ok ==> View() == WordWritten(old(View()), address, v).value
    {
      var hi := Hi(v);
      var lo := Lo(v);
      ghost var s0 := View();
      ok := Write(address, lo);
      if !ok {
        return;
      }
      ghost var s1 := View();
      assert s1 == BusWritten(s0, address, lo).value;
      ok := Write(Wrap16(address + 1), hi);
    }

    /** Changes only the flag. */
    method SetBootRomEnabled(enabled: bool)
      requires Valid()
      modifies this
      ensures Valid()
      ensures View() == old(View()).(bootRomEnabled := enabled)
    {
      bootROMEnabled := enabled;
    }
  }
}
