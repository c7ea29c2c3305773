/**
 * mmu/mmu.go: the later bus.  It decodes addresses exactly as mmu.go does,
 * with two additions: 0xFF00 is the joypad register, and a write to 0xFF46
 * starts an OAM DMA that copies 0xA0 bytes from `v * 0x100` into
 * 0xFE00-0xFE9F, one bus read and one bus write per byte.  The other
 * collaborators it names (the PPU, timer, interrupt controller and
 * cartridge of the later layout) are not part of this model; the root
 * ones stand in for them, so every other address behaves as in `Mmu`.
 */
module MmuPackage {
  import opened Bytes
  import J = Joypad
  import M = Mmu
  import C = Cartridge
  import P = Ppu
  import T = Timer
  import opened Interrupts
  import opened BootRom

  const JOYPAD_ADDRESS: Word := 0xFF00
  /** Bytes copied by one OAM DMA: the whole of OAM. */
  const DMA_LENGTH: nat := 0xA0

  /** The decoder's state with the joypad's selection register and key state. */
  datatype State = State(bus: M.Bus, joyp: bv8, buttons: bv8)

  predicate Inv(n: State)
  {
    M.BusInv(n.bus)
  }

  /** `Read`: the joypad at 0xFF00, everything else as in the root decoder. */
  function ReadOf(n: State, address: Word): Outcome<bv8>
    requires Inv(n)
  {
    if address == JOYPAD_ADDRESS then Ok(J.JoypRead(n.joyp, n.buttons))
    else M.BusRead(n.bus, address)
  }

  /** A write that the root decoder handles. */
  function DecoderWritten(n: State, address: Word, v: bv8): (r: Outcome<State>)
    requires Inv(n)
    ensures r.Ok? ==> Inv(r.value) && r.value.joyp == n.joyp && r.value.buttons == n.buttons
  {
    var w := M.BusWritten(n.bus, address, v);
    if w.Ok? then Ok(n.(bus := w.value)) else Fatal
  }

  /** `n` with its OAM replaced by `oam`. */
  function WithOam(n: State, oam: seq<bv8>): (r: State)
    requires Inv(n) && |oam| == DMA_LENGTH
    ensures Inv(r) && r.bus.video.oam == oam
  {
    n.(bus := n.bus.(video := n.bus.video.(oam := oam)))
  }

  /** `uint16(v) * 0x100`: the first source address of a DMA. */
  function DmaSource(v: bv8): (src: Word)
    ensures src % 0x100 == 0 && src <= 0xFF00
  {
    var x := v as int;
    assert x * 0x100 <= 0xFF * 0x100;
    x * 0x100
  }

  /** The read of DMA iteration `i` from `src`. */
  function DmaRead(n: State, src: Word, i: nat): Outcome<bv8>
    requires Inv(n) && src <= 0xFF00 && i < DMA_LENGTH
  {
    ReadOf(n, src + i)
  }

  /**
   * OAM after the first `k` iterations of `DmaTransfer`.  Iteration `i`
   * reads the bus at `src + i`, as the earlier iterations left it, and
   * writes what it read to `0xFE00 + i`, which stores it in OAM byte `i`
   * and changes nothing else (`DmaStepNext` proves that this is what
   * `Write` does).
   */
  function DmaSteps(n: State, src: Word, k: nat): (r: Outcome<seq<bv8>>)
    requires Inv(n) && src <= 0xFF00 && k <= DMA_LENGTH
    ensures r.Ok? ==> |r.value| == DMA_LENGTH
    decreases k
  {
    if k == 0 then Ok(n.bus.video.oam)
    else
      var prev := DmaSteps(n, src, k - 1);
      if prev.Fatal? then Fatal
      else
        var b := DmaRead(WithOam(n, prev.value), src, k - 1);
        if b.Fatal? then Fatal else Ok(prev.value[k - 1 := b.value])
  }

  /** `DmaTransfer(v)`. */
  function Dma(n: State, v: bv8): (r: Outcome<State>)
    requires Inv(n)
    ensures r.Ok? ==> Inv(r.value)
  {
    var oam := DmaSteps(n, DmaSource(v), DMA_LENGTH);
    if oam.Ok? then Ok(WithOam(n, oam.value)) else Fatal
  }

  /** `Write`: the joypad at 0xFF00, DMA at 0xFF46, everything else as in the root decoder. */
  function Written(n: State, address: Word, v: bv8): (r: Outcome<State>)
    requires Inv(n)
    ensures r.Ok? ==> Inv(r.value)
  {
    if address == JOYPAD_ADDRESS then Ok(n.(joyp := J.JoypWritten(n.joyp, v)))
    else if address == M.DMA_ADDRESS then Dma(n, v)
    else DecoderWritten(n, address, v)
  }

  /** `ReadWord`: little-endian, the high byte at `address + 1` wrapping past 0xFFFF. */
  function WordRead(n: State, address: Word): (r: Outcome<Word>)
    requires Inv(n)
    ensures r.Ok? <==> ReadOf(n, address).Ok? && ReadOf(n, Wrap16(address + 1)).Ok?
    ensures r.Ok? ==> Lo(r.value) == ReadOf(n, address).value && Hi(r.value) == ReadOf(n, Wrap16(address + 1)).value
  {
    var lo := ReadOf(n, address);
    var hi := ReadOf(n, Wrap16(address + 1));
    if lo.Ok? && hi.Ok? then
      HiLoJoin(hi.value, lo.value);
      Ok(Join(hi.value, lo.value))
    else Fatal
  }

  /** `WriteWord`: the low byte at `address`, then the high byte at `address + 1`. */
  function WordWritten(n: State, address: Word, v: Word): (r: Outcome<State>)
    requires Inv(n)
    ensures r.Ok? ==> Inv(r.value)
  {
    var first := Written(n, address, Lo(v));
    if first.Fatal? then Fatal else Written(first.value, Wrap16(address + 1), Hi(v))
  }

  // ----- properties of the decoder -----

  /** 0xFF00 reads and writes go to the joypad register and nowhere else. */
  lemma JoypadRouting(n: State, v: bv8)
    requires Inv(n)
    ensures ReadOf(n, JOYPAD_ADDRESS) == Ok(J.JoypRead(n.joyp, n.buttons))
    ensures Written(n, JOYPAD_ADDRESS, v) == Ok(n.(joyp := J.JoypWritten(n.joyp, v)))
  {
  }

  /**
   * Writing 0x81 to 0xFF02 stores nothing, other values land in the I/O
   * block; writing 0 to 0xFF50 is stored there too and leaves the boot ROM
   * mapped.
   */
  lemma SerialAndBootControl(n: State, v: bv8)
    requires Inv(n)
    ensures v == 0x81 ==> Written(n, M.SERIAL_TRANSFER_ADDRESS, v) == Ok(n)
    ensures v != 0x81 ==>
              Written(n, M.SERIAL_TRANSFER_ADDRESS, v) == Ok(n.(bus := n.bus.(blocks := n.bus.blocks.(io := n.bus.blocks.io[2 := v]))))
    ensures Written(n, M.BOOT_ROM_CONTROL_ADDRESS, 0) ==
              Ok(n.(bus := n.bus.(blocks := n.bus.blocks.(io := n.bus.blocks.io[0x50 := 0]))))
    ensures Written(n, M.BOOT_ROM_CONTROL_ADDRESS, 0).value.bus.bootRomEnabled == n.bus.bootRomEnabled
  {
  }

  /** Echo RAM mirrors work RAM through `address & 0x1FFF`, for reads and writes. */
  lemma EchoRam(n: State, address: Word, v: bv8)
    requires Inv(n) && M.ECHO_RAM_ADDRESS <= address < M.OAM_ADDRESS
    ensures ReadOf(n, address) == ReadOf(n, address - 0x2000)
    ensures Written(n, address, v) == Written(n, address - 0x2000, v)
  {
    M.EchoRam(n.bus, address, v);
  }

  /** 0xFEA0-0xFEFF reads 0xFF and ignores writes. */
  lemma UnusableRegion(n: State, address: Word, v: bv8)
    requires Inv(n) && M.NOT_USABLE_ADDRESS <= address < M.IO_REGISTERS_ADDRESS
    ensures ReadOf(n, address) == Ok(0xFF)
    ensures Written(n, address, v) == Ok(n)
  {
    M.UnusableRegion(n.bus, address, v);
  }

  /** WriteWord then ReadWord returns the word when both of its bytes are RAM-backed. */
  lemma {:induction false} WordRoundTrip(n: State, address: Word, v: Word)
    requires Inv(n) && M.RamBacked(address) && M.RamBacked(Wrap16(address + 1))
    ensures WordWritten(n, address, v).Ok?
    ensures WordRead(WordWritten(n, address, v).value, address) == Ok(v)
  {
    M.WordRoundTrip(n.bus, address, v);
    var s1 := M.BusWritten(n.bus, address, Lo(v)).value;
    assert Written(n, address, Lo(v)) == Ok(n.(bus := s1));
    var s2 := M.BusWritten(s1, Wrap16(address + 1), Hi(v)).value;
    assert WordWritten(n, address, v) == Ok(n.(bus := s2));
    assert M.WordWritten(n.bus, address, v) == Ok(s2);
  }

  // ----- OAM DMA -----

  /** OAM reads its own bytes; no other address depends on OAM. */
  lemma OamRead(n: State, oam: seq<bv8>, address: Word)
    requires Inv(n) && |oam| == DMA_LENGTH
    ensures M.OAM_ADDRESS <= address < M.NOT_USABLE_ADDRESS ==>
              ReadOf(WithOam(n, oam), address) == Ok(oam[address - M.OAM_ADDRESS])
    ensures !(M.OAM_ADDRESS <= address < M.NOT_USABLE_ADDRESS) ==>
              ReadOf(WithOam(n, oam), address) == ReadOf(n, address)
  {
  }

  /**
   * After `k` DMA iterations from `src`: OAM bytes below `k` hold what the
   * bus read at `src + i` BEFORE the DMA began, the rest are untouched.
   */
  predicate Copied(n: State, src: Word, k: nat, oam: seq<bv8>)
    requires Inv(n) && src <= 0xFF00 && k <= DMA_LENGTH
  {
    && |oam| == DMA_LENGTH
    && (forall i :: 0 <= i < k ==> DmaRead(n, src, i) == Ok(oam[i]))
    && (forall i :: k <= i < DMA_LENGTH ==> oam[i] == n.bus.video.oam[i])
  }

  /** Iteration `k - 1` reads the same byte as it would have before the DMA began. */
  lemma DmaReadUnchanged(n: State, src: Word, k: nat, oam: seq<bv8>)
    requires Inv(n) && src <= 0xFF00 && src % 0x100 == 0 && 0 < k <= DMA_LENGTH
    requires Copied(n, src, k - 1, oam)
    ensures DmaRead(WithOam(n, oam), src, k - 1) == DmaRead(n, src, k - 1)
  {
    var a := src + k - 1;
    OamRead(n, oam, a);
    if M.OAM_ADDRESS <= a < M.NOT_USABLE_ADDRESS {
      assert src == M.OAM_ADDRESS;
      assert oam[k - 1] == n.bus.video.oam[k - 1];
    }
  }

  /** Iteration `k - 1` stores the byte it read in OAM byte `k - 1`, and nowhere else. */
  lemma DmaWriteStep(n: State, src: Word, k: nat, oam: seq<bv8>, b: bv8)
    requires Inv(n) && src <= 0xFF00 && 0 < k <= DMA_LENGTH
    requires Copied(n, src, k - 1, oam) && DmaRead(n, src, k - 1) == Ok(b)
    ensures Copied(n, src, k, oam[k - 1 := b])
  {
  }

  /**
   * The DMA loop, step by step: it succeeds iff every source read does, and
   * then only OAM has changed, to the source bytes as they were before the
   * copy.  That holds for every source page, OAM itself (page 0xFE)
   * included, because byte `i` is read before it is overwritten.
   */
  lemma {:induction false} DmaStepsCopy(n: State, src: Word, k: nat)
    requires Inv(n) && src <= 0xFF00 && src % 0x100 == 0 && k <= DMA_LENGTH
    ensures DmaSteps(n, src, k).Ok? <==> forall i :: 0 <= i < k ==> DmaRead(n, src, i).Ok?
    ensures DmaSteps(n, src, k).Ok? ==> Copied(n, src, k, DmaSteps(n, src, k).value)
  {
    if k > 0 {
      DmaStepsCopy(n, src, k - 1);
      var prev := DmaSteps(n, src, k - 1);
      if prev.Fatal? {
        assert DmaSteps(n, src, k).Fatal?;
      } else {
        DmaReadUnchanged(n, src, k, prev.value);
        var b := DmaRead(n, src, k - 1);
        if b.Fatal? {
          assert DmaSteps(n, src, k).Fatal?;
        } else {
          DmaWriteStep(n, src, k, prev.value, b.value);
          assert DmaSteps(n, src, k) == Ok(prev.value[k - 1 := b.value]);
        }
      }
    }
  }

  /**
   * Write(0xFF46, v) copies the 0xA0 bytes at `v * 0x100` into OAM: it
   * fails iff one of those reads fails, and otherwise OAM byte `i` is the
   * pre-DMA byte at `v * 0x100 + i`, read back at `0xFE00 + i`, and
   * nothing but OAM has changed.
   */
  lemma {:induction false} DmaCopiesSource(n: State, v: bv8)
    requires Inv(n)
    ensures Written(n, M.DMA_ADDRESS, v).Ok? <==> forall i :: 0 <= i < DMA_LENGTH ==> DmaRead(n, DmaSource(v), i).Ok?
    ensures Written(n, M.DMA_ADDRESS, v).Ok? ==>
              var m := Written(n, M.DMA_ADDRESS, v).value;
              && m == WithOam(n, m.bus.video.oam)
              && forall i :: 0 <= i < DMA_LENGTH ==> DmaRead(m, M.OAM_ADDRESS, i) == DmaRead(n, DmaSource(v), i)
  {
    var src := DmaSource(v);
    DmaStepsCopy(n, src, DMA_LENGTH);
    var r := DmaSteps(n, src, DMA_LENGTH);
    if r.Ok? {
      assert Written(n, M.DMA_ADDRESS, v) == Ok(WithOam(n, r.value));
      forall i | 0 <= i < DMA_LENGTH
        ensures DmaRead(WithOam(n, r.value), M.OAM_ADDRESS, i) == DmaRead(n, src, i)
      {
        OamRead(n, r.value, M.OAM_ADDRESS + i);
      }
    }
  }

  /**
   * One more iteration, after `i` of them left `oam`, reads what the bus
   * held at `src + i` before the DMA began, and storing that byte in OAM
   * byte `i` extends the copy by one byte.
   */
  lemma DmaStepNext(n: State, src: Word, i: nat, oam: seq<bv8>)
    requires Inv(n) && src <= 0xFF00 && src % 0x100 == 0 && i < DMA_LENGTH
    requires Copied(n, src, i, oam)
    ensures DmaRead(WithOam(n, oam), src, i) == DmaRead(n, src, i)
    ensures DmaRead(n, src, i).Ok? ==> Copied(n, src, i + 1, oam[i := DmaRead(n, src, i).value])
  {
    DmaReadUnchanged(n, src, i + 1, oam);
    var b := DmaRead(n, src, i);
    if b.Ok? {
      DmaWriteStep(n, src, i + 1, oam, b.value);
    }
  }

  /** The DMA's write of byte `i` through `Write` stores it in OAM byte `i`, cannot fail and changes nothing else. */
  lemma DmaStore(n: State, oam: seq<bv8>, i: nat, b: bv8)
    requires Inv(n) && |oam| == DMA_LENGTH && i < DMA_LENGTH
    ensures Written(WithOam(n, oam), M.OAM_ADDRESS + i, b) == Ok(WithOam(n, oam[i := b]))
  {
    M.OamWrites(WithOam(n, oam).bus, M.OAM_ADDRESS + i, b);
  }

  /** A complete copy is the DMA's result. */
  lemma DmaByCopy(n: State, v: bv8, oam: seq<bv8>)
    requires Inv(n) && Copied(n, DmaSource(v), DMA_LENGTH, oam)
    ensures Dma(n, v) == Ok(WithOam(n, oam))
  {
    var src := DmaSource(v);
    DmaStepsCopy(n, src, DMA_LENGTH);
    var r := DmaSteps(n, src, DMA_LENGTH);
    assert forall j :: 0 <= j < DMA_LENGTH ==> DmaRead(n, src, j) == Ok(r.value[j]) == Ok(oam[j]);
    assert r.value == oam;
  }

  /** One failed source read makes the whole DMA fail. */
  lemma DmaFailedRead(n: State, v: bv8, i: nat)
    requires Inv(n) && i < DMA_LENGTH && DmaRead(n, DmaSource(v), i).Fatal?
    ensures Dma(n, v).Fatal?
  {
    DmaStepsCopy(n, DmaSource(v), DMA_LENGTH);
  }

  // ----- the bus object -----

  class Mmu {
    /** The decoder this layout shares with mmu.go, over the root collaborators. */
    const bus: M.Mmu
    const joypad: J.Joypad
    /** Every object a write may change. */
    const Repr: set<object>

    predicate Valid()
      reads bus.ppu, bus.cartridge.Repr
    {
      && bus.Valid() && joypad !in bus.cartridge.Repr
      && Repr == bus.cartridge.Repr + {bus, bus.ppu, bus.ppu.vram.data, bus.ppu.oam.data, bus.timer,
                                       bus.interrupts.interruptFlag, bus.interrupts.interruptEnable,
                                       bus.wram.data, bus.hram.data, bus.io.data, joypad}
    }

    function View(): (n: State)
      reads bus, bus.cartridge.Repr, bus.ppu, bus.ppu.vram.data, bus.ppu.oam.data, bus.timer
      reads bus.interrupts.interruptFlag, bus.interrupts.interruptEnable, bus.wram.data, bus.hram.data, bus.io.data
      reads joypad
      requires Valid()
      ensures Inv(n)
    {
      State(bus.View(), joypad.joyp, joypad.buttonState)
    }

    /** `NewMMU`: the boot ROM mapped and the memories zeroed, with the joypad at 0xFF00. */
    constructor (cart: C.Cartridge, ppu: P.Ppu, timer: T.Timer, joypad: J.Joypad, interrupts: Interrupts)
      requires cart.Valid() && ppu.Valid() && interrupts.Valid()
      requires ppu.interrupts == interrupts && timer.interrupts == interrupts
      requires ppu.vram.data != ppu.oam.data
      requires cart.Repr !! {ppu, timer, interrupts.interruptFlag, interrupts.interruptEnable, ppu.vram.data, ppu.oam.data}
      requires joypad !in cart.Repr
      ensures Valid() && View().bus.bootRomEnabled && View().bus.bootRom == BOOT_ROM
      ensures bus.cartridge == cart && bus.ppu == ppu && bus.timer == timer && bus.interrupts == interrupts
      ensures this.joypad == joypad
      ensures fresh(bus) && fresh(bus.wram.data) && fresh(bus.hram.data) && fresh(bus.io.data)
    {
      var b := new M.Mmu(cart, ppu, timer, interrupts);
      bus := b;
      this.joypad := joypad;
      Repr := cart.Repr + {b, ppu, ppu.vram.data, ppu.oam.data, timer, interrupts.interruptFlag,
                           interrupts.interruptEnable, b.wram.data, b.hram.data, b.io.data, joypad};
    }

    function Read(address: Word): Outcome<bv8>
      reads bus, bus.cartridge.Repr, bus.ppu, bus.ppu.vram.data, bus.ppu.oam.data, bus.timer
      reads bus.interrupts.interruptFlag, bus.interrupts.interruptEnable, bus.wram.data, bus.hram.data, bus.io.data
      reads joypad
      requires Valid()
    {
      ReadOf(View(), address)
    }

    function ReadWord(address: Word): Outcome<Word>
      reads bus, bus.cartridge.Repr, bus.ppu, bus.ppu.vram.data, bus.ppu.oam.data, bus.timer
      reads bus.interrupts.interruptFlag, bus.interrupts.interruptEnable, bus.wram.data, bus.hram.data, bus.io.data
      reads joypad
      requires Valid()
    {
      WordRead(View(), address)
    }

    /** `Write`; `ok` is false where Go panics (a cartridge controller's panic, also during a DMA). */
    method Write(address: Word, v: bv8) returns (ok: bool)
      requires Valid()
      modifies Repr
      ensures Valid()
      ensures ok == Written(old(View()), address, v).Ok?
      ensures ok ==> View() == Written(old(View()), address, v).value
      decreases if address == M.DMA_ADDRESS then 3 else 0
    {
      if address == JOYPAD_ADDRESS {
        joypad.Write(v);
        ok := true;
      } else if address == M.DMA_ADDRESS {
        ok := DmaTransfer(v);
      } else {
        ok := bus.Write(address, v);
      }
    }

    /** `DmaTransfer`: 0xA0 reads from `v * 0x100` up, each written through `Write` to OAM. */
    method DmaTransfer(v: bv8) returns (ok: bool)
      requires Valid()
      modifies Repr
      ensures Valid()
      ensures ok == Dma(old(View()), v).Ok?
      ensures ok ==> View() == Dma(old(View()), v).value
      decreases 2
    {
      var src := DmaSource(v);
      ghost var n := View();
      ghost var oam := n.bus.video.oam;
      assert WithOam(n, oam) == n;
      var i := 0;
      while i < DMA_LENGTH
        invariant i <= DMA_LENGTH
        invariant Valid() && Copied(n, src, i, oam) && View() == WithOam(n, oam)
      {
        DmaStepNext(n, src, i, oam);
        ok, oam := CopyByte(n, src, i, oam);
        if !ok {
          DmaFailedRead(n, v, i);
          return;
        }
        i := i + 1;
      }
      DmaByCopy(n, v, oam);
      ok := true;
    }

    /**
     * One iteration of the DMA loop: read `src + i` and write the byte to
     * `0xFE00 + i`, which stores it in OAM byte `i`.  `oam` is OAM as the
     * earlier iterations left it.
     */
    method CopyByte(ghost n: State, src: Word, i: nat, ghost oam: seq<bv8>) returns (ok: bool, ghost oam': seq<bv8>)
      requires Valid() && Inv(n) && src <= 0xFF00 && i < DMA_LENGTH
      requires |oam| == DMA_LENGTH && View() == WithOam(n, oam)
      modifies Repr
      ensures Valid()
      ensures ok == DmaRead(WithOam(n, oam), src, i).Ok?
      ensures ok ==> oam' == oam[i := DmaRead(WithOam(n, oam), src, i).value] && View() == WithOam(n, oam')
      decreases 1
    {
      var transfer := Read(src + i);
      assert transfer == DmaRead(WithOam(n, oam), src, i);
      if transfer.Fatal? {
        return false, oam;
      }
      DmaStore(n, oam, i, transfer.value);
      oam' := oam[i := transfer.value];
      ok := Write(M.OAM_ADDRESS + i, transfer.value);
    }

    /** `WriteWord`: the low byte first, then the high byte at `address + 1`. */
    method WriteWord(address: Word, v: Word) returns (ok: bool)
      requires Valid()
      modifies Repr
      ensures Valid()
      ensures ok == WordWritten(old(View()), address, v).Ok?
      ensures ok ==> View() == WordWritten(old(View()), address, v).value
    {
      var hi := Hi(v);
      var lo := Lo(v);
      ghost var n := View();
      ghost var first := Written(n, address, lo);
      ok := Write(address, lo);
      if !ok {
        assert WordWritten(n, address, v) == Fatal;
        return;
      }
      ghost var m := View();
      assert m == first.value;
      ok := Write(Wrap16(address + 1), hi);
      assert WordWritten(n, address, v) == Written(m, Wrap16(address + 1), hi);
    }

    /** Changes only the boot-ROM flag. */
    method SetBootRomEnabled(enabled: bool)
      requires Valid()
      modifies bus
      ensures Valid()
      ensures View() == old(View()).(bus := old(View()).bus.(bootRomEnabled := enabled))
    {
      bus.SetBootRomEnabled(enabled);
    }
  }
}
