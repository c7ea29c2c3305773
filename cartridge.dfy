/**
 * cartridge.go: a cartridge built from a ROM image.  The header picks the
 * bank controller, and every bus access is passed to that controller
 * unchanged.  Go reads the image from a file; here the bytes are the input.
 */
module Cartridge {
  import opened Bytes
  import opened Mbc
  import M0 = Mbc0
  import M1 = Mbc1
  import M3 = Mbc3

  /** The controller behind the cartridge: Go's `MBC` interface value. */
  datatype Controller =
    | NoController(m0: M0.Mbc0)
    | Controller1(m1: M1.Mbc1)
    | Controller3(m3: M3.Mbc3)

  /** What the controller holds. */
  datatype CartState =
    | State0(rom: seq<bv8>, ram: seq<bv8>)
    | State1(image: seq<bv8>, hasRam: bool, banks: M1.Banks, ram1: seq<bv8>)
    | State3(s3: M3.Mbc3State)

  predicate CartInv(s: CartState)
  {
    match s
    case State0(rom, _) => |rom| == M0.ROM_IMAGE_SIZE
    case State1(_, hasRam, banks, ram) => M1.BanksValid(banks) && (!hasRam ==> |ram| == 0)
    case State3(s3) => M3.Inv(s3)
  }

  /** `Cartridge.Read`: the controller's read. */
  function CartRead(s: CartState, address: Word): Outcome<bv8>
    requires CartInv(s)
  {
    match s
    case State0(rom, ram) => M0.ReadOf(rom, ram, address)
    case State1(image, hasRam, banks, ram) => M1.ReadOf(image, hasRam, banks, ram, address)
    case State3(s3) => M3.ReadOf(s3, address)
  }

  /** `Cartridge.Write`: the controller's write; only an MBC0 RAM write past its RAM panics. */
  function CartWritten(s: CartState, address: Word, v: bv8): (r: Outcome<CartState>)
    requires CartInv(s)
    ensures r.Ok? ==> CartInv(r.value) && r.value.State0? == s.State0? && r.value.State1? == s.State1?
  {
    match s
    case State0(rom, ram) =>
      var w := M0.RamWritten(ram, address, v);
      if w.Ok? then Ok(State0(rom, w.value)) else Fatal
    case State1(image, hasRam, banks, ram) =>
      M1.WrittenBanksValid(banks, if address <= M1.ROM_END then address else 0, v);
      Ok(State1(image, hasRam, if address <= M1.ROM_END then M1.BanksWritten(banks, address, v) else banks,
                M1.RamWritten(hasRam, banks, ram, address, v)))
    case State3(s3) => Ok(State3(M3.Written(s3, address, v)))
  }

  /** The state a freshly built cartridge starts in. */
  function Initial(data: seq<bv8>, header: Header): (s: CartState)
    requires SelectMbc(header.cartType).Ok?
    ensures CartInv(s)
  {
    var ramSize := RamSize(header.ramSize);
    match SelectMbc(header.cartType).value
    case NoMbc => State0(M0.Padded(data), seq(ramSize, _ => 0))
    case Mbc1 =>
      var hasRam := header.cartType == 0x02 || header.cartType == 0x03;
      State1(data, hasRam, M1.POWER_ON, seq(if hasRam then ramSize else 0, _ => 0))
    case Mbc3 =>
      State3(M3.Mbc3State(data, RomSize(header.romSize) / ROM_BANK_SIZE, ramSize / RAM_BANK_SIZE,
                          M3.Banks(1, 0, false), M3.Rtc([0, 0, 0, 0, 0], [0, 0, 0, 0, 0]), seq(ramSize, _ => 0)))
  }

  /** The controller's external RAM is enabled at `address` and a byte of RAM backs it. */
  predicate RamLive(s: CartState, address: Word)
    requires CartInv(s)
  {
    match s
    case State0(_, ram) => M0.RAM_START <= address <= M0.RAM_END && address - M0.RAM_START < |ram|
    case State1(_, hasRam, banks, ram) =>
      M1.EXTERNAL_RAM_START <= address <= M1.EXTERNAL_RAM_END
      && M1.RamAccessible(hasRam, banks) && M1.RamOffset(banks, address) < |ram|
    case State3(s3) =>
      M3.RAM_START <= address <= M3.RAM_END
      && s3.banks.ramEnabled && !M3.RtcSelected(s3.banks.ramBank) && M3.RamBankPresent(s3)
  }

  /** Through the cartridge, a byte written to live external RAM is read back, whatever the controller. */
  lemma {:induction false} RamRoundTrip(s: CartState, address: Word, v: bv8)
    requires CartInv(s) && RamLive(s, address)
    ensures CartWritten(s, address, v).Ok?
    ensures CartRead(CartWritten(s, address, v).value, address) == Ok(v)
  {
    match s
    case State0(rom, ram) =>
      M0.RamRoundTrip(rom, ram, address - M0.RAM_START, v);
    case State1(image, hasRam, banks, ram) =>
      M1.RamRoundTrip(image, hasRam, banks, ram, address, v);
    case State3(s3) =>
      M3.RamRoundTrip(s3, address, v);
  }

  /**
   * The RAM bank count an MBC3 cartridge starts with: size codes 0 to 5 give
   * 0, 0, 1, 4, 16 and 8 banks and every other code none.  A 2 KiB chip (code
   * 0x01) is smaller than one bank, so its RAM is never reachable.
   */
  lemma Mbc3RamBanks(data: seq<bv8>, header: Header)
    requires SelectMbc(header.cartType) == Ok(Mbc3)
    ensures var s := Initial(data, header).s3;
      s.ramBankCount == (if header.ramSize <= 5 then [0, 0, 1, 4, 16, 8][header.ramSize] else 0)
    ensures var s := Initial(data, header).s3;
      header.ramSize == 0x01 ==> |s.ram| == 2048 && forall t: M3.Mbc3State :: t.ramBankCount == s.ramBankCount ==> !M3.RamBankPresent(t)
  {
  }

  class Cartridge {
    const mbc: Controller
    const header: Header
    /** The objects the controller updates. */
    const Repr: set<object>

    predicate Valid()
      reads Repr
    {
      match mbc
      case NoController(m) => Repr == {m.ram.data} && m.Valid()
      case Controller1(m) => Repr == {m, m.ram} && m.Valid()
      case Controller3(m) => Repr == {m, m.ram.data} && m.Valid()
    }

    function View(): (s: CartState)
      reads Repr
      requires Valid()
      ensures CartInv(s)
    {
      match mbc
      case NoController(m) => State0(m.rom.data, m.ram.data[..])
      case Controller1(m) => State1(m.rom, m.hasRam, m.Registers(), m.ram[..])
      case Controller3(m) => State3(m.View())
    }

    /** A cartridge for `header` over the image `data` (the part of `NewCartridge` after the header). */
    constructor (data: seq<bv8>, header: Header)
      requires SelectMbc(header.cartType).Ok?
      ensures Valid() && fresh(Repr) && this.header == header
      ensures View() == Initial(data, header)
    {
      this.header := header;
      var kind := SelectMbc(header.cartType).value;
      if kind == NoMbc {
        var m := new M0.Mbc0(data, header);
        mbc := NoController(m);
        Repr := {m.ram.data};
      } else if kind == Mbc1 {
        var m := new M1.Mbc1(data, header);
        mbc := Controller1(m);
        Repr := {m, m.ram};
      } else {
        var m := new M3.Mbc3(data, header);
        mbc := Controller3(m);
        Repr := {m, m.ram.data};
      }
      new;
      if mbc.NoController? {
        assert mbc.m0.ram.data[..] == seq(RamSize(header.ramSize), _ => 0);
      } else if mbc.Controller1? {
        assert mbc.m1.ram[..] == seq(mbc.m1.ram.Length, _ => 0);
      }
    }

    function Read(address: Word): Outcome<bv8>
      reads Repr
      requires Valid()
    {
      CartRead(View(), address)
    }

    /** Passes the write to the controller; `ok` is false when the controller panics. */
    method Write(address: Word, v: bv8) returns (ok: bool)
      requires Valid()
      modifies Repr
      ensures Valid()
      ensures ok == CartWritten(old(View()), address, v).Ok?
      ensures ok ==> View() == CartWritten(old(View()), address, v).value
    {
      match mbc
      case NoController(m) =>
        ok := m.Write(address, v);
      case Controller1(m) =>
        m.Write(address, v);
        ok := true;
      case Controller3(m) =>
        m.Write(address, v);
        ok := true;
    }
  }

  /** `NewCartridge`: a short image or an unsupported cartridge type panics. */
  method NewCartridge(data: seq<bv8>) returns (c: Outcome<Cartridge>)
    ensures c.Ok? <==> HeaderOf(data).Ok? && SelectMbc(HeaderOf(data).value.cartType).Ok?
    ensures c.Ok? ==> c.value.Valid() && fresh(c.value.Repr) && c.value.header == HeaderOf(data).value
    ensures c.Ok? ==> c.value.View() == Initial(data, HeaderOf(data).value)
  {
    var header := HeaderOf(data);
    if header.Fatal? || SelectMbc(header.value.cartType).Fatal? {
      return Fatal;
    }
    var cart := new Cartridge(data, header.value);
    c := Ok(cart);
  }
}
