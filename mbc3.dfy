/**
 * mbc3.go: the MBC3 controller of the root layout.  The ROM bank is checked
 * against the bank count, the RAM bank register also selects one of five
 * real-time-clock registers, and the switchable ROM offset is computed in
 * 16-bit arithmetic, so it wraps modulo 0x10000 and banks four apart alias.
 */
module Mbc3 {
  import opened Bytes
  import opened Memory
  import opened Mbc

  const RAM_ENABLE_END: Word := 0x1FFF
  const ROM_BANK_START: Word := 0x2000
  const ROM_BANK_END: Word := 0x3FFF
  const RAM_BANK_START: Word := 0x4000
  const RAM_BANK_END: Word := 0x5FFF
  const LATCH_START: Word := 0x6000
  const LATCH_END: Word := 0x7FFF
  const RAM_START: Word := 0xA000
  const RAM_END: Word := 0xBFFF

  /** The first and last RAM bank values that select a clock register instead of RAM. */
  const RTC_FIRST: int := 0x08
  const RTC_LAST: int := 0x0C

  /** The bank-select registers. */
  datatype Banks = Banks(romBank: int, ramBank: int, ramEnabled: bool)

  /** The live clock registers (seconds, minutes, hours, days low, days high) and their latched copy. */
  datatype Rtc = Rtc(data: seq<bv8>, latched: seq<bv8>)

  datatype Mbc3State = Mbc3State(
    rom: seq<bv8>, romBankCount: int, ramBankCount: int, banks: Banks, rtc: Rtc, ram: seq<bv8>)

  /** RAM bank values the bank register accepts: RAM banks 0-3 and clock registers 0x08-0x0C. */
  predicate SelectableRamBank(bank: int)
  {
    0 <= bank <= 3 || RTC_FIRST <= bank <= RTC_LAST
  }

  predicate RtcSelected(bank: int)
  {
    RTC_FIRST <= bank <= RTC_LAST
  }

  /** What construction establishes and every write keeps. */
  predicate Inv(s: Mbc3State)
  {
    |s.rtc.data| == 5 && |s.rtc.latched| == 5
    && SelectableRamBank(s.banks.ramBank) && 0 <= s.banks.romBank
    && s.ramBankCount == |s.ram| / RAM_BANK_SIZE
  }

  /** `bankOffset + (address - 0x4000)` with `bankOffset := uint16(bank) * 0x4000`, all in uint16. */
  function RomOffset(bank: int, address: Word): Word
    requires RAM_BANK_START <= address
  {
    Wrap16(Wrap16(Wrap16(bank) * ROM_BANK_SIZE) + (address - RAM_BANK_START))
  }

  /** The RAM offset of an external RAM address, likewise in uint16. */
  function RamOffset(bank: int, address: Word): Word
    requires RAM_START <= address
  {
    Wrap16(Wrap16(Wrap16(bank) * RAM_BANK_SIZE) + (address - RAM_START))
  }

  predicate RamBankPresent(s: Mbc3State)
  {
    s.ramBankCount > 0 && s.banks.ramBank < s.ramBankCount
  }

  /** A present RAM bank is one of banks 0-3, and every offset in it lies inside the RAM. */
  lemma {:induction false} RamOffsetInside(s: Mbc3State, address: Word)
    requires Inv(s) && RamBankPresent(s) && !RtcSelected(s.banks.ramBank)
    requires RAM_START <= address <= RAM_END
    ensures RamOffset(s.banks.ramBank, address) == s.banks.ramBank * RAM_BANK_SIZE + (address - RAM_START)
    ensures RamOffset(s.banks.ramBank, address) < |s.ram|
  {
    var b := s.banks.ramBank;
    assert 0 <= b <= 3;
    assert (b + 1) * RAM_BANK_SIZE <= s.ramBankCount * RAM_BANK_SIZE <= |s.ram|;
  }

  /**
   * Read: the fixed ROM bank, the switchable one at its 16-bit offset, and the
   * RAM window, which shows a latched clock register, a present RAM bank, or
   * 0xFF.  A ROM offset past the image, and any other address, panic.
   */
  function ReadOf(s: Mbc3State, address: Word): (r: Outcome<bv8>)
    requires Inv(s)
    ensures r.Fatal? <==>
              || (address <= ROM_BANK_END && address >= |s.rom|)
              || (RAM_BANK_START <= address <= LATCH_END && RomOffset(s.banks.romBank, address) >= |s.rom|)
              || (LATCH_END < address < RAM_START) || RAM_END < address
  {
    if address <= ROM_BANK_END then
      if address < |s.rom| then Ok(s.rom[address]) else Fatal
    else if address <= LATCH_END then
      var offset := RomOffset(s.banks.romBank, address);
      if offset < |s.rom| then Ok(s.rom[offset]) else Fatal
    else if RAM_START <= address <= RAM_END then
      if !s.banks.ramEnabled then Ok(0xFF)
      else if RtcSelected(s.banks.ramBank) then Ok(s.rtc.latched[s.banks.ramBank - RTC_FIRST])
      else if RamBankPresent(s) then
        RamOffsetInside(s, address);
        Ok(s.ram[RamOffset(s.banks.ramBank, address)])
      else Ok(0xFF)
    else Fatal
  }

  /** The registers after a write to 0x0000-0x7FFF, except the latch area. */
  function BanksWritten(s: Mbc3State, address: Word, v: bv8): (r: Banks)
    requires address < LATCH_START
  {
    if address <= RAM_ENABLE_END then s.banks.(ramEnabled := v & 0x0F == 0x0A)
    else if address <= ROM_BANK_END then
      var bank := if v & 0x7F == 0 then 1 else (v & 0x7F) as int;
      if bank < s.romBankCount then s.banks.(romBank := bank) else s.banks
    else if v <= 0x03 || (0x08 <= v <= 0x0C) then s.banks.(ramBank := v as int)
    else s.banks
  }

  /** The state after a write to the RAM window. */
  function RamWindowWritten(s: Mbc3State, address: Word, v: bv8): (r: Mbc3State)
    requires Inv(s) && RAM_START <= address <= RAM_END
    ensures Inv(r)
  {
    if !s.banks.ramEnabled then s
    else if RtcSelected(s.banks.ramBank) then
      s.(rtc := s.rtc.(data := s.rtc.data[s.banks.ramBank - RTC_FIRST := v]))
    else if RamBankPresent(s) then
      RamOffsetInside(s, address);
      s.(ram := s.ram[RamOffset(s.banks.ramBank, address) := v])
    else s
  }

  /** Write: the bank registers, the clock latch (on any write of 0x01), and the RAM window. */
  function Written(s: Mbc3State, address: Word, v: bv8): (r: Mbc3State)
    requires Inv(s)
    ensures Inv(r)
    ensures r.rom == s.rom && r.romBankCount == s.romBankCount && r.ramBankCount == s.ramBankCount
  {
    if address < LATCH_START then s.(banks := BanksWritten(s, address, v))
    else if address <= LATCH_END then
      if v == 0x01 then s.(rtc := s.rtc.(latched := s.rtc.data)) else s
    else if RAM_START <= address <= RAM_END then RamWindowWritten(s, address, v)
    else s
  }

  /** The switchable window reads offset `(bank * 0x4000 + address - 0x4000) mod 0x10000`. */
  lemma {:induction false} RomOffsetWraps(bank: int, address: Word)
    requires 0 <= bank && RAM_BANK_START <= address <= LATCH_END
    ensures RomOffset(bank, address) == (bank * ROM_BANK_SIZE + address - RAM_BANK_START) % 0x10000
  {
    var b := Wrap16(bank);
    var y := address - RAM_BANK_START;
    BankProduct(b);
    assert RomOffset(bank, address) == ((b % 4) * ROM_BANK_SIZE + y) % 0x10000;
    assert bank == (bank / 0x10000) * 0x10000 + b;
    Distribute(bank / 0x10000, b);
    ModAddMultiple((bank / 0x10000) * ROM_BANK_SIZE + b / 4, (b % 4) * ROM_BANK_SIZE + y);
  }

  /** `b * 0x4000` in uint16 keeps only `b`'s two low bits. */
  lemma BankProduct(b: Word)
    ensures b * ROM_BANK_SIZE == (b / 4) * 0x10000 + (b % 4) * ROM_BANK_SIZE
    ensures Wrap16(b * ROM_BANK_SIZE) == (b % 4) * ROM_BANK_SIZE
  {
    assert b == (b / 4) * 4 + b % 4;
    ModAddMultiple(b / 4, (b % 4) * ROM_BANK_SIZE);
  }

  lemma Distribute(q: int, b: Word)
    ensures (q * 0x10000 + b) * ROM_BANK_SIZE == (q * ROM_BANK_SIZE) * 0x10000 + b * ROM_BANK_SIZE
  {
  }

  lemma ModAddMultiple(k: int, r: int)
    ensures (k * 0x10000 + r) % 0x10000 == r % 0x10000
  {
  }

  /** Because of the 16-bit offset, ROM banks four apart read the same bytes. */
  lemma {:induction false} RomBanksAlias(s: Mbc3State, address: Word)
    requires Inv(s) && RAM_BANK_START <= address <= LATCH_END
    ensures ReadOf(s.(banks := s.banks.(romBank := s.banks.romBank + 4)), address) == ReadOf(s, address)
  {
    var b := s.banks.romBank;
    RomOffsetWraps(b, address);
    RomOffsetWraps(b + 4, address);
    var x := b * ROM_BANK_SIZE + address - RAM_BANK_START;
    assert (b + 4) * ROM_BANK_SIZE + address - RAM_BANK_START == x + 0x10000;
    assert (x + 0x10000) % 0x10000 == x % 0x10000;
    assert RomOffset(b + 4, address) == RomOffset(b, address);
  }

  /** 0x0000-0x1FFF enables RAM exactly when the low nibble is 0xA. */
  lemma RamEnableWrite(s: Mbc3State, address: Word, v: bv8)
    requires Inv(s) && address <= RAM_ENABLE_END
    ensures Written(s, address, v) == s.(banks := s.banks.(ramEnabled := v & 0x0F == 0x0A))
  {
  }

  /** A ROM bank write takes the low seven bits, 0 read as 1, and is kept only below the bank count. */
  lemma RomBankWrite(s: Mbc3State, address: Word, v: bv8)
    requires Inv(s) && ROM_BANK_START <= address <= ROM_BANK_END
    ensures var bank := if v & 0x7F == 0 then 1 else (v & 0x7F) as int;
      Written(s, address, v).banks.romBank == (if bank < s.romBankCount then bank else s.banks.romBank)
    ensures Written(s, address, v) == s.(banks := s.banks.(romBank := Written(s, address, v).banks.romBank))
  {
  }

  /** A RAM bank write is accepted only for 0x00-0x03 and 0x08-0x0C. */
  lemma RamBankWrite(s: Mbc3State, address: Word, v: bv8)
    requires Inv(s) && RAM_BANK_START <= address <= RAM_BANK_END
    ensures Written(s, address, v).banks.ramBank == (if SelectableRamBank(v as int) then v as int else s.banks.ramBank)
    ensures Written(s, address, v) == s.(banks := s.banks.(ramBank := Written(s, address, v).banks.ramBank))
  {
  }

  /** Any write of 0x01 to the latch area copies the clock; no preceding 0x00 is needed. */
  lemma LatchWrite(s: Mbc3State, address: Word, v: bv8)
    requires Inv(s) && LATCH_START <= address <= LATCH_END
    ensures Written(s, address, v) == if v == 0x01 then s.(rtc := Rtc(s.rtc.data, s.rtc.data)) else s
  {
  }

  /**
   * With a clock register selected, a written value reaches the live
   * register but is read back only after a latch.
   */
  lemma {:induction false} RtcVisibleAfterLatch(s: Mbc3State, address: Word, v: bv8)
    requires Inv(s) && RAM_START <= address <= RAM_END
    requires s.banks.ramEnabled && RtcSelected(s.banks.ramBank)
    ensures var w := Written(s, address, v);
      ReadOf(w, address) == ReadOf(s, address)
      && ReadOf(Written(w, LATCH_START, 0x01), address) == Ok(v)
  {
    var w := Written(s, address, v);
    assert w == s.(rtc := s.rtc.(data := s.rtc.data[s.banks.ramBank - RTC_FIRST := v]));
  }

  /** RAM is reached only when enabled and the bank is present; otherwise reads give 0xFF and writes change nothing. */
  lemma RamUnreachable(s: Mbc3State, address: Word, v: bv8)
    requires Inv(s) && RAM_START <= address <= RAM_END
    requires !s.banks.ramEnabled || (!RtcSelected(s.banks.ramBank) && !RamBankPresent(s))
    ensures ReadOf(s, address) == Ok(0xFF) && Written(s, address, v) == s
  {
  }

  /** A RAM write to a present bank is read back. */
  lemma RamRoundTrip(s: Mbc3State, address: Word, v: bv8)
    requires Inv(s) && RAM_START <= address <= RAM_END
    requires s.banks.ramEnabled && !RtcSelected(s.banks.ramBank) && RamBankPresent(s)
    ensures ReadOf(Written(s, address, v), address) == Ok(v)
  {
  }

  class Mbc3 {
    const rom: Rom
    const ram: Ram
    const romBankCount: int
    const ramBankCount: int
    var currentRomBank: int
    var currentRamBank: int
    var ramEnabled: bool
    /** Set by the constructor and never read. */
    var rtcEnabled: bool
    /** Set by the constructor and never read. */
    var rtcRegister: int
    var rtcData: seq<bv8>
    var rtcLatched: seq<bv8>

    function View(): Mbc3State
      reads this, ram.data
    {
      Mbc3State(rom.data, romBankCount, ramBankCount, Banks(currentRomBank, currentRamBank, ramEnabled),
                Rtc(rtcData, rtcLatched), ram.data[..])
    }

    predicate Valid()
      reads this, ram.data
    {
      Inv(View())
    }

    /** `NewMBC3`: bank counts from the header, ROM bank 1, RAM bank 0, and a zeroed clock. */
    constructor (data: seq<bv8>, header: Header)
      ensures Valid() && fresh(ram) && fresh(ram.data)
      ensures View() == Mbc3State(data, RomSize(header.romSize) / ROM_BANK_SIZE, RamSize(header.ramSize) / RAM_BANK_SIZE,
                                  Banks(1, 0, false), Rtc([0, 0, 0, 0, 0], [0, 0, 0, 0, 0]),
                                  seq(RamSize(header.ramSize), _ => 0))
    {
      rom := new Rom(data);
      ram := new Ram(RamSize(header.ramSize));
      romBankCount := RomSize(header.romSize) / ROM_BANK_SIZE;
      ramBankCount := RamSize(header.ramSize) / RAM_BANK_SIZE;
      currentRomBank, currentRamBank := 1, 0;
      ramEnabled, rtcEnabled, rtcRegister := false, false, 0;
      rtcData, rtcLatched := [0, 0, 0, 0, 0], [0, 0, 0, 0, 0];
      new;
      assert ram.data[..] == seq(RamSize(header.ramSize), _ => 0);
    }

    function Read(address: Word): Outcome<bv8>
      reads this, ram.data
      requires Valid()
    {
      ReadOf(View(), address)
    }

    method Write(address: Word, v: bv8)
      requires Valid()
      modifies this, ram.data
      ensures View() == Written(old(View()), address, v) && Valid()
    {
      if address < LATCH_START {
        WriteBankRegisters(address, v);
      } else if address <= LATCH_END {
        if v == 0x01 {
          rtcLatched := rtcData;
        }
      } else if RAM_START <= address <= RAM_END {
        WriteRamWindow(address, v);
      }
    }

    /** The RAM-enable, ROM-bank and RAM-bank registers below 0x6000. */
    method WriteBankRegisters(address: Word, v: bv8)
      requires Valid() && address < LATCH_START
      modifies this
      ensures View() == Written(old(View()), address, v) && Valid()
    {
      if address <= RAM_ENABLE_END {
        ramEnabled := v & 0x0F == 0x0A;
      } else if ROM_BANK_START <= address <= ROM_BANK_END {
        var bank := (v & 0x7F) as int;
        if bank == 0 {
          bank := 1;
        }
        if bank < romBankCount {
          currentRomBank := bank;
        }
      } else if RAM_BANK_START <= address <= RAM_BANK_END {
        if v <= 0x03 {
          currentRamBank := v as int;
        } else if 0x08 <= v <= 0x0C {
          currentRamBank := v as int;
        }
      }
    }

    /** The RAM-window case of Write. */
    method WriteRamWindow(address: Word, v: bv8)
      requires Valid() && RAM_START <= address <= RAM_END
      modifies this, ram.data
      ensures View() == RamWindowWritten(old(View()), address, v)
    {
      if !ramEnabled {
        return;
      }
      if RtcSelected(currentRamBank) {
        rtcData := rtcData[currentRamBank - RTC_FIRST := v];
        return;
      }
      if ramBankCount > 0 && currentRamBank < ramBankCount {
        RamOffsetInside(View(), address);
        ram.Write(RamOffset(currentRamBank, address), v);
      }
    }
  }
}
