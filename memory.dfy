/**
 * memory/memory.go: byte blocks addressed by a 16-bit offset.  Go indexes a
 * slice with a bounds check that panics; every caller in the emulator stays
 * in bounds, so the bound is a precondition here.
 */
module Memory {
  import opened Bytes

  /** A zero-filled, writable block (`RAM`). */
  class Ram {
    const data: array<bv8>

    /** `NewRAM(size)`: `size` zero bytes. */
    constructor (size: nat)
      ensures fresh(data) && data.Length == size
      ensures forall i :: 0 <= i < size ==> data[i] == 0
    {
      data := new bv8[size](_ => 0);
    }

    function Size(): nat
    {
      data.Length
    }

    function Read(offset: Word): bv8
      reads data
      requires offset < Size()
    {
      data[offset]
    }

    /** Stores `v` at `offset`: a Read there returns `v`, and no other byte changes. */
    method Write(offset: Word, v: bv8)
      requires offset < Size()
      modifies data
      ensures Read(offset) == v
      ensures data[..] == old(data[..])[offset := v]
    {
      data[offset] := v;
    }
  }

  /** A read-only block (`ROM`) over an image. */
  class Rom {
    const data: seq<bv8>

    /** `NewROM(data)` */
    constructor (data: seq<bv8>)
      ensures this.data == data
    {
      this.data := data;
    }

    function Read(offset: Word): bv8
      requires offset < |data|
    {
      data[offset]
    }

    /** Writing to ROM panics. */
    method Write(offset: Word, v: bv8) returns (ok: bool)
      ensures !ok
    {
      ok := false;
    }
  }

  /** The 0x80-byte block behind 0xFF00-0xFF7F (`IORegisters`). */
  class IoRegisters {
    const data: array<bv8>

    /** `NewIORegisters()`: 0x80 zero bytes. */
    constructor ()
      ensures fresh(data) && data.Length == 0x80
      ensures forall i :: 0 <= i < 0x80 ==> data[i] == 0
    {
      data := new bv8[0x80](_ => 0);
    }

    function Read(offset: Word): bv8
      reads data
      requires offset < 0x80 && data.Length == 0x80
    {
      data[offset]
    }

    /** Stores `v`: a Read at `offset` returns it, and no other byte changes. */
    method Write(offset: Word, v: bv8)
      requires offset < 0x80 && data.Length == 0x80
      modifies data
      ensures Read(offset) == v
      ensures data[..] == old(data[..])[offset := v]
    {
      data[offset] := v;
    }
  }

  /** The three blocks of memory/memory.go that implement `Memory`: RAM, ROM and the I/O registers. */
  datatype Block =
    | RamBlock(ram: Ram)
    | RomBlock(rom: Rom)
    | IoBlock(io: IoRegisters)

  /** The I/O block always holds its 0x80 bytes. */
  predicate BlockValid(b: Block)
  {
    b.IoBlock? ==> b.io.data.Length == 0x80
  }

  function BlockSize(b: Block): nat
  {
    match b
    case RamBlock(ram) => ram.Size()
    case RomBlock(rom) => |rom.data|
    case IoBlock(io) => io.data.Length
  }

  /** The array a write to the block can change; a ROM has none. */
  function Cells(b: Block): set<object>
  {
    match b
    case RamBlock(ram) => {ram.data}
    case RomBlock(_) => {}
    case IoBlock(io) => {io.data}
  }

  /** The block's bytes. */
  function Contents(b: Block): (s: seq<bv8>)
    reads Cells(b)
    ensures |s| == BlockSize(b)
  {
    match b
    case RamBlock(ram) => ram.data[..]
    case RomBlock(rom) => rom.data
    case IoBlock(io) => io.data[..]
  }

  /** `Memory.Read`, dispatched to the block: the byte at `offset`. */
  function BlockRead(b: Block, offset: Word): (r: bv8)
    reads Cells(b)
    requires BlockValid(b) && offset < BlockSize(b)
    ensures r == Contents(b)[offset]
  {
    match b
    case RamBlock(ram) => ram.Read(offset)
    case RomBlock(rom) => rom.Read(offset)
    case IoBlock(io) => io.Read(offset)
  }

  /** `Memory.Write`, dispatched to the block: RAM and I/O store the byte, ROM panics and changes nothing. */
  method BlockWrite(b: Block, offset: Word, v: bv8) returns (ok: bool)
    requires BlockValid(b) && offset < BlockSize(b)
    modifies Cells(b)
    ensures ok == !b.RomBlock?
    ensures Contents(b) == if ok then old(Contents(b))[offset := v] else old(Contents(b))
  {
    match b
    case RamBlock(ram) =>
      ram.Write(offset, v);
      ok := true;
    case RomBlock(rom) =>
      ok := rom.Write(offset, v);
    case IoBlock(io) =>
      io.Write(offset, v);
      ok := true;
  }

  /**
   * `MemoryReference8`: one byte of a memory block seen as an 8-bit
   * register, so that read-modify-write instructions can treat `(HL)` like a
   * register.  A write through a reference into ROM panics, which `ok ==
   * false` stands for.
   */
  class MemoryReference8 {
    const mmu: Block
    const addr: Word

    constructor (mmu: Block, addr: Word)
      ensures this.mmu == mmu && this.addr == addr
    {
      this.mmu := mmu;
      this.addr := addr;
    }

    predicate Valid()
    {
      BlockValid(mmu) && addr < BlockSize(mmu)
    }

    function Read(): bv8
      reads Cells(mmu)
      requires Valid()
    {
      BlockRead(mmu, addr)
    }

    /** Stores `v`: Read returns it and no other byte changes; into ROM it panics and nothing changes. */
    method Write(v: bv8) returns (ok: bool)
      requires Valid()
      modifies Cells(mmu)
      ensures ok == !mmu.RomBlock?
      ensures ok ==> Read() == v
      ensures Contents(mmu) == if ok then old(Contents(mmu))[addr := v] else old(Contents(mmu))
    {
      ok := BlockWrite(mmu, addr, v);
    }

    /** Stores (old + 1) mod 256 and returns it; into ROM the store panics and nothing changes. */
    method Increment() returns (r: bv8, ok: bool)
      requires Valid()
      modifies Cells(mmu)
      ensures r == old(Read()) + 1
      ensures ok == !mmu.RomBlock?
      ensures ok ==> Read() == r
      ensures Contents(mmu) == if ok then old(Contents(mmu))[addr := r] else old(Contents(mmu))
    {
      r := BlockRead(mmu, addr) + 1;
      ok := BlockWrite(mmu, addr, r);
    }

    /** Stores (old - 1) mod 256 and returns it; into ROM the store panics and nothing changes. */
    method Decrement() returns (r: bv8, ok: bool)
      requires Valid()
      modifies Cells(mmu)
      ensures r == old(Read()) - 1
      ensures ok == !mmu.RomBlock?
      ensures ok ==> Read() == r
      ensures Contents(mmu) == if ok then old(Contents(mmu))[addr := r] else old(Contents(mmu))
    {
      r := BlockRead(mmu, addr) - 1;
      ok := BlockWrite(mmu, addr, r);
    }
  }

  /** An increment and then a decrement through the same reference restore the byte. */
  method IncrementThenDecrement(m: MemoryReference8) returns (before: bv8, after: bv8)
    requires m.Valid() && !m.mmu.RomBlock?
    modifies Cells(m.mmu)
    ensures after == before
  {
    before := m.Read();
    var up, ok1 := m.Increment();
    var down, ok2 := m.Decrement();
    after := m.Read();
  }
}
