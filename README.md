# garboy core, modelled in Dafny

A model of the emulation core of garboy, a Game Boy (DMG) emulator written in
Go, with proofs about it. The repository has two layouts of the same
emulator. The older one keeps everything in the root package. The newer one
splits it into packages (`mmu`, `cartridge`, `display`, `interrupts`,
`memory`, `scheduler`). Where the two layouts share logic, one Dafny module
models both and cites both. Where they differ, each layout has its own
module: the two MMUs and the two MBC3 controllers.

The model covers these parts of the emulator:

- the CPU's step (IME delay, interrupt dispatch, HALT and the halt bug,
  fetch, decode and execute);
- the two opcode tables;
- the register file;
- the interrupt controller;
- the timer (DIV/TIMA/TMA/TAC, falling-edge detection, the 4-step reload
  delay);
- the PPU (mode state machine, LY/LYC, STAT interrupts, register and memory
  bus, the scanline renderer for background, window and sprites);
- the joypad register;
- the memory blocks;
- the cartridge header and the MBC0, MBC1 and MBC3 bank controllers,
  including the real-time clock;
- both memory maps, including OAM DMA;
- the scheduler.

The two styles of the source are kept:

- **Pure parts.** Decoding, address routing, bank arithmetic and pixel
  selection are datatypes and functions, with lemmas about them.
- **Stateful parts.** Every Go object whose methods update its fields is a
  `class` with those fields. Its methods `modify` them and are proved
  against a pure function of the old state. The form is always
  `View() == F(old(View()))`, where `View()` collects the fields into a
  datatype. The source's properties are lemmas about `F`.

The loops of the source are kept as loops with invariants:

- the interrupt scan;
- `ExtractBits`;
- the OAM DMA copy;
- the renderer's per-pixel loops;
- the sprite search.

Some representation choices:

- Bytes are `bv8`. 16-bit values are integers in `0..0xFFFF`, and Go's
  `uint16` wrap-around is written out (`Wrap16`).
- Go panics, including a slice index out of range, are `Fatal` outcomes or
  `ok == false` returns. They are not preconditions. The exception is the
  fixed-size RAM/ROM/IO blocks of `memory/memory.go`, whose callers always
  stay in range; their byte index is a precondition.

## Model

| member | source | states |
|---|---|---|
| Bytes.Wrap16 | register.go:120-128 | Go's `uint16` arithmetic: the result is the argument modulo 2^16 (identity in range, -2^16 above it, +2^16 below 0) |
| Bytes.BitMask | interrupts.go:52-60 | `1 << i` as a byte has bit `i` set for i < 8 and is 0 for larger shifts |
| Bytes.JoinHiLo | mmu.go:162-175 | splitting a word into its high and low bytes and joining them gives the word back |
| Bytes.HiLoJoin | mmu.go:162-175 | joining two bytes into a word and splitting it gives both bytes back |
| Bytes.SameHalves | mmu.go:162-167 | a word is determined by its two bytes |
| Utils.ShiftRight | utils.go:6 | Go's `b >> n` on a byte gives 0 for every count of 8 or more |
| Utils.ShiftLeft | utils.go:7 | Go's `b << n` on a byte gives 0 for every count of 8 or more |
| Utils.AccumulatedBit | utils.go:5-8 | after k iterations, bit j of the result holds bit positions[n-1-j] of `b` for the k highest result bits, and 0 everywhere else |
| Utils.ExtractBits | utils.go:3-10 | the loop panics exactly when a position is negative; otherwise it returns the OR of all iterations' contributions, and 0 for no positions |
| Utils.ExtractedBits | utils.go:3-10 | result bit n-1-i is bit positions[i] of `b` (0 for a position of 8 or more), and every result bit at or above n is 0 |
| Utils.ExtractAllBits | utils.go:3-10 | positions 7..0 return the byte unchanged |
| InterruptRegister.InterruptRegister.constructor | interrupts/register.go:3-5 | a new register reads 0 |
| InterruptRegister.InterruptRegister.Write | interrupts/register.go:11-13 | all eight bits are stored, and the next Read returns them |
| Interrupts.InterruptSourceVectors | cpu.go:10-16 | the five interrupt vectors are 0x40 + 8·i, in bit order |
| Interrupts.Requested | interrupts.go:52-55 | `Request(i)` sets bit i of IF and leaves every other bit as it was |
| Interrupts.Cleared | interrupts.go:57-60 | `Clear(i)` clears bit i of IF and leaves every other bit as it was |
| Interrupts.RequestKeeps | interrupts.go:52-55 | a request keeps every request already pending, and keeping pending requests is transitive |
| Interrupts.RequestIdempotent | interrupts.go:52-60 | requesting twice equals requesting once, and a clear after a request equals a clear alone |
| Interrupts.Interrupts.constructor | interrupts.go:26-31 | IF and IE start at 0 |
| Interrupts.Interrupts.Write | interrupts.go:41-50 | 0xFF0F stores IF and 0xFFFF stores IE, all eight bits; every other address panics (`ok` false) and changes nothing |
| Interrupts.Interrupts.Request | interrupts.go:52-55 | IF becomes `Requested(old IF, i)`; IE is unchanged and IF and IE stay distinct registers |
| Interrupts.Interrupts.Clear | interrupts.go:57-60 | IF becomes `Cleared(old IF, i)`; IE is unchanged and IF and IE stay distinct registers |
| Registers.Register8.Single | register.go:39-41 | a plain 8-bit register starts at 0 |
| Registers.Register8.Flag | register.go:52-54 | the flag register starts at 0 |
| Registers.Register8.Read | register.go:94-96 | a plain register reads what it holds; the flag register never reports its low nibble (also lines 173-175) |
| Registers.Register8.Write | register.go:98-100 | a plain register stores the value and the flag register only its top nibble; Read then returns what was stored (also lines 177-179) |
| Registers.Register8.Increment | register.go:102-105 | a plain register adds 1 modulo 256 and returns the new value; the flag register panics and is unchanged (also lines 182-184) |
| Registers.Register8.Decrement | register.go:107-110 | a plain register subtracts 1 modulo 256 and returns the new value; the flag register panics and is unchanged (also lines 186-188) |
| Registers.Register8.Z | register.go:190-192 | Z is bit 7 of F |
| Registers.Register8.N | register.go:194-196 | N is bit 6 of F |
| Registers.Register8.H | register.go:198-200 | H is bit 5 of F |
| Registers.Register8.C | register.go:202-204 | C is bit 4 of F |
| Registers.Register8.SetBit | register.go:206-236 | the shared shape of the four setters: OR the mask in, or AND it out |
| Registers.Register8.SetZ | register.go:206-212 | Z then reads the value set; only bit 7 changes, so N, H and C are kept |
| Registers.Register8.SetN | register.go:214-220 | N then reads the value set; only bit 6 changes, so Z, H and C are kept |
| Registers.Register8.SetH | register.go:222-228 | H then reads the value set; only bit 5 changes, so Z, N and C are kept |
| Registers.Register8.SetC | register.go:230-236 | C then reads the value set; only bit 4 changes, so Z, N and H are kept |
| Registers.SingleRegister16.constructor | register.go:43-45 | a 16-bit register starts at 0 |
| Registers.SingleRegister16.Write | register.go:116-118 | Read then returns the value written |
| Registers.SingleRegister16.Increment | register.go:120-123 | adds 1 modulo 2^16 and returns the new value |
| Registers.SingleRegister16.Decrement | register.go:125-128 | subtracts 1 modulo 2^16 and returns the new value |
| Registers.SingleRegister16.PostIncrement | register.go:130-134 | returns the old value and leaves old + 1 (wrapping) |
| Registers.SingleRegister16.PostDecrement | register.go:136-140 | returns the old value and leaves old - 1 (wrapping) |
| Registers.PairStored | register.go:146-179 | what a pair reads back after a write: the same high byte, and the same low byte except for a flag low half, where the result is `v & 0xFFF0` |
| Registers.FlagMaskedWord | register.go:146-179 | keeping only the top nibble of the low byte is `v - v % 16`, Go's `v & 0xFFF0` |
| Registers.CombinedRegister16.constructor | register.go:47-50 | a pair is made of the two registers given |
| Registers.CombinedRegister16.Read | register.go:142-144 | the high byte is the high half's reading and the low byte the low half's |
| Registers.CombinedRegister16.Write | register.go:146-149 | the high half gets `v >> 8` and the low half `v & 0xFF` (top nibble only for F); Read then returns `PairStored(v)` |
| Registers.CombinedRegister16.Increment | register.go:151-154 | writes old + 1 (wrapping) and returns the new reading |
| Registers.CombinedRegister16.Decrement | register.go:156-159 | writes old - 1 (wrapping) and returns the new reading |
| Registers.CombinedRegister16.PostIncrement | register.go:161-165 | returns the old reading and writes old + 1 (wrapping) |
| Registers.CombinedRegister16.PostDecrement | register.go:167-171 | returns the old reading and writes old - 1 (wrapping) |
| Registers.Registers.constructor | register.go:56-92 | eight distinct fresh 8-bit registers with only F a flag register, the four pairs built over their halves, SP and PC; everything 0 |
| Registers.WriteBcRoundTrip | register.go:146-149 | writing a value to BC reads it back through BC and through B and C, and leaves the other six 8-bit registers unchanged |
| Registers.WriteDeRoundTrip | register.go:146-149 | writing a value to DE reads it back through DE and through D and E, and leaves the other six 8-bit registers unchanged |
| Registers.WriteHlRoundTrip | register.go:146-149 | writing a value to HL reads it back through HL and through H and L, and leaves the other six 8-bit registers unchanged |
| Registers.WriteAfRoundTrip | register.go:146-179 | writing a value to AF reads back `v & 0xFFF0`; F's low nibble is always 0 |
| Memory.Ram.constructor | memory/memory.go:12-16 | `size` zero bytes |
| Memory.Ram.Write | memory/memory.go:18-24 | Read at the offset returns the value, and no other byte changes |
| Memory.Rom.constructor | memory/memory.go:30-34 | the ROM holds exactly the given bytes |
| Memory.Rom.Write | memory/memory.go:40-42 | writing to ROM always panics |
| Memory.IoRegisters.constructor | memory/memory.go:48-52 | 0x80 zero bytes |
| Memory.IoRegisters.Write | memory/memory.go:54-61 | Read at the offset returns the value, and no other byte changes |
| Memory.BlockRead | memory/memory.go:3-6 | a `Memory` read on one of the three blocks of memory/memory.go returns the block's byte at the offset, whichever of RAM, ROM or I/O the block is |
| Memory.BlockWrite | memory/memory.go:3-6 | a `Memory` write on one of the three blocks of memory/memory.go stores the byte in RAM or I/O and changes no other byte; into ROM it panics and changes nothing |
| Memory.MemoryReference8.constructor | memory/memory.go:65-68 | a reference to one address of any block: RAM, ROM or I/O |
| Memory.MemoryReference8.Write | memory/memory.go:74-76 | into RAM or I/O, Read returns the value written and only the referenced byte changes; into ROM it panics and nothing changes |
| Memory.MemoryReference8.Increment | memory/memory.go:78-82 | computes old + 1 modulo 256 and returns it; into RAM or I/O it is stored and only the referenced byte changes; into ROM the store panics and nothing changes |
| Memory.MemoryReference8.Decrement | memory/memory.go:84-88 | computes old - 1 modulo 256 and returns it; into RAM or I/O it is stored and only the referenced byte changes; into ROM the store panics and nothing changes |
| Memory.IncrementThenDecrement | memory/memory.go:78-88 | an increment and then a decrement through the same writable reference restore the byte |
| MockMmu.MockMmu.constructor | test/mock_mmu.go:8-11 | a flat 64 KiB of zero bytes with the boot ROM overlay off |
| MockMmu.MockMmu.Write | test/mock_mmu.go:17-19 | Read of the address then returns the value over the whole 16-bit space, and no other byte changes |
| MockMmu.MockMmu.ReadWord | test/mock_mmu.go:21-26 | little-endian: the low byte is at the address and the high byte at the address + 1, wrapping at 0xFFFF |
| MockMmu.MockMmu.WriteWord | test/mock_mmu.go:28-34 | stores the low byte, then the high byte at the address + 1 (wrapping); ReadWord then returns the word |
| MockMmu.MockMmu.SetBootRomEnabled | test/mock_mmu.go:36-38 | only the flag changes |
| BootRom.BootRomLayout | mmu.go:5-22 | the boot program is 256 bytes; it starts with `LD SP,$FFFE` and ends with the write of 1 to 0xFF50 that unmaps it |
| Instructions.NewCycles | instructions.go:18-23 | the first argument is the normal cost and the second the branched cost |
| Instructions.UnprefixedChunk0 | instructions.go:28-43 | entries 0x00-0x0F of INSTRUCTIONS are as `UnprefixedEntryOk` describes (opcode = index, handler, length 1-3, costs multiple of 4, the two costs differ exactly for the conditional branches) |
| Instructions.UnprefixedChunk1 | instructions.go:44-59 | entries 0x10-0x1F, likewise |
| Instructions.UnprefixedChunk2 | instructions.go:60-75 | entries 0x20-0x2F, likewise, including JR cc's 12/8 |
| Instructions.UnprefixedChunk3 | instructions.go:76-91 | entries 0x30-0x3F, likewise |
| Instructions.UnprefixedChunk4 | instructions.go:92-107 | entries 0x40-0x4F, likewise |
| Instructions.UnprefixedChunk5 | instructions.go:108-123 | entries 0x50-0x5F, likewise |
| Instructions.UnprefixedChunk6 | instructions.go:124-139 | entries 0x60-0x6F, likewise |
| Instructions.UnprefixedChunk7 | instructions.go:140-155 | entries 0x70-0x7F, likewise |
| Instructions.UnprefixedChunk8 | instructions.go:156-171 | entries 0x80-0x8F, likewise |
| Instructions.UnprefixedChunk9 | instructions.go:172-187 | entries 0x90-0x9F, likewise |
| Instructions.UnprefixedChunkA | instructions.go:188-203 | entries 0xA0-0xAF, likewise |
| Instructions.UnprefixedChunkB | instructions.go:204-219 | entries 0xB0-0xBF, likewise |
| Instructions.UnprefixedChunkC | instructions.go:220-235 | entries 0xC0-0xCF, likewise, including RET/JP/CALL cc and INVALID_INSTRUCTION at 0xCB |
| Instructions.UnprefixedChunkD | instructions.go:236-251 | entries 0xD0-0xDF, likewise, with the unused opcodes invalid |
| Instructions.UnprefixedChunkE | instructions.go:252-267 | entries 0xE0-0xEF, likewise, with the unused opcodes invalid |
| Instructions.UnprefixedChunkF | instructions.go:268-281 | the 14 entries 0xF0-0xFD: F4 is invalid, and the last two carry opcodes 0xFE and 0xFF (no entries for 0xFC/0xFD) |
| Instructions.PrefixedChunk0 | instructions.go:285-300 | CB entries 0x00-0x0F are as `PrefixedEntryOk` describes (opcode = index, length 2, 16 cycles for (HL) and 8 otherwise) |
| Instructions.PrefixedChunk1 | instructions.go:301-316 | CB entries 0x10-0x1F, likewise |
| Instructions.PrefixedChunk2 | instructions.go:317-332 | CB entries 0x20-0x2F, likewise |
| Instructions.PrefixedChunk3 | instructions.go:333-348 | CB entries 0x30-0x3F, likewise |
| Instructions.PrefixedChunk4 | instructions.go:349-364 | CB entries 0x40-0x4F, likewise |
| Instructions.PrefixedChunk5 | instructions.go:365-380 | CB entries 0x50-0x5F, likewise |
| Instructions.PrefixedChunk6 | instructions.go:381-396 | CB entries 0x60-0x6F, likewise |
| Instructions.PrefixedChunk7 | instructions.go:397-412 | CB entries 0x70-0x7F, likewise |
| Instructions.PrefixedChunk8 | instructions.go:413-428 | CB entries 0x80-0x8F, likewise |
| Instructions.PrefixedChunk9 | instructions.go:429-444 | CB entries 0x90-0x9F, likewise |
| Instructions.PrefixedChunkA | instructions.go:445-460 | CB entries 0xA0-0xAF, likewise |
| Instructions.PrefixedChunkB | instructions.go:461-476 | CB entries 0xB0-0xBF, likewise |
| Instructions.PrefixedChunkC | instructions.go:477-492 | CB entries 0xC0-0xCF, likewise |
| Instructions.PrefixedChunkD | instructions.go:493-508 | CB entries 0xD0-0xDF, likewise |
| Instructions.PrefixedChunkE | instructions.go:509-524 | CB entries 0xE0-0xEF, likewise |
| Instructions.PrefixedChunkF | instructions.go:525-540 | CB entries 0xF0-0xFF, likewise |
| Instructions.UnprefixedConcat | instructions.go:27-282 | two correct runs of INSTRUCTIONS entries, back to back, form one correct run |
| Instructions.PrefixedConcat | instructions.go:284-541 | two correct runs of CB_INSTRUCTIONS entries, back to back, form one correct run |
| Instructions.UnprefixedQuarter0 | instructions.go:28-91 | entries 0x00-0x3F: 64 entries, each correct |
| Instructions.UnprefixedQuarter1 | instructions.go:92-155 | entries 0x40-0x7F: 64 entries, each correct |
| Instructions.UnprefixedQuarter2 | instructions.go:156-219 | entries 0x80-0xBF: 64 entries, each correct |
| Instructions.UnprefixedQuarter3 | instructions.go:220-281 | entries from 0xC0: 62 entries, each correct |
| Instructions.UnprefixedHalf0 | instructions.go:28-155 | the first 128 entries are correct |
| Instructions.UnprefixedHalf1 | instructions.go:156-281 | the remaining 126 entries are correct |
| Instructions.UnprefixedTable | instructions.go:27-282 | INSTRUCTIONS has 254 entries, every one as `UnprefixedEntryOk` says |
| Instructions.PrefixedQuarter0 | instructions.go:285-348 | CB entries 0x00-0x3F: 64 entries, each correct |
| Instructions.PrefixedQuarter1 | instructions.go:349-412 | CB entries 0x40-0x7F: 64 entries, each correct |
| Instructions.PrefixedQuarter2 | instructions.go:413-476 | CB entries 0x80-0xBF: 64 entries, each correct |
| Instructions.PrefixedQuarter3 | instructions.go:477-540 | CB entries 0xC0-0xFF: 64 entries, each correct |
| Instructions.PrefixedHalf0 | instructions.go:285-412 | the first 128 CB entries are correct |
| Instructions.PrefixedHalf1 | instructions.go:413-540 | the last 128 CB entries are correct |
| Instructions.PrefixedTable | instructions.go:284-541 | CB_INSTRUCTIONS has 256 entries, every one as `PrefixedEntryOk` says |
| Instructions.Unprefixed | cpu.go:84 | `INSTRUCTIONS[opcode]` succeeds exactly for opcodes below 0xFE; 0xFE and 0xFF index past the end and panic |
| Instructions.UnprefixedEntry | cpu.go:84 | every entry the CPU can look up is correct |
| Instructions.Prefixed | cpu.go:82 | every byte has a CB entry, and its opcode is that byte |
| Instructions.PrefixedEntry | cpu.go:82 | every CB entry the CPU looks up is correct |
| Cpu.WordAt | test/mock_mmu.go:21-26 | the little-endian word at an address: low byte there, high byte at the next address, wrapping |
| Cpu.Pending | cpu.go:102-104 | the pending set is contained in both IE and IF |
| Cpu.FirstPendingFrom | cpu.go:116-127 | the first set bit from i up to 4, or 5 when none is set: every bit skipped is clear |
| Cpu.FirstPending | cpu.go:116-127 | the interrupt serviced is the lowest set bit among bits 0-4, or 5 for none |
| Cpu.FirstPendingNone | cpu.go:116-127 | no interrupt is found exactly when bits 0-4 of the pending set are clear |
| Cpu.ScanPending | cpu.go:116-127 | the loop over the five sources returns `FirstPending` |
| Cpu.DelayTicked | cpu.go:43-44 | the IME delay drops by one and stops at 0 |
| Cpu.ImeAfterDelay | cpu.go:43-48 | IME is on afterwards exactly when it was on already or the delay just reached 0 |
| Cpu.Pushed | cpu.go:131-135 | SP drops by 2 (wrapping) and the word is stored there, low byte first; no other byte and no other field changes |
| Cpu.PopAfterPush | cpu.go:131-143 | a pop right after a push returns the pushed word and restores SP |
| Cpu.Handled | cpu.go:101-128 | handleInterrupts keeps the memory 64 KiB |
| Cpu.HandledSpec | cpu.go:101-128 | anything pending (IE & IF ≠ 0) ends HALT; with IME on and one of bits 0-4 pending, the lowest one is serviced: only its IF bit is cleared, IME goes off, the old PC is pushed and PC moves to 0x40 + 8k. Otherwise only `halted` may change |
| Cpu.Decoded | cpu.go:78-87 | decode succeeds exactly for 0xCB and opcodes below 0xFE; 0xCB takes the CB entry named by the next byte and moves PC past it, and other opcodes leave PC alone |
| Cpu.Executed | cpu.go:90-99 | `branched` is cleared; the invalid handler panics, and every other handler reports the normal cost |
| Cpu.Ran | cpu.go:60-62 | fetch/decode/execute changes only PC, the halt bug (cleared) and `branched` |
| Cpu.RanPrefixed | cpu.go:60-87 | a CB opcode runs the CB entry of the next byte, leaves PC past that byte and costs its normal cycles |
| Cpu.RanUnprefixed | cpu.go:60-87 | any other opcode below 0xFE runs its INSTRUCTIONS entry and leaves PC just past the opcode (or where it was, with the halt bug); the invalid entries panic |
| Cpu.RanMissingOpcode | cpu.go:84 | opcodes 0xFE and 0xFF panic |
| Cpu.Stepped | cpu.go:42-63 | a step keeps the memory 64 KiB |
| Cpu.StepServicesInterrupt | cpu.go:42-52 | servicing an interrupt costs 20 cycles, runs no instruction, pushes PC, jumps to the vector, clears the IF bit and IME, and ends HALT (also lines 101-128) |
| Cpu.StepWhileHalted | cpu.go:42-56 | a halted CPU with nothing pending costs 4 cycles and leaves PC, SP, memory and IF alone; only the IME delay moves |
| Cpu.StepWakesFromHalt | cpu.go:50-62 | a pending interrupt wakes a halted CPU even with IME off, and the step then runs the instruction at PC (also lines 106-114) |
| Cpu.StepRunsInstruction | cpu.go:42-62 | with nothing to service and no HALT, a step is the countdown followed by fetch/decode/execute |
| Cpu.HaltBugRefetches | cpu.go:66-75 | with the halt bug pending, a one-byte opcode leaves PC where it was, so the next step fetches the same byte; the bug is then gone |
| Cpu.Cpu.constructor | cpu.go:31-40 | fresh registers at 0, IME on, not halted, no halt bug, IME delay 0 |
| Cpu.Cpu.Push16 | cpu.go:131-135 | the CPU state becomes `Pushed(old, v)` |
| Cpu.Cpu.Pop16 | cpu.go:138-143 | returns the word at SP, and SP rises by 2 (wrapping) |
| Cpu.Cpu.Service | cpu.go:119-124 | the body of the dispatch loop: IF bit cleared, IME off, PC pushed, PC at the vector |
| Cpu.Cpu.HandleInterrupts | cpu.go:101-128 | the CPU state and the result are `Handled(old)`; `HandledSpec` says what that is |
| Cpu.Cpu.Fetch | cpu.go:66-75 | returns the byte at PC; PC advances unless the halt bug is pending, and the halt bug is then cleared |
| Cpu.Cpu.Decode | cpu.go:78-87 | the result and the new PC are as `Decoded` says |
| Cpu.Cpu.Execute | cpu.go:90-99 | the result is as `Executed` says |
| Cpu.Cpu.CountDown | cpu.go:43-48 | the IME delay runs down, and IME comes on as it reaches 0 |
| Cpu.Cpu.Step | cpu.go:42-63 | the CPU state and the cycle count are `Stepped(old)`; the Step lemmas above say what that is |
| Cpu.Cpu.Run | cpu.go:60-62 | the CPU state and the cycle count are `Ran(old)` |
| Cpu.Cpu.SkipBootRom | cpu.go:145-158 | A=0x01, F=0xB0, B=0x00, C=0x13, D=0x00, E=0xD8, H=0x01, L=0x4D, SP=0xFFFE, PC=0x0100, and the boot ROM overlay off |
| Timer.CounterBit | timer.go:51-52 | `(counter >> p) & 1` is 0 or 1 |
| Timer.ClockSelect | timer.go:73 | the clock select is TAC's two low bits |
| Timer.Incremented | timer.go:59-66 | TIMA + 1, or at 0xFF back to 0 with the 4-step reload delay armed |
| Timer.Stepped | timer.go:33-57 | a step advances the counter by one (wrapping) and never changes TMA or TAC |
| Timer.ReadOf | timer.go:77-90 | DIV to TAC read; any other address panics; TIMA and TMA read as stored |
| Timer.ReadDiv | timer.go:79-80 | DIV reads the counter's high byte |
| Timer.ReadTac | timer.go:85-86 | TAC reads its three low bits with bits 3-7 set |
| Timer.DivReset | timer.go:113-122 | the counter becomes 0 |
| Timer.Written | timer.go:92-111 | a TIMA write cancels a pending reload; a TMA write also lands in TIMA during one; TAC keeps 3 bits; other addresses change nothing; IF is never touched |
| Timer.SelectedPowers | timer.go:8 | TAC selects counter bit 9, 3, 5 or 7 (also lines 72-75) |
| Timer.Period | timer.go:8 | the TIMA period is 1024, 16, 64 or 256 steps (also lines 72-75) |
| Timer.EdgeEvery16 | timer.go:49-56 | bit 3 falls exactly when the new counter value is a multiple of 16 |
| Timer.EdgeEvery64 | timer.go:49-56 | bit 5 falls exactly when the new counter value is a multiple of 64 |
| Timer.EdgeEvery256 | timer.go:49-56 | bit 7 falls exactly when the new counter value is a multiple of 256 |
| Timer.EdgeEvery1024 | timer.go:49-56 | bit 9 falls exactly when the new counter value is a multiple of 1024 |
| Timer.FallingEdgeAtMultiple | timer.go:49-56 | a selectable bit p falls exactly when the new counter value is a multiple of 2^(p+1), wrap-around included |
| Timer.StepTicksOncePerPeriod | timer.go:33-57 | with the timer on and no reload pending, a step changes more than the counter exactly when the new counter is a multiple of the period, and then it is one `incrementTimer` |
| Timer.StepWhileDisabled | timer.go:45-47 | with TAC bit 2 clear, only the counter and a pending reload move |
| Timer.OverflowArmsReload | timer.go:59-63 | overflow sets TIMA to 0 and arms the reload, with no interrupt yet |
| Timer.ReloadCountsDown | timer.go:37-43 | while the delay is 2-4, a step lowers it by one, leaves IF alone and raises TIMA by at most one |
| Timer.ReloadFires | timer.go:37-43 | the step that finds the delay at 1 loads TMA (ticking once more on an edge) and requests the timer interrupt |
| Timer.ReloadAfterFourSteps | timer.go:37-63 | four steps after an overflow TIMA is reloaded from TMA and the interrupt requested; the three steps before leave IF alone |
| Timer.StepKeepsRequests | timer.go:33-57 | a step keeps every pending request and changes no IF bit but the timer's |
| Timer.DivResetIsFallingEdge | timer.go:94-122 | writing DIV acts as a falling edge of the selected bit as the counter drops to 0, and DIV then reads 0 |
| Timer.TimaWriteCancelsReload | timer.go:96-100 | writing TIMA reads back the value, and the next step requests nothing |
| Timer.TmaWriteDuringReload | timer.go:102-106 | writing TMA with the reload due sets TMA and TIMA, and the reload loads the new value (also lines 37-43) |
| Timer.TacRoundTrip | timer.go:85-109 | TAC reads back the written value with bits 3-7 set |
| Timer.Timer.constructor | timer.go:22-31 | every register and the counter start at 0 |
| Timer.Timer.IncrementTimer | timer.go:59-66 | the timer becomes `Incremented(old)` |
| Timer.Timer.CountDownReload | timer.go:37-43 | the reload countdown: as the delay reaches 0, TIMA := TMA and the timer interrupt is requested |
| Timer.Timer.Step | timer.go:33-57 | the timer becomes `Stepped(old)` |
| Timer.Timer.HandleDivReset | timer.go:113-122 | the timer becomes `DivReset(old)` |
| Timer.Timer.Write | timer.go:92-111 | the timer becomes `Written(old, address, v)` |
| Joypad.ReadSelectsGroup | joypad.go:71-81 | with the directions selected (bit 4 clear), the low nibble is the direction keys and the high nibble the register's; with only the actions selected, the low nibble is the action keys; with neither, 0xFF |
| Joypad.KeyVisible | joypad.go:71-81 | each key's bit (0 while pressed) shows at its place in the low nibble when its group is the one read |
| Joypad.WriteSelectsOnly | joypad.go:83-85 | a write changes only bits 4 and 5, which take the written value's bits |
| Joypad.Joypad.constructor | joypad.go:28-33 | no key pressed and nothing selected, so the register reads 0xFF |
| Joypad.Joypad.Write | joypad.go:83-85 | JOYP becomes `JoypWritten(old, v)`; the key state is kept |
| Mbc.HeaderOf | cartridge.go:22-26 | the header is bytes 0x147, 0x148 and 0x149; an image too short to hold them panics |
| Mbc.SelectMbc | cartridge/mbc.go:13-24 | type 0x00 means no controller, 0x01-0x03 MBC1 and 0x0F-0x13 MBC3; every other type panics |
| Mbc.RomSizeDoubles | cartridge/mbc.go:26-49 | codes 0-8 give 32 KiB·2^code; every other code gives 32 KiB |
| Mbc.RomSizeInBanks | cartridge/mbc.go:26-49 | the ROM is a whole number of 16 KiB banks, and at least two |
| Mbc0.Padded | mbc0.go:15-25 | the ROM is always 32 KiB: the image's bytes, truncated or padded with zeros |
| Mbc0.ReadOf | mbc0.go:27-39 | a read succeeds exactly in the ROM window, and in the RAM window when there is no RAM or the offset is inside the RAM; otherwise it panics |
| Mbc0.RamWritten | mbc0.go:41-50 | a write panics exactly at a RAM-window offset past the end of a present RAM; the RAM's size never changes |
| Mbc0.RomReadsImage | mbc0.go:15-30 | the ROM window reads the image's byte, or 0 past its end |
| Mbc0.WriteOutsideRamIgnored | mbc0.go:41-50 | a write outside the RAM window changes nothing |
| Mbc0.RamRoundTrip | mbc0.go:27-50 | a RAM byte reads back what was written, and no other RAM byte changes |
| Mbc0.NoRam | mbc0.go:31-48 | without RAM, the RAM window reads 0xFF and ignores writes |
| Mbc0.Mbc0.constructor | mbc0.go:15-25 | the padded ROM, and a zeroed RAM of the header's size |
| Mbc0.Mbc0.Write | mbc0.go:41-50 | `ok` and the new RAM are as `RamWritten` says; after a panic the RAM is unchanged |
| Mbc1.ReadOf | mbc1.go:45-82 | the fixed window reads bank `ramBank << 5` in mode 1 and panics past the image; the switchable window reads bank `romBank \| ramBank << 5` (mode 0) or `romBank`, and 0xFF past the image; external RAM reads 0xFF unless enabled, present and in range; every other address reads 0xFF |
| Mbc1.WrittenBanksValid | mbc1.go:84-97 | writes keep the ROM bank in 1..31, the RAM bank in 0..3 and the mode in 0..1 |
| Mbc1.RamEnableWrite | mbc1.go:86-87 | 0x0000-0x1FFF: RAM is enabled exactly when the low nibble is 0xA; nothing else changes |
| Mbc1.RomBankWrite | mbc1.go:88-93 | 0x2000-0x3FFF: the ROM bank takes the low five bits, with 0 read as 1; nothing else changes |
| Mbc1.RamBankAndModeWrite | mbc1.go:94-97 | 0x4000-0x5FFF sets the RAM bank to the low two bits, and 0x6000-0x7FFF sets the mode to bit 0 |
| Mbc1.SwitchableBankValue | mbc1.go:54-58 | the switchable window's bank is `romBank + 32·ramBank` in mode 0 and `romBank` in mode 1 |
| Mbc1.RamWritten | mbc1.go:98-112 | a RAM write never changes the RAM's size |
| Mbc1.RamRoundTrip | mbc1.go:64-78 | a RAM write that reaches the RAM reads back at the same address (also lines 98-112) |
| Mbc1.RamInaccessible | mbc1.go:65-101 | with RAM disabled, or with no RAM, the window reads 0xFF and writes are dropped |
| Mbc1.Mbc1.constructor | mbc1.go:27-43 | the whole image as ROM, ROM bank 1, RAM bank 0, RAM off, mode 0, and a zeroed RAM only for types 0x02 and 0x03 |
| Mbc1.Mbc1.Write | mbc1.go:84-113 | writes to the ROM area set the registers as `BanksWritten` says and other writes leave them; the RAM becomes `RamWritten(old)` |
| Cartridge.CartWritten | cartridge.go:38-40 | a write keeps the controller kind and its invariant; only an MBC0 write past its RAM panics |
| Cartridge.Initial | cartridge/mbc.go:13-24 | the controller state a new cartridge starts in satisfies the controller's invariant |
| Cartridge.RamRoundTrip | cartridge.go:34-40 | whatever the controller, a byte written through the cartridge to enabled external RAM that a RAM byte backs is read back through the cartridge, and the write does not panic |
| Cartridge.Mbc3RamBanks | mbc3.go:29-35 | an MBC3 cartridge's RAM bank count is the RAM size over 8 KiB: 0, 0, 1, 4, 16 and 8 banks for size codes 0 to 5 and none otherwise, so the 2 KiB chip of code 0x01 is never reachable |
| Cartridge.Cartridge.constructor | cartridge.go:28-31 | the controller for the header's type, built over the image, in its initial state (also cartridge/mbc.go:13-24) |
| Cartridge.Cartridge.Write | cartridge.go:38-40 | `ok` and the new state are as `CartWritten` says |
| Cartridge.NewCartridge | cartridge.go:16-32 | succeeds exactly when the image holds a header and its type is supported; the cartridge then has that header and the initial state |
| Mbc3.RamOffsetInside | mbc3.go:63-66 | a present RAM bank is 0-3, its 16-bit offset is `bank·0x2000 + (address - 0xA000)` without wrapping, and it lies inside the RAM |
| Mbc3.ReadOf | mbc3.go:46-72 | a read panics exactly for a fixed-bank address past the image, a switchable-bank offset past the image, or an address outside 0x0000-0x7FFF and 0xA000-0xBFFF |
| Mbc3.RamWindowWritten | mbc3.go:96-110 | a RAM-window write keeps the controller's invariant |
| Mbc3.Written | mbc3.go:74-112 | a write keeps the invariant, the image and both bank counts |
| Mbc3.RomOffsetWraps | mbc3.go:51-52 | the switchable window reads offset `(bank·0x4000 + address - 0x4000) mod 0x10000`: the offset is computed in uint16 |
| Mbc3.RomBanksAlias | mbc3.go:50-52 | because of the 16-bit offset, ROM banks four apart read the same bytes |
| Mbc3.RamEnableWrite | mbc3.go:76-77 | 0x0000-0x1FFF enables RAM exactly when the low nibble is 0xA, and changes nothing else |
| Mbc3.RomBankWrite | mbc3.go:78-85 | the ROM bank takes the low seven bits, with 0 read as 1, and is kept only when below the bank count; nothing else changes |
| Mbc3.RamBankWrite | mbc3.go:86-91 | the RAM bank register accepts only 0x00-0x03 and 0x08-0x0C; nothing else changes |
| Mbc3.LatchWrite | mbc3.go:92-95 | any write of 0x01 to 0x6000-0x7FFF copies the live clock into the latched one, with no preceding 0x00 needed; other values change nothing |
| Mbc3.RtcVisibleAfterLatch | mbc3.go:58-61 | with a clock register selected, a write reaches the live register but reads back only after a latch (also lines 101-105) |
| Mbc3.RamUnreachable | mbc3.go:53-68 | with RAM disabled, or with no clock register and no present bank selected, the window reads 0xFF and writes change nothing (also lines 96-110) |
| Mbc3.RamRoundTrip | mbc3.go:63-66 | a RAM write to a present bank is read back (also lines 107-110) |
| Mbc3.Mbc3.constructor | mbc3.go:27-44 | bank counts from the header's sizes, ROM bank 1, RAM bank 0, RAM off, a zeroed clock and a zeroed RAM |
| Mbc3.Mbc3.Write | mbc3.go:74-112 | the controller becomes `Written(old, address, v)` |
| Mbc3.Mbc3.WriteBankRegisters | mbc3.go:76-91 | the register writes below 0x6000, as `Written` says |
| Mbc3.Mbc3.WriteRamWindow | mbc3.go:96-110 | the RAM-window write, as `RamWindowWritten` says |
| CartridgeMbc3.LatchedClock | cartridge/mbc3.go:122-145 | a running clock latches five registers |
| CartridgeMbc3.ReadOf | cartridge/mbc3.go:44-76 | a read panics exactly for a ROM bank 0 address past the end of the image |
| CartridgeMbc3.Written | cartridge/mbc3.go:78-114 | a write keeps the invariant, the image, the hardware flags and the RAM size, and never moves the clock base past `now` |
| CartridgeMbc3.RomBankWrite | cartridge/mbc3.go:82-87 | the ROM bank takes the low seven bits, with 0 read as 1, with no check against the image size; nothing else changes |
| CartridgeMbc3.RomPastImage | cartridge/mbc3.go:48-54 | a switchable-window offset past the image reads 0xFF |
| CartridgeMbc3.RamBankWrite | cartridge/mbc3.go:88-89 | the RAM bank register stores any byte; nothing else changes |
| CartridgeMbc3.UnmappedBank | cartridge/mbc3.go:60-72 | banks other than 0-3 and 0x08-0x0C read 0xFF and ignore writes (also lines 102-112) |
| CartridgeMbc3.MissingHardware | cartridge/mbc3.go:60-71 | RAM banks need RAM on the cartridge and clock registers need the timer; otherwise the window reads 0xFF and ignores writes (also lines 102-111) |
| CartridgeMbc3.RamDisabled | cartridge/mbc3.go:56-100 | with RAM disabled, the window reads 0xFF and ignores writes |
| CartridgeMbc3.LatchWrite | cartridge/mbc3.go:90-96 | the clock is latched exactly when the cartridge has a timer, the previous latch byte was 0x00 and this one is 0x01; with a timer the byte is always recorded; without one nothing changes |
| CartridgeMbc3.HaltedLatch | cartridge/mbc3.go:117-120 | a halted clock latches its registers as written |
| CartridgeMbc3.DaysHighBits | cartridge/mbc3.go:135-145 | of the latched days-high register, bit 0 is bit 8 of the day count and bit 7 says more than 511 days; the other bits, halt included, are clear |
| CartridgeMbc3.LatchedClockTotal | cartridge/mbc3.go:122-145 | the latched registers encode the elapsed time: seconds < 60, minutes < 60, hours < 24, and s + 60m + 3600h + 86400·(9-bit days) is the elapsed time modulo 512 days; the carry bit says 512 days have passed |
| CartridgeMbc3.TotalDecomposition | cartridge/mbc3.go:125-135 | the same decomposition of the elapsed seconds, on integers |
| CartridgeMbc3.DayDecomposition | cartridge/mbc3.go:125-127 | the seconds within a day split into hours, minutes and seconds |
| CartridgeMbc3.RtcWrite | cartridge/mbc3.go:148-158 | writeRTC stores the byte; the days-high register also sets halt from bit 6, and a clear bit 6 restarts the clock at `now` |
| CartridgeMbc3.Mbc3.constructor | cartridge/mbc3.go:25-42 | ROM bank 1, RAM bank 0, RAM off; RAM only for types 0x10, 0x12, 0x13 and a timer only for 0x0F, 0x10; zeroed clock registers based at `now` |
| CartridgeMbc3.Mbc3.Write | cartridge/mbc3.go:78-114 | the controller becomes `Written(old, address, v, now)` |
| CartridgeMbc3.Mbc3.WriteControl | cartridge/mbc3.go:80-96 | the register and latch writes below 0x8000, as `Written` says |
| CartridgeMbc3.Mbc3.WriteRam | cartridge/mbc3.go:97-112 | the RAM-window write, as `Written` says |
| CartridgeMbc3.Mbc3.LatchRtc | cartridge/mbc3.go:116-146 | only the clock changes, and it becomes `Latched(old clock, now)` |
| CartridgeMbc3.Mbc3.WriteRtc | cartridge/mbc3.go:148-158 | only the clock changes, and it becomes `RtcWritten(old clock, reg, v, now)` |
| Mmu.WramOffset | mmu.go:104 | `address & 0x1FFF` is always a work-RAM offset |
| Mmu.WithIf | mmu.go:145-146 | storing IF keeps the bus invariant (the PPU's and the timer's view of IF agree) |
| Mmu.PpuWritten | mmu.go:130-131 | a PPU write keeps the bus invariant |
| Mmu.CartWritten | mmu.go:128-133 | a cartridge write keeps the bus invariant whenever the controller does not panic |
| Mmu.BusWritten | mmu.go:126-160 | a write keeps the bus invariant, and only a cartridge address can panic |
| Mmu.WordRead | mmu.go:162-167 | ReadWord succeeds exactly when both byte reads do, with the low byte at the address and the high byte at the address + 1 (wrapping) |
| Mmu.WordWritten | mmu.go:169-175 | WriteWord keeps the bus invariant |
| Mmu.BootRomOverlay | mmu.go:95-98 | while the boot ROM is mapped it answers 0x0000-0x00FF; otherwise, and for the rest of 0x0000-0x7FFF, the cartridge answers |
| Mmu.BootRomLatch | mmu.go:149-152 | with the boot ROM mapped, a nonzero write to 0xFF50 unmaps it and stores nothing; a zero write lands in the I/O block |
| Mmu.BootRomStaysOff | mmu.go:126-160 | no bus write maps the boot ROM again |
| Mmu.CartridgeWrites | mmu.go:128-133 | writes to 0x0000-0x7FFF and 0xA000-0xBFFF go to the cartridge, even under the mapped boot ROM, and change nothing else |
| Mmu.EchoRam | mmu.go:103-135 | 0xE000-0xFDFF reads and writes the work-RAM byte 0x2000 below |
| Mmu.UnusableRegion | mmu.go:107-139 | 0xFEA0-0xFEFF reads 0xFF and ignores writes |
| Mmu.WramRoundTrip | mmu.go:103-135 | a work-RAM write is read back, and every work-RAM byte at a different offset is kept |
| Mmu.HramRoundTrip | mmu.go:117-154 | a high-RAM write (0xFF80-0xFFFE) is read back, and no other high-RAM byte changes |
| Mmu.TimerRouting | mmu.go:109-144 | 0xFF04-0xFF07 go to the timer, for reads and writes |
| Mmu.InterruptRegisters | mmu.go:111-146 | 0xFF0F and 0xFFFF store IF and IE, all eight bits, and read them back; nothing else changes |
| Mmu.LcdRouting | mmu.go:113-148 | 0xFF40-0xFF4B go to the PPU, including 0xFF46, which the PPU ignores: a DMA write has no effect in this layout |
| Mmu.OamWrites | mmu.go:136-137 | a write to 0xFE00-0xFE9F replaces that one OAM byte and changes nothing else |
| Mmu.SerialTransfer | mmu.go:140-142 | writing 0x81 to 0xFF02 stores nothing; any other value lands in the I/O block |
| Mmu.ZeroedWram | mmu.go:85-104 | zeroed work RAM reads 0 at every work-RAM and echo address |
| Mmu.RamWriteKeeps | mmu.go:134-154 | a write to one RAM-backed address leaves every other RAM-backed byte as it was |
| Mmu.WordRoundTrip | mmu.go:162-175 | WriteWord then ReadWord returns the word when both of its bytes are RAM-backed |
| Mmu.Mmu.View | mmu.go:65-77 | the object graph seen as a `Bus` value satisfies the bus invariant |
| Mmu.Mmu.constructor | mmu.go:79-91 | zeroed work RAM, high RAM and I/O block over the given collaborators, with the boot ROM mapped |
| Mmu.Mmu.Write | mmu.go:126-160 | `ok` and the new bus are as `BusWritten` says |
| Mmu.Mmu.WriteCartridge | mmu.go:128-133 | the cartridge cases of Write |
| Mmu.Mmu.WritePpu | mmu.go:130-137 | the PPU cases of Write |
| Mmu.Mmu.WriteWram | mmu.go:134-135 | the work-RAM case of Write |
| Mmu.Mmu.WriteHigh | mmu.go:138-158 | the cases of Write from 0xFF00 up |
| Mmu.Mmu.WriteTimer | mmu.go:143-144 | the timer case of Write |
| Mmu.Mmu.WriteInterrupts | mmu.go:145-146 | the IF and IE cases of Write |
| Mmu.Mmu.WriteIo | mmu.go:149-152 | the boot-ROM latch and the I/O block |
| Mmu.Mmu.WriteHram | mmu.go:153-154 | the high-RAM case of Write |
| Mmu.Mmu.WriteWord | mmu.go:169-175 | `ok` and the new bus are as `WordWritten` says |
| Mmu.Mmu.SetBootRomEnabled | mmu.go:177-179 | only the boot-ROM flag changes |
| MmuPackage.DecoderWritten | mmu/mmu.go:106-144 | a write the shared decoder handles keeps the invariant and leaves the joypad alone |
| MmuPackage.WithOam | mmu/mmu.go:116-117 | replacing the 0xA0 OAM bytes keeps the invariant |
| MmuPackage.DmaSource | mmu/mmu.go:166 | `uint16(v) * 0x100` is page aligned and at most 0xFF00 |
| MmuPackage.DmaSteps | mmu/mmu.go:170-173 | the DMA loop, one iteration per step, always leaves 0xA0 OAM bytes |
| MmuPackage.Dma | mmu/mmu.go:165-174 | a DMA that does not panic keeps the invariant |
| MmuPackage.Written | mmu/mmu.go:106-144 | a write that does not panic keeps the invariant |
| MmuPackage.WordRead | mmu/mmu.go:146-151 | ReadWord succeeds exactly when both byte reads do, with the low byte at the address and the high byte at the address + 1 (wrapping) |
| MmuPackage.WordWritten | mmu/mmu.go:153-159 | WriteWord keeps the invariant |
| MmuPackage.JoypadRouting | mmu/mmu.go:87-121 | 0xFF00 reads and writes go to the joypad register and nowhere else |
| MmuPackage.SerialAndBootControl | mmu/mmu.go:122-136 | writing 0x81 to 0xFF02 stores nothing, other values land in the I/O block; writing 0 to 0xFF50 lands in the I/O block and leaves the boot ROM mapped |
| MmuPackage.EchoRam | mmu/mmu.go:81-115 | 0xE000-0xFDFF reads and writes the work-RAM byte 0x2000 below |
| MmuPackage.UnusableRegion | mmu/mmu.go:85-119 | 0xFEA0-0xFEFF reads 0xFF and ignores writes |
| MmuPackage.WordRoundTrip | mmu/mmu.go:146-159 | WriteWord then ReadWord returns the word when both of its bytes are RAM-backed |
| MmuPackage.OamRead | mmu/mmu.go:83-84 | 0xFE00-0xFE9F read the OAM bytes, and no other address reads OAM |
| MmuPackage.DmaReadUnchanged | mmu/mmu.go:170-173 | an iteration reads the byte its source held before the DMA began, though earlier iterations have written OAM |
| MmuPackage.DmaWriteStep | mmu/mmu.go:172 | an iteration stores what it read in its own OAM byte and nowhere else |
| MmuPackage.DmaStepsCopy | mmu/mmu.go:170-173 | the loop succeeds exactly when every source read does, and then OAM holds the source bytes as they were before the copy, OAM's own page included |
| MmuPackage.DmaCopiesSource | mmu/mmu.go:129-174 | writing v to 0xFF46 fails exactly when one of the 0xA0 source reads fails; otherwise OAM byte i reads back the pre-DMA byte at v * 0x100 + i, and nothing but OAM changes |
| MmuPackage.DmaStepNext | mmu/mmu.go:170-173 | the next iteration reads the pre-DMA source byte and extends the copy by one byte |
| MmuPackage.DmaStore | mmu/mmu.go:116-117 | writing byte i at 0xFE00 + i stores it in OAM byte i, cannot fail and changes nothing else (also line 172) |
| MmuPackage.DmaByCopy | mmu/mmu.go:165-174 | a complete copy is the DMA's result |
| MmuPackage.DmaFailedRead | mmu/mmu.go:170-173 | one failed source read makes the whole DMA fail |
| MmuPackage.Mmu.View | mmu/mmu.go:41-54 | the object graph seen as a value satisfies the invariant |
| MmuPackage.Mmu.constructor | mmu/mmu.go:56-69 | zeroed memories over the given collaborators, the joypad included, with the boot ROM mapped |
| MmuPackage.Mmu.Write | mmu/mmu.go:106-144 | `ok` and the new state are as `Written` says |
| MmuPackage.Mmu.DmaTransfer | mmu/mmu.go:165-174 | `ok` and the new state are as `Dma` says |
| MmuPackage.Mmu.CopyByte | mmu/mmu.go:171-172 | one iteration: the byte read is stored in OAM byte i, as `DmaRead` says |
| MmuPackage.Mmu.WriteWord | mmu/mmu.go:153-159 | `ok` and the new state are as `WordWritten` says |
| MmuPackage.Mmu.SetBootRomEnabled | mmu/mmu.go:161-163 | only the boot-ROM flag changes |
| Ppu.LineOf | ppu.go:200-218 | the inputs of one scanline (registers, VRAM and OAM) are well formed |
| Ppu.BitIsSet | ppu.go:169-198 | the byte-numbered bit test agrees with `IsBitSet` |
| Ppu.WithMode | ppu.go:158-162 | STAT with the mode in bits 1-0 and bits 7-2 kept |
| Ppu.RequestMasks | ppu.go:145-198 | requesting V-blank ORs in 0x01 and requesting LCD ORs in 0x02 |
| Ppu.Written | ppu.go:491-531 | a write to any register but LCDC leaves LY, the mode, the counter and LCDC alone |
| Ppu.VramWritten | ppu.go:439-443 | VRAM keeps its 0x2000 bytes (also lines 491-531) |
| Ppu.OamWritten | ppu.go:450-453 | OAM keeps its 0xA0 bytes (also lines 491-531) |
| Ppu.ReadOf | ppu.go:455-489 | STAT reads with bit 7 set; an address that is not a register, VRAM or OAM reads 0xFF |
| Ppu.OnlyPpuRequestsChain | ppu.go:98-115 | "adds only V-blank and LCD requests" composes |
| Ppu.RequestOnly | ppu.go:180-198 | ORing in bits 0-1 adds only V-blank and LCD requests |
| Ppu.LycRequestsOnly | ppu.go:169-178 | updateLyc adds at most the LCD request |
| Ppu.VBlankCheckRequestsOnly | ppu.go:180-186 | checkVBlankInterrupt adds at most the V-blank and LCD requests |
| Ppu.ModeChecksRequestOnly | ppu.go:188-198 | checkHBlankInterrupt and checkOamInterrupt add at most the LCD request |
| Ppu.HBlankRequestsOnly | ppu.go:131-143 | handleHBlankMode keeps every request and adds only V-blank and LCD |
| Ppu.VBlankRequestsOnly | ppu.go:145-156 | handleVBlankMode keeps every request and adds only V-blank and LCD |
| Ppu.StepKeepsRequests | ppu.go:98-115 | a Step keeps every pending interrupt request and sets no IF bit but V-blank and LCD |
| Ppu.LycMatch | ppu.go:169-174 | on LY == LYC, STAT bit 1 (the mask 2) is set, the coincidence flag (bit 2) is left as it was, and the other bits are kept |
| Ppu.LycMismatch | ppu.go:175-177 | on LY != LYC the coincidence flag is cleared, every other bit is kept and nothing is requested |
| Ppu.LycRequest | ppu.go:169-178 | the LCD interrupt is requested exactly on a match with STAT bit 6 set |
| Ppu.LycFlagNeverSet | ppu.go:169-178 | updateLyc never sets the coincidence flag |
| Ppu.LycMatchForcesModeBit | ppu.go:170-171 | on a match the STAT mode bits read as the mode with bit 1 forced on |
| Ppu.LycKeepsHighBits | ppu.go:169-178 | STAT bits 3-7 survive updateLyc |
| Ppu.StepWhileLcdOff | ppu.go:99-101 | with LCDC bit 7 clear a Step changes nothing and renders nothing |
| Ppu.StepDispatch | ppu.go:103-114 | a Step adds 4 cycles and runs the handler of the current mode |
| Ppu.EnterMode | ppu.go:158-162 | enterMode records the mode in the field and in STAT bits 1-0, keeps bits 7-2 and zeroes the counter |
| Ppu.EnterModeKeepsHighBits | ppu.go:158-162 | STAT bits 3-7 survive enterMode |
| Ppu.OamScan | ppu.go:117-121 | OAM scan lasts until the counter reaches 80, then VRAM mode starts with nothing requested |
| Ppu.VramScan | ppu.go:123-129 | VRAM mode lasts until the counter reaches 172; then the line is rendered, H-blank starts and STAT bit 3 decides the LCD request |
| Ppu.RequestBits | ppu.go:145-156 | the V-blank and LCD requests set IF bits 0 and 1 |
| Ppu.HBlankToVBlank | ppu.go:131-143 | leaving H-blank on line 143 enters V-blank on line 144 and requests V-blank, and LCD too when STAT bit 4 is set (also lines 180-186) |
| Ppu.HBlankToOam | ppu.go:131-143 | leaving H-blank on any other line moves to the next line in OAM mode |
| Ppu.VBlankCounterKept | ppu.go:145-156 | in V-blank the counter is not reset when a line ends, so LY advances with the counter kept |
| Ppu.VBlankWraps | ppu.go:145-167 | after line 153 LY wraps to 0 in OAM mode with the counter reset |
| Ppu.VBlankOneLinePerStep | ppu.go:145-156 | after the first V-blank line, each of the following Steps advances LY by one |
| Ppu.StepConsistent | ppu.go:98-167 | a Step keeps the mode in 0..3, LY in 0..153, and LY at 144 or more exactly in V-blank |
| Ppu.HBlankConsistent | ppu.go:131-143 | handleHBlankMode keeps the machine consistent |
| Ppu.VBlankConsistent | ppu.go:145-156 | handleVBlankMode keeps the machine consistent |
| Ppu.RenderedLineVisible | ppu.go:123-129 | in a consistent state the line rendered on leaving VRAM mode is on screen (also lines 200-203) |
| Ppu.StatWriteMask | ppu.go:502-503 | a STAT write takes bits 6-3 from the value and keeps bits 7 and 2-0 |
| Ppu.LcdOff | ppu.go:494-501 | turning the LCD off resets LY to 0 in H-blank, after which Steps change nothing |
| Ppu.RegisterRoundTrip | ppu.go:455-531 | a register other than STAT and LY reads back what was written |
| Ppu.StatAndLy | ppu.go:455-531 | a STAT write reads back as the masked value with bit 7 set; LY ignores writes |
| Ppu.MemoryRoundTrip | ppu.go:432-453 | VRAM and OAM writes read back and leave the registers alone |
| Ppu.WriteConsistent | ppu.go:491-531 | register writes keep the machine consistent |
| Ppu.PowerOnConsistent | ppu.go:85-96 | the power-on state is consistent, with the LCD on (also lines 537-560) |
| Ppu.DrawWindow | ppu.go:276-290 | every column gets the window's pixel from its first column on and keeps its value left of it |
| Ppu.Ppu.CurrentLine | ppu.go:200-218 | what the current scanline is drawn from is well formed |
| Ppu.Ppu.constructor | ppu.go:85-96 | the power-on registers, zeroed VRAM, OAM and framebuffer, all fresh |
| Ppu.Ppu.EnterMode | ppu.go:158-162 | the new state is `EnteredMode(old, mode)` |
| Ppu.Ppu.UpdateLyc | ppu.go:169-178 | the new state is `LycUpdated(old)` |
| Ppu.Ppu.MoveToNextScanline | ppu.go:164-167 | the new state is `NextScanline(old)` |
| Ppu.Ppu.CheckVBlankInterrupt | ppu.go:180-186 | the new state is `VBlankChecked(old)` |
| Ppu.Ppu.CheckHBlankInterrupt | ppu.go:188-192 | the new state is `HBlankChecked(old)` |
| Ppu.Ppu.CheckOamInterrupt | ppu.go:194-198 | the new state is `OamChecked(old)` |
| Ppu.Ppu.HandleOamMode | ppu.go:117-121 | the new state is `OamHandled(old)` |
| Ppu.Ppu.HandleVramMode | ppu.go:123-129 | the new state is `VramHandled(old)`; leaving VRAM mode renders row LY and no other row |
| Ppu.Ppu.HandleHBlankMode | ppu.go:131-143 | the new state is `HBlankHandled(old)` |
| Ppu.Ppu.HandleVBlankMode | ppu.go:145-156 | the new state is `VBlankHandled(old)` |
| Ppu.Ppu.Step | ppu.go:98-115 | the new state is `Stepped(old)`; row LY holds `ScanlinePixel` of the line when the step leaves VRAM mode, and no other row changes |
| Ppu.Ppu.RenderScanline | ppu.go:200-218 | for LY < 144 row LY holds `ScanlinePixel` of the line in every column; no other row changes |
| Ppu.Ppu.RenderBackgroundLayer | ppu.go:205-209 | the row cleared, then the background if LCDC bit 0 is set |
| Ppu.Ppu.RenderWindowLayer | ppu.go:211-213 | the window over the background when LCDC bit 5 is set and shouldRenderWindow holds |
| Ppu.Ppu.ClearScanline | ppu.go:220-224 | row LY is all 0 |
| Ppu.Ppu.ClearRow | ppu.go:220-224 | every column of the row is 0 (also lines 555-559) |
| Ppu.Ppu.RenderBackground | ppu.go:230-248 | column x of the row holds the scrolled background map's pixel |
| Ppu.Ppu.RenderWindow | ppu.go:264-291 | for LY at or below WY the window is drawn from its first column; the rest of the row is kept |
| Ppu.Ppu.RenderSprites | ppu.go:298-310 | the row holds the selected sprites (at most ten, OAM entries 39 down to 0) drawn in order over what was there |
| Ppu.Ppu.RenderNextSprite | ppu.go:302-309 | one step of the loop: the next selected sprite drawn over the ones already drawn |
| Ppu.Ppu.RenderSprite | ppu.go:338-381 | the sprite's on-screen columns are drawn over what is there, with transparency and priority as `SpriteOver` says; other columns are kept |
| Ppu.Ppu.Write | ppu.go:491-531 | registers, VRAM and OAM change as `Written`, `VramWritten` and `OamWritten` say |
| Ppu.Ppu.WriteRegister | ppu.go:493-510 | the register cases: the new state is `Written(old, address, v)` |
| Ppu.Ppu.WriteDrawRegister | ppu.go:504-521 | the scroll, window and palette cases: the new state is `Written(old, address, v)` |
| Ppu.Ppu.PowerOnRegisters | ppu.go:538-550 | the power-on register values |
| Ppu.Ppu.PowerOnDrawRegisters | ppu.go:540-548 | the power-on scroll, window and palette values |
| Ppu.Ppu.Reset | ppu.go:537-560 | the power-on registers, fresh zeroed VRAM and OAM, and a cleared framebuffer |
| PpuRender.ReadVram | ppu.go:432-437 | addresses outside 0x8000-0x9FFF read 0xFF |
| PpuRender.Signed | ppu.go:423-424 | Go's `int8` conversion: a value in -128..127 congruent to the byte modulo 256 |
| PpuRender.TileDataAddress | ppu.go:419-426 | a tile's 16 bytes start on a 16-byte boundary inside 0x8000-0x97FF in both addressing modes |
| PpuRender.TileAddressingModes | ppu.go:419-426 | unsigned addressing puts tile i at 0x8000 + 16i; tiles 128-255 share their address in both modes and tiles 0-127 are 0x1000 apart |
| PpuRender.PixelFromTileData | ppu.go:407-417 | the colour is 0..3, bit 0 from the first byte of the row pair and bit 1 from the second, at bit 7 - px |
| PpuRender.TwoBitColor | ppu.go:412-416 | the two shifted bits form a colour 0..3 whose bits are the bytes' bits at the shift, and 0 once the shift passes bit 7 |
| PpuRender.Shade | ppu.go:293-296 | a palette lookup yields a shade 0..3 (also lines 393-394) |
| PpuRender.ShadeBits | ppu.go:293-296 | shade c of a palette is its bit pair 2c+1..2c |
| PpuRender.TilePixel | ppu.go:397-400 | a background or window tile pixel is a colour 0..3 |
| PpuRender.MapPixel | ppu.go:233-246 | a pixel of the 256x256 background map is a shade 0..3 |
| PpuRender.BackgroundPixel | ppu.go:237-246 | the background pixel at a screen column is a shade 0..3 |
| PpuRender.MapCoordinateWraps | ppu.go:234-240 | tile and pixel coordinates depend only on the position modulo 256 |
| PpuRender.BackgroundWraps | ppu.go:230-248 | the background map repeats every 256 pixels in both directions |
| PpuRender.WindowStart | ppu.go:275-278 | the window's first column is WX - 7, but not below 0 |
| PpuRender.WindowPixel | ppu.go:280-290 | a window pixel is a shade 0..3 |
| PpuRender.SpriteHeight | ppu.go:312-317 | sprites are 8 or 16 lines high |
| PpuRender.SpriteLine | ppu.go:339-344 | the sprite row on LY, mirrored by Y-flip, lies inside the sprite |
| PpuRender.SpriteRow | ppu.go:339-354 | the tile row drawn is 0..7; 8x16 sprites use the even tile on top and the odd tile below |
| PpuRender.SpriteTilePixel | ppu.go:402-405 | sprite tiles use 0x8000-based addressing and give a colour 0..3 |
| PpuRender.SpriteColor | ppu.go:356-368 | the sprite's colour at a screen column is 0..3 |
| PpuRender.SpriteShade | ppu.go:387-395 | the sprite palette lookup yields a shade 0..3 |
| PpuRender.SpriteOver | ppu.go:356-380 | colour 0 leaves the pixel as it was, a sprite with the priority flag stays behind a nonzero pixel, and otherwise the pixel takes the sprite's shade |
| PpuRender.OutsideSprite | ppu.go:356-361 | columns outside the sprite's eight keep their value |
| PpuRender.Selection | ppu.go:302-309 | every sprite the loop selects is on the line |
| PpuRender.Take | ppu.go:302 | the first n elements, a prefix of at most n elements |
| PpuRender.TakeCons | ppu.go:302 | taking from a sequence that starts with x keeps x and takes one fewer from the rest |
| PpuRender.SelectionKeeps | ppu.go:305-307 | an on-line entry is both selected and counted |
| PpuRender.SelectionSkips | ppu.go:305 | an entry off the line is neither selected nor counted |
| PpuRender.SelectionStep | ppu.go:302-309 | entry i is selected exactly when it is on the line |
| PpuRender.SelectionEnds | ppu.go:302 | past entry 0, or with ten sprites drawn, nothing more is selected |
| PpuRender.SelectionTakesFirst | ppu.go:298-310 | the sprites drawn are the first ten (or fewer) on-line OAM entries counting down from 39, in that order |
| PpuRender.AtMostTenSprites | ppu.go:298-310 | at most ten sprites are drawn on a line, all of them on it |
| PpuRender.SpritesKeepShades | ppu.go:338-381 | drawing sprites keeps a framebuffer value in 0..3 |
| PpuRender.BackgroundLayer | ppu.go:205-209 | the background layer is a shade 0..3 |
| PpuRender.WindowOver | ppu.go:264-291 | a column either keeps its value or takes a window shade 0..3 |
| PpuRender.WindowLayer | ppu.go:211-213 | the window over the background is a shade 0..3 |
| PpuRender.SelectionAppend | ppu.go:302-309 | drawing one more selected sprite extends the drawn sequence by that sprite |
| PpuRender.ScanlineShades | ppu.go:200-218 | every framebuffer value a scanline produces is a shade 0..3 |
| PpuRender.SpritesOverSnoc | ppu.go:306 | drawing one more sprite after a sequence of them is drawing the sequence and then that sprite |
| Scheduler.CpuPhase | scheduler.go:18 | the CPU's step keeps one shared IF register |
| Scheduler.TimerPhase | scheduler.go:21 | the timer's step keeps one shared IF register |
| Scheduler.PpuPhase | scheduler.go:24 | the PPU's step keeps one shared IF register |
| Scheduler.Stepped | scheduler.go:17-28 | a step keeps one shared IF register |
| Scheduler.StepSequence | scheduler.go:17-28 | Step returns the CPU's count, and runs the CPU, then the timer, then the PPU, each once with that count |
| Scheduler.TimerOneStep | scheduler.go:21 | whatever the count, the timer's counter advances by one and TMA and TAC stay |
| Scheduler.RequestsSurvive | scheduler.go:17-28 | no interrupt request raised by the CPU's part is lost; the timer adds at most its bit and the PPU at most V-blank and LCD |
| Scheduler.PhasesKeepRequests | scheduler.go:21-24 | the timer's step and then the PPU's keep every interrupt request and set no IF bit from 3 to 7 |
| Scheduler.RequestsCompose | scheduler.go:21-24 | a timer-only change followed by a PPU-only change keeps every request and bits 3-7 |
| Scheduler.Scheduler.View | scheduler.go:3-7 | the three components see one IF register |
| Scheduler.Scheduler.constructor | scheduler.go:9-15 | the three components, sharing one interrupt controller |
| Scheduler.Scheduler.Step | scheduler.go:17-28 | the new machine, the count and the calls are as `Stepped` says; when the CPU does not panic and the PPU step renders a visible line, that framebuffer row holds the line as it stood before the step, and no other row changes |
| Scheduler.Scheduler.StepCpu | scheduler.go:18 | the CPU phase; the PPU's framebuffer, the line it would render and whether it renders are untouched |
| Scheduler.Scheduler.StepTimer | scheduler.go:21 | the timer phase |
| Scheduler.Scheduler.StepLater | scheduler.go:21-24 | the timer phase and then the PPU phase; a visible line the PPU renders lands in its framebuffer row and no other row changes |
| Scheduler.Scheduler.StepPpu | scheduler.go:24 | the PPU phase; a rendered visible line lands in its framebuffer row and no other row changes |

## Left out

- The display (display.go, display/display.go): window handling, RGBA colour mapping and the framebuffer mutex are UI and concurrency. The model ends at the framebuffer of shades 0..3.
- `GetFrameBuffer` only hands the framebuffer to the display. The model exposes the framebuffer field instead.
- `Joypad.Update` in joypad.go and display/joypad.go polls the keyboard. `buttonState` is an input field of the model.
- main.go is process wiring and is not part of this model.
- The test files are not part of this model: cpu_test.go, test/cpu_test.go, rom_test.go and test/rom_test.go. They load JSON and ROM files and capture stdout.
- `PrintState`, `PrintStateDecimal` and the serial echo are debug output. The serial echo is the `fmt.Printf` after a 0x81 write to 0xFF02. The model keeps that case's effect on state, which is that nothing is stored.
- cartridge.go:29 calls `NewMBC`, and through it `getRomSize` and `getRamSize`, in package main, which defines none of them. The model takes them to be the ones in cartridge/mbc.go:13-68, with the cartridge type choosing among the root MBC0, MBC1 and MBC3 (`Mbc.SelectMbc`, `Mbc.RomSize`, `Mbc.RamSize`).
- Reading the ROM file in `NewCartridge` is I/O. The ROM bytes are the constructor's argument.
- The wall clock of cartridge/mbc3.go (`time.Now`, `time.Since`) is a `now` argument in whole seconds.
- CartridgeMbc3.Written: requires the base time to be at most `now`. This assumes a wall clock that never runs backwards, so a negative elapsed time is not modelled.
- Instruction semantics are not modelled. Every handler body in instructions.go is an empty TODO. Handlers are the tags `Nop` and `Invalid`, and the mnemonic strings are dropped.
- `execute` can never report a branch, because no handler sets `branched`. The branched cycle count therefore never reaches a step's result.
- `getImm8` is not part of the source. It is modelled as a read of the byte at PC followed by PC + 1.
- cpu.go runs over `MmuInterface`. The model runs the CPU over `MockMmu`, the flat 64 KiB memory the CPU tests use. A CPU wired to the full bus is not modelled, because Dafny here has no interfaces.
- mmu/mmu.go's own collaborators are not part of this model: display.PPU, timer.Timer, interrupts.Interrupts, cartridge.Cartridge and the MBC1 of the package layout. The root PPU, timer, interrupt controller and cartridge stand in for them.
- mmu/mmu.go names `addresses.SerialTransfer` and `addresses.BootRomControl`, which the addresses file does not define. The model uses 0xFF02 and 0xFF50, as mmu.go does.
- Scheduler.Scheduler.Step: the cycle count reaches the timer and the PPU only in the ghost list of calls. `Timer.Step` and `PPU.Step` take no argument, so each call advances its component by exactly one step, whatever the count.
- Memory.MemoryReference8: a reference over the CPU's bus (mmu/mmu.go's `MMU` or `MockMmu`, which have the same Read and Write methods) is not modelled. The `byteAt` that would build one is called only by the debug output of cpu.go and is not defined in the source, and the instruction handlers that would use such a reference are empty. References are modelled over the three blocks of memory/memory.go only.
- Memory.Ram.Write: requires the offset to be inside the block, like `Memory.Ram.Read`, `Memory.Rom.Read`, the `Memory.IoRegisters` accessors, `Memory.BlockRead`, `Memory.BlockWrite` and the `Memory.MemoryReference8` operations. Go's out-of-range index panic is not modelled for these blocks, because every caller in the emulator stays in bounds.
- The `strobe` field of the joypad is declared and never used. It is kept but has no behaviour.
- Several helper methods only split a Go method's proof into smaller obligations. Each is proved against a piece of the same pure function. They are `Cpu.Cpu.CountDown`, `Cpu.Cpu.Run` and `Cpu.WriteHalves` (`Cpu.ScanPending` is the loop of `handleInterrupts` on its own); the PPU's `RenderBackgroundLayer`, `RenderWindowLayer`, `RenderNextSprite`, `ClearRow`, `WriteRegister`, `WriteDrawRegister` and `PowerOnDrawRegisters`; the bus writers `Write*` of `Mmu.Mmu`; `MmuPackage.Mmu.CopyByte`; the scheduler's `StepCpu`, `StepTimer`, `StepLater` and `StepPpu`; and `DrawWindow`.
- Go's `address & 0x1FFF` for work RAM is written `address % 0x2000`. These are the same for a 16-bit address, as `Mmu.WramOffset` states.
