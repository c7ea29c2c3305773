/**
 * The two opcode tables of instructions.go.
 *
 * Every handler body in the source is an empty TODO except the one behind
 * INVALID_INSTRUCTION, which stops the emulator; handlers are therefore
 * modelled as the tag `Nop` or `Invalid`.  Mnemonics are diagnostic strings
 * and are not part of the model.  Each Go slice literal is written here as
 * the concatenation of its rows of sixteen entries, in source order.
 */
module Instructions {
  import opened Bytes

  /** A cost pair; which field the CPU reports depends on whether the handler branched. */
  datatype Cycles = Cycles(branchedCycles: bv8, cycles: bv8)

  /** `NewCycles(cycles, branchedCycles)`: note the argument order. */
  function NewCycles(cycles: bv8, branchedCycles: bv8): (c: Cycles)
    ensures c.cycles == cycles && c.branchedCycles == branchedCycles
  {
    Cycles(branchedCycles, cycles)
  }

  datatype Handler = Nop | Invalid

  datatype Instruction = Instruction(opcode: bv8, length: bv8, cycles: Cycles, execute: Handler)

  /** The placeholder stored for unused opcodes: opcode 0xFF, length 0, 1/1 cycles, fatal handler. */
  const INVALID_INSTRUCTION: Instruction := Instruction(0xFF, 0, NewCycles(1, 1), Invalid)

  /** The table indices holding INVALID_INSTRUCTION. */
  predicate IsUnassigned(i: int)
  {
    i in {0xCB, 0xD3, 0xDB, 0xDD, 0xE3, 0xE4, 0xEB, 0xEC, 0xED, 0xF4}
  }

  /**
   * Conditional control flow, recognised from the SM83 encoding: JR cc is
   * 001cc000, RET cc 110cc000, JP cc 110cc010 and CALL cc 110cc100.
   */
  predicate IsConditional(op: bv8)
  {
    op & 0xE7 in {0x20, 0xC0, 0xC2, 0xC4}
  }

  /** The cost pairs the table gives the four conditional families. */
  function ConditionalCycles(op: bv8): Cycles
    requires IsConditional(op)
  {
    match op & 0xE7
    case 0x20 => NewCycles(12, 8)
    case 0xC0 => NewCycles(20, 8)
    case 0xC2 => NewCycles(16, 12)
    case _ => NewCycles(24, 12)
  }

  /**
   * What entry `i` of INSTRUCTIONS is: INVALID_INSTRUCTION at the unused
   * indices; otherwise a no-op handler whose opcode is `i`, except that the
   * last two entries (indices 0xFC and 0xFD) carry opcodes 0xFE and 0xFF;
   * length 1..3; both costs multiples of 4; the two costs differ exactly for
   * the conditional branches, which have the family's pair.
   */
  predicate UnprefixedEntryOk(e: Instruction, i: int)
  {
    if IsUnassigned(i) then e == INVALID_INSTRUCTION
    else
      && e.execute == Nop
      && e.opcode as int == (if i < 0xFC then i else i + 2)
      && 1 <= e.length <= 3
      && 0 < e.cycles.cycles && e.cycles.cycles & 3 == 0 && e.cycles.branchedCycles & 3 == 0
      && (IsConditional(e.opcode) <==> e.cycles.cycles != e.cycles.branchedCycles)
      && (IsConditional(e.opcode) ==> e.cycles == ConditionalCycles(e.opcode))
  }

  predicate UnprefixedFrom(s: seq<Instruction>, base: int)
  {
    forall j | 0 <= j < |s| :: UnprefixedEntryOk(s[j], base + j)
  }

  /**
   * What entry `i` of CB_INSTRUCTIONS is: opcode `i`, length 2, equal costs,
   * 16 for the (HL) operand (low three bits 110) and 8 otherwise.
   */
  predicate PrefixedEntryOk(e: Instruction, i: int)
  {
    && e.execute == Nop
    && e.opcode as int == i
    && e.length == 2
    && e.cycles.cycles == e.cycles.branchedCycles == (if e.opcode & 7 == 6 then 16 else 8)
  }

  predicate PrefixedFrom(s: seq<Instruction>, base: int)
  {
    forall j | 0 <= j < |s| :: PrefixedEntryOk(s[j], base + j)
  }

  const UNPREFIXED_0: seq<Instruction> := [
    Instruction(0x00, 1, NewCycles(4, 4), Nop),
    Instruction(0x01, 3, NewCycles(12, 12), Nop),
    Instruction(0x02, 1, NewCycles(8, 8), Nop),
    Instruction(0x03, 1, NewCycles(8, 8), Nop),
    Instruction(0x04, 1, NewCycles(4, 4), Nop),
    Instruction(0x05, 1, NewCycles(4, 4), Nop),
    Instruction(0x06, 2, NewCycles(8, 8), Nop),
    Instruction(0x07, 1, NewCycles(4, 4), Nop),
    Instruction(0x08, 3, NewCycles(20, 20), Nop),
    Instruction(0x09, 1, NewCycles(8, 8), Nop),
    Instruction(0x0A, 1, NewCycles(8, 8), Nop),
    Instruction(0x0B, 1, NewCycles(8, 8), Nop),
    Instruction(0x0C, 1, NewCycles(4, 4), Nop),
    Instruction(0x0D, 1, NewCycles(4, 4), Nop),
    Instruction(0x0E, 2, NewCycles(8, 8), Nop),
    Instruction(0x0F, 1, NewCycles(4, 4), Nop)
  ]

  const UNPREFIXED_1: seq<Instruction> := [
    Instruction(0x10, 1, NewCycles(4, 4), Nop),
    Instruction(0x11, 3, NewCycles(12, 12), Nop),
    Instruction(0x12, 1, NewCycles(8, 8), Nop),
    Instruction(0x13, 1, NewCycles(8, 8), Nop),
    Instruction(0x14, 1, NewCycles(4, 4), Nop),
    Instruction(0x15, 1, NewCycles(4, 4), Nop),
    Instruction(0x16, 2, NewCycles(8, 8), Nop),
    Instruction(0x17, 1, NewCycles(4, 4), Nop),
    Instruction(0x18, 2, NewCycles(12, 12), Nop),
    Instruction(0x19, 1, NewCycles(8, 8), Nop),
    Instruction(0x1A, 1, NewCycles(8, 8), Nop),
    Instruction(0x1B, 1, NewCycles(8, 8), Nop),
    Instruction(0x1C, 1, NewCycles(4, 4), Nop),
    Instruction(0x1D, 1, NewCycles(4, 4), Nop),
    Instruction(0x1E, 2, NewCycles(8, 8), Nop),
    Instruction(0x1F, 1, NewCycles(4, 4), Nop)
  ]

  const UNPREFIXED_2: seq<Instruction> := [
    Instruction(0x20, 2, NewCycles(12, 8), Nop),
    Instruction(0x21, 3, NewCycles(12, 12), Nop),
    Instruction(0x22, 1, NewCycles(8, 8), Nop),
    Instruction(0x23, 1, NewCycles(8, 8), Nop),
    Instruction(0x24, 1, NewCycles(4, 4), Nop),
    Instruction(0x25, 1, NewCycles(4, 4), Nop),
    Instruction(0x26, 2, NewCycles(8, 8), Nop),
    Instruction(0x27, 1, NewCycles(4, 4), Nop),
    Instruction(0x28, 2, NewCycles(12, 8), Nop),
    Instruction(0x29, 1, NewCycles(8, 8), Nop),
    Instruction(0x2A, 1, NewCycles(8, 8), Nop),
    Instruction(0x2B, 1, NewCycles(8, 8), Nop),
    Instruction(0x2C, 1, NewCycles(4, 4), Nop),
    Instruction(0x2D, 1, NewCycles(4, 4), Nop),
    Instruction(0x2E, 2, NewCycles(8, 8), Nop),
    Instruction(0x2F, 1, NewCycles(4, 4), Nop)
  ]

  const UNPREFIXED_3: seq<Instruction> := [
    Instruction(0x30, 2, NewCycles(12, 8), Nop),
    Instruction(0x31, 3, NewCycles(12, 12), Nop),
    Instruction(0x32, 1, NewCycles(8, 8), Nop),
    Instruction(0x33, 1, NewCycles(8, 8), Nop),
    Instruction(0x34, 1, NewCycles(12, 12), Nop),
    Instruction(0x35, 1, NewCycles(12, 12), Nop),
    Instruction(0x36, 2, NewCycles(12, 12), Nop),
    Instruction(0x37, 1, NewCycles(4, 4), Nop),
    Instruction(0x38, 2, NewCycles(12, 8), Nop),
    Instruction(0x39, 1, NewCycles(8, 8), Nop),
    Instruction(0x3A, 1, NewCycles(8, 8), Nop),
    Instruction(0x3B, 1, NewCycles(8, 8), Nop),
    Instruction(0x3C, 1, NewCycles(4, 4), Nop),
    Instruction(0x3D, 1, NewCycles(4, 4), Nop),
    Instruction(0x3E, 2, NewCycles(8, 8), Nop),
    Instruction(0x3F, 1, NewCycles(4, 4), Nop)
  ]

  const UNPREFIXED_4: seq<Instruction> := [
    Instruction(0x40, 1, NewCycles(4, 4), Nop),
    Instruction(0x41, 1, NewCycles(4, 4), Nop),
    Instruction(0x42, 1, NewCycles(4, 4), Nop),
    Instruction(0x43, 1, NewCycles(4, 4), Nop),
    Instruction(0x44, 1, NewCycles(4, 4), Nop),
    Instruction(0x45, 1, NewCycles(4, 4), Nop),
    Instruction(0x46, 1, NewCycles(8, 8), Nop),
    Instruction(0x47, 1, NewCycles(4, 4), Nop),
    Instruction(0x48, 1, NewCycles(4, 4), Nop),
    Instruction(0x49, 1, NewCycles(4, 4), Nop),
    Instruction(0x4A, 1, NewCycles(4, 4), Nop),
    Instruction(0x4B, 1, NewCycles(4, 4), Nop),
    Instruction(0x4C, 1, NewCycles(4, 4), Nop),
    Instruction(0x4D, 1, NewCycles(4, 4), Nop),
    Instruction(0x4E, 1, NewCycles(8, 8), Nop),
    Instruction(0x4F, 1, NewCycles(4, 4), Nop)
  ]

  const UNPREFIXED_5: seq<Instruction> := [
    Instruction(0x50, 1, NewCycles(4, 4), Nop),
    Instruction(0x51, 1, NewCycles(4, 4), Nop),
    Instruction(0x52, 1, NewCycles(4, 4), Nop),
    Instruction(0x53, 1, NewCycles(4, 4), Nop),
    Instruction(0x54, 1, NewCycles(4, 4), Nop),
    Instruction(0x55, 1, NewCycles(4, 4), Nop),
    Instruction(0x56, 1, NewCycles(8, 8), Nop),
    Instruction(0x57, 1, NewCycles(4, 4), Nop),
    Instruction(0x58, 1, NewCycles(4, 4), Nop),
    Instruction(0x59, 1, NewCycles(4, 4), Nop),
    Instruction(0x5A, 1, NewCycles(4, 4), Nop),
    Instruction(0x5B, 1, NewCycles(4, 4), Nop),
    Instruction(0x5C, 1, NewCycles(4, 4), Nop),
    Instruction(0x5D, 1, NewCycles(4, 4), Nop),
    Instruction(0x5E, 1, NewCycles(8, 8), Nop),
    Instruction(0x5F, 1, NewCycles(4, 4), Nop)
  ]

  const UNPREFIXED_6: seq<Instruction> := [
    Instruction(0x60, 1, NewCycles(4, 4), Nop),
    Instruction(0x61, 1, NewCycles(4, 4), Nop),
    Instruction(0x62, 1, NewCycles(4, 4), Nop),
    Instruction(0x63, 1, NewCycles(4, 4), Nop),
    Instruction(0x64, 1, NewCycles(4, 4), Nop),
    Instruction(0x65, 1, NewCycles(4, 4), Nop),
    Instruction(0x66, 1, NewCycles(8, 8), Nop),
    Instruction(0x67, 1, NewCycles(4, 4), Nop),
    Instruction(0x68, 1, NewCycles(4, 4), Nop),
    Instruction(0x69, 1, NewCycles(4, 4), Nop),
    Instruction(0x6A, 1, NewCycles(4, 4), Nop),
    Instruction(0x6B, 1, NewCycles(4, 4), Nop),
    Instruction(0x6C, 1, NewCycles(4, 4), Nop),
    Instruction(0x6D, 1, NewCycles(4, 4), Nop),
    Instruction(0x6E, 1, NewCycles(8, 8), Nop),
    Instruction(0x6F, 1, NewCycles(4, 4), Nop)
  ]

  const UNPREFIXED_7: seq<Instruction> := [
    Instruction(0x70, 1, NewCycles(8, 8), Nop),
    Instruction(0x71, 1, NewCycles(8, 8), Nop),
    Instruction(0x72, 1, NewCycles(8, 8), Nop),
    Instruction(0x73, 1, NewCycles(8, 8), Nop),
    Instruction(0x74, 1, NewCycles(8, 8), Nop),
    Instruction(0x75, 1, NewCycles(8, 8), Nop),
    Instruction(0x76, 1, NewCycles(4, 4), Nop),
    Instruction(0x77, 1, NewCycles(8, 8), Nop),
    Instruction(0x78, 1, NewCycles(4, 4), Nop),
    Instruction(0x79, 1, NewCycles(4, 4), Nop),
    Instruction(0x7A, 1, NewCycles(4, 4), Nop),
    Instruction(0x7B, 1, NewCycles(4, 4), Nop),
    Instruction(0x7C, 1, NewCycles(4, 4), Nop),
    Instruction(0x7D, 1, NewCycles(4, 4), Nop),
    Instruction(0x7E, 1, NewCycles(8, 8), Nop),
    Instruction(0x7F, 1, NewCycles(4, 4), Nop)
  ]

  const UNPREFIXED_8: seq<Instruction> := [
    Instruction(0x80, 1, NewCycles(4, 4), Nop),
    Instruction(0x81, 1, NewCycles(4, 4), Nop),
    Instruction(0x82, 1, NewCycles(4, 4), Nop),
    Instruction(0x83, 1, NewCycles(4, 4), Nop),
    Instruction(0x84, 1, NewCycles(4, 4), Nop),
    Instruction(0x85, 1, NewCycles(4, 4), Nop),
    Instruction(0x86, 1, NewCycles(8, 8), Nop),
    Instruction(0x87, 1, NewCycles(4, 4), Nop),
    Instruction(0x88, 1, NewCycles(4, 4), Nop),
    Instruction(0x89, 1, NewCycles(4, 4), Nop),
    Instruction(0x8A, 1, NewCycles(4, 4), Nop),
    Instruction(0x8B, 1, NewCycles(4, 4), Nop),
    Instruction(0x8C, 1, NewCycles(4, 4), Nop),
    Instruction(0x8D, 1, NewCycles(4, 4), Nop),
    Instruction(0x8E, 1, NewCycles(8, 8), Nop),
    Instruction(0x8F, 1, NewCycles(4, 4), Nop)
  ]

  const UNPREFIXED_9: seq<Instruction> := [
    Instruction(0x90, 1, NewCycles(4, 4), Nop),
    Instruction(0x91, 1, NewCycles(4, 4), Nop),
    Instruction(0x92, 1, NewCycles(4, 4), Nop),
    Instruction(0x93, 1, NewCycles(4, 4), Nop),
    Instruction(0x94, 1, NewCycles(4, 4), Nop),
    Instruction(0x95, 1, NewCycles(4, 4), Nop),
    Instruction(0x96, 1, NewCycles(8, 8), Nop),
    Instruction(0x97, 1, NewCycles(4, 4), Nop),
    Instruction(0x98, 1, NewCycles(4, 4), Nop),
    Instruction(0x99, 1, NewCycles(4, 4), Nop),
    Instruction(0x9A, 1, NewCycles(4, 4), Nop),
    Instruction(0x9B, 1, NewCycles(4, 4), Nop),
    Instruction(0x9C, 1, NewCycles(4, 4), Nop),
    Instruction(0x9D, 1, NewCycles(4, 4), Nop),
    Instruction(0x9E, 1, NewCycles(8, 8), Nop),
    Instruction(0x9F, 1, NewCycles(4, 4), Nop)
  ]

  const UNPREFIXED_A: seq<Instruction> := [
    Instruction(0xA0, 1, NewCycles(4, 4), Nop),
    Instruction(0xA1, 1, NewCycles(4, 4), Nop),
    Instruction(0xA2, 1, NewCycles(4, 4), Nop),
    Instruction(0xA3, 1, NewCycles(4, 4), Nop),
    Instruction(0xA4, 1, NewCycles(4, 4), Nop),
    Instruction(0xA5, 1, NewCycles(4, 4), Nop),
    Instruction(0xA6, 1, NewCycles(8, 8), Nop),
    Instruction(0xA7, 1, NewCycles(4, 4), Nop),
    Instruction(0xA8, 1, NewCycles(4, 4), Nop),
    Instruction(0xA9, 1, NewCycles(4, 4), Nop),
    Instruction(0xAA, 1, NewCycles(4, 4), Nop),
    Instruction(0xAB, 1, NewCycles(4, 4), Nop),
    Instruction(0xAC, 1, NewCycles(4, 4), Nop),
    Instruction(0xAD, 1, NewCycles(4, 4), Nop),
    Instruction(0xAE, 1, NewCycles(8, 8), Nop),
    Instruction(0xAF, 1, NewCycles(4, 4), Nop)
  ]

  const UNPREFIXED_B: seq<Instruction> := [
    Instruction(0xB0, 1, NewCycles(4, 4), Nop),
    Instruction(0xB1, 1, NewCycles(4, 4), Nop),
    Instruction(0xB2, 1, NewCycles(4, 4), Nop),
    Instruction(0xB3, 1, NewCycles(4, 4), Nop),
    Instruction(0xB4, 1, NewCycles(4, 4), Nop),
    Instruction(0xB5, 1, NewCycles(4, 4), Nop),
    Instruction(0xB6, 1, NewCycles(8, 8), Nop),
    Instruction(0xB7, 1, NewCycles(4, 4), Nop),
    Instruction(0xB8, 1, NewCycles(4, 4), Nop),
    Instruction(0xB9, 1, NewCycles(4, 4), Nop),
    Instruction(0xBA, 1, NewCycles(4, 4), Nop),
    Instruction(0xBB, 1, NewCycles(4, 4), Nop),
    Instruction(0xBC, 1, NewCycles(4, 4), Nop),
    Instruction(0xBD, 1, NewCycles(4, 4), Nop),
    Instruction(0xBE, 1, NewCycles(8, 8), Nop),
    Instruction(0xBF, 1, NewCycles(4, 4), Nop)
  ]

  const UNPREFIXED_C: seq<Instruction> := [
    Instruction(0xC0, 1, NewCycles(20, 8), Nop),
    Instruction(0xC1, 1, NewCycles(12, 12), Nop),
    Instruction(0xC2, 3, NewCycles(16, 12), Nop),
    Instruction(0xC3, 3, NewCycles(16, 16), Nop),
    Instruction(0xC4, 3, NewCycles(24, 12), Nop),
    Instruction(0xC5, 1, NewCycles(16, 16), Nop),
    Instruction(0xC6, 2, NewCycles(8, 8), Nop),
    Instruction(0xC7, 1, NewCycles(16, 16), Nop),
    Instruction(0xC8, 1, NewCycles(20, 8), Nop),
    Instruction(0xC9, 1, NewCycles(16, 16), Nop),
    Instruction(0xCA, 3, NewCycles(16, 12), Nop),
    INVALID_INSTRUCTION,
    Instruction(0xCC, 3, NewCycles(24, 12), Nop),
    Instruction(0xCD, 3, NewCycles(24, 24), Nop),
    Instruction(0xCE, 2, NewCycles(8, 8), Nop),
    Instruction(0xCF, 1, NewCycles(16, 16), Nop)
  ]

  const UNPREFIXED_D: seq<Instruction> := [
    Instruction(0xD0, 1, NewCycles(20, 8), Nop),
    Instruction(0xD1, 1, NewCycles(12, 12), Nop),
    Instruction(0xD2, 3, NewCycles(16, 12), Nop),
    INVALID_INSTRUCTION,
    Instruction(0xD4, 3, NewCycles(24, 12), Nop),
    Instruction(0xD5, 1, NewCycles(16, 16), Nop),
    Instruction(0xD6, 2, NewCycles(8, 8), Nop),
    Instruction(0xD7, 1, NewCycles(16, 16), Nop),
    Instruction(0xD8, 1, NewCycles(20, 8), Nop),
    Instruction(0xD9, 1, NewCycles(16, 16), Nop),
    Instruction(0xDA, 3, NewCycles(16, 12), Nop),
    INVALID_INSTRUCTION,
    Instruction(0xDC, 3, NewCycles(24, 12), Nop),
    INVALID_INSTRUCTION,
    Instruction(0xDE, 2, NewCycles(8, 8), Nop),
    Instruction(0xDF, 1, NewCycles(16, 16), Nop)
  ]

  const UNPREFIXED_E: seq<Instruction> := [
    Instruction(0xE0, 2, NewCycles(12, 12), Nop),
    Instruction(0xE1, 1, NewCycles(12, 12), Nop),
    Instruction(0xE2, 1, NewCycles(8, 8), Nop),
    INVALID_INSTRUCTION,
    INVALID_INSTRUCTION,
    Instruction(0xE5, 1, NewCycles(16, 16), Nop),
    Instruction(0xE6, 2, NewCycles(8, 8), Nop),
    Instruction(0xE7, 1, NewCycles(16, 16), Nop),
    Instruction(0xE8, 2, NewCycles(16, 16), Nop),
    Instruction(0xE9, 1, NewCycles(4, 4), Nop),
    Instruction(0xEA, 3, NewCycles(16, 16), Nop),
    INVALID_INSTRUCTION,
    INVALID_INSTRUCTION,
    INVALID_INSTRUCTION,
    Instruction(0xEE, 2, NewCycles(8, 8), Nop),
    Instruction(0xEF, 1, NewCycles(16, 16), Nop)
  ]

  const UNPREFIXED_F: seq<Instruction> := [
    Instruction(0xF0, 2, NewCycles(12, 12), Nop),
    Instruction(0xF1, 1, NewCycles(12, 12), Nop),
    Instruction(0xF2, 1, NewCycles(8, 8), Nop),
    Instruction(0xF3, 1, NewCycles(4, 4), Nop),
    INVALID_INSTRUCTION,
    Instruction(0xF5, 1, NewCycles(16, 16), Nop),
    Instruction(0xF6, 2, NewCycles(8, 8), Nop),
    Instruction(0xF7, 1, NewCycles(16, 16), Nop),
    Instruction(0xF8, 2, NewCycles(12, 12), Nop),
    Instruction(0xF9, 1, NewCycles(8, 8), Nop),
    Instruction(0xFA, 3, NewCycles(16, 16), Nop),
    Instruction(0xFB, 1, NewCycles(4, 4), Nop),
    Instruction(0xFE, 2, NewCycles(8, 8), Nop),
    Instruction(0xFF, 1, NewCycles(16, 16), Nop)
  ]

  const PREFIXED_0: seq<Instruction> := [
    Instruction(0x00, 2, NewCycles(8, 8), Nop),
    Instruction(0x01, 2, NewCycles(8, 8), Nop),
    Instruction(0x02, 2, NewCycles(8, 8), Nop),
    Instruction(0x03, 2, NewCycles(8, 8), Nop),
    Instruction(0x04, 2, NewCycles(8, 8), Nop),
    Instruction(0x05, 2, NewCycles(8, 8), Nop),
    Instruction(0x06, 2, NewCycles(16, 16), Nop),
    Instruction(0x07, 2, NewCycles(8, 8), Nop),
    Instruction(0x08, 2, NewCycles(8, 8), Nop),
    Instruction(0x09, 2, NewCycles(8, 8), Nop),
    Instruction(0x0A, 2, NewCycles(8, 8), Nop),
    Instruction(0x0B, 2, NewCycles(8, 8), Nop),
    Instruction(0x0C, 2, NewCycles(8, 8), Nop),
    Instruction(0x0D, 2, NewCycles(8, 8), Nop),
    Instruction(0x0E, 2, NewCycles(16, 16), Nop),
    Instruction(0x0F, 2, NewCycles(8, 8), Nop)
  ]

  const PREFIXED_1: seq<Instruction> := [
    Instruction(0x10, 2, NewCycles(8, 8), Nop),
    Instruction(0x11, 2, NewCycles(8, 8), Nop),
    Instruction(0x12, 2, NewCycles(8, 8), Nop),
    Instruction(0x13, 2, NewCycles(8, 8), Nop),
    Instruction(0x14, 2, NewCycles(8, 8), Nop),
    Instruction(0x15, 2, NewCycles(8, 8), Nop),
    Instruction(0x16, 2, NewCycles(16, 16), Nop),
    Instruction(0x17, 2, NewCycles(8, 8), Nop),
    Instruction(0x18, 2, NewCycles(8, 8), Nop),
    Instruction(0x19, 2, NewCycles(8, 8), Nop),
    Instruction(0x1A, 2, NewCycles(8, 8), Nop),
    Instruction(0x1B, 2, NewCycles(8, 8), Nop),
    Instruction(0x1C, 2, NewCycles(8, 8), Nop),
    Instruction(0x1D, 2, NewCycles(8, 8), Nop),
    Instruction(0x1E, 2, NewCycles(16, 16), Nop),
    Instruction(0x1F, 2, NewCycles(8, 8), Nop)
  ]

  const PREFIXED_2: seq<Instruction> := [
    Instruction(0x20, 2, NewCycles(8, 8), Nop),
    Instruction(0x21, 2, NewCycles(8, 8), Nop),
    Instruction(0x22, 2, NewCycles(8, 8), Nop),
    Instruction(0x23, 2, NewCycles(8, 8), Nop),
    Instruction(0x24, 2, NewCycles(8, 8), Nop),
    Instruction(0x25, 2, NewCycles(8, 8), Nop),
    Instruction(0x26, 2, NewCycles(16, 16), Nop),
    Instruction(0x27, 2, NewCycles(8, 8), Nop),
    Instruction(0x28, 2, NewCycles(8, 8), Nop),
    Instruction(0x29, 2, NewCycles(8, 8), Nop),
    Instruction(0x2A, 2, NewCycles(8, 8), Nop),
    Instruction(0x2B, 2, NewCycles(8, 8), Nop),
    Instruction(0x2C, 2, NewCycles(8, 8), Nop),
    Instruction(0x2D, 2, NewCycles(8, 8), Nop),
    Instruction(0x2E, 2, NewCycles(16, 16), Nop),
    Instruction(0x2F, 2, NewCycles(8, 8), Nop)
  ]

  const PREFIXED_3: seq<Instruction> := [
    Instruction(0x30, 2, NewCycles(8, 8), Nop),
    Instruction(0x31, 2, NewCycles(8, 8), Nop),
    Instruction(0x32, 2, NewCycles(8, 8), Nop),
    Instruction(0x33, 2, NewCycles(8, 8), Nop),
    Instruction(0x34, 2, NewCycles(8, 8), Nop),
    Instruction(0x35, 2, NewCycles(8, 8), Nop),
    Instruction(0x36, 2, NewCycles(16, 16), Nop),
    Instruction(0x37, 2, NewCycles(8, 8), Nop),
    Instruction(0x38, 2, NewCycles(8, 8), Nop),
    Instruction(0x39, 2, NewCycles(8, 8), Nop),
    Instruction(0x3A, 2, NewCycles(8, 8), Nop),
    Instruction(0x3B, 2, NewCycles(8, 8), Nop),
    Instruction(0x3C, 2, NewCycles(8, 8), Nop),
    Instruction(0x3D, 2, NewCycles(8, 8), Nop),
    Instruction(0x3E, 2, NewCycles(16, 16), Nop),
    Instruction(0x3F, 2, NewCycles(8, 8), Nop)
  ]

  const PREFIXED_4: seq<Instruction> := [
    Instruction(0x40, 2, NewCycles(8, 8), Nop),
    Instruction(0x41, 2, NewCycles(8, 8), Nop),
    Instruction(0x42, 2, NewCycles(8, 8), Nop),
    Instruction(0x43, 2, NewCycles(8, 8), Nop),
    Instruction(0x44, 2, NewCycles(8, 8), Nop),
    Instruction(0x45, 2, NewCycles(8, 8), Nop),
    Instruction(0x46, 2, NewCycles(16, 16), Nop),
    Instruction(0x47, 2, NewCycles(8, 8), Nop),
    Instruction(0x48, 2, NewCycles(8, 8), Nop),
    Instruction(0x49, 2, NewCycles(8, 8), Nop),
    Instruction(0x4A, 2, NewCycles(8, 8), Nop),
    Instruction(0x4B, 2, NewCycles(8, 8), Nop),
    Instruction(0x4C, 2, NewCycles(8, 8), Nop),
    Instruction(0x4D, 2, NewCycles(8, 8), Nop),
    Instruction(0x4E, 2, NewCycles(16, 16), Nop),
    Instruction(0x4F, 2, NewCycles(8, 8), Nop)
  ]

  const PREFIXED_5: seq<Instruction> := [
    Instruction(0x50, 2, NewCycles(8, 8), Nop),
    Instruction(0x51, 2, NewCycles(8, 8), Nop),
    Instruction(0x52, 2, NewCycles(8, 8), Nop),
    Instruction(0x53, 2, NewCycles(8, 8), Nop),
    Instruction(0x54, 2, NewCycles(8, 8), Nop),
    Instruction(0x55, 2, NewCycles(8, 8), Nop),
    Instruction(0x56, 2, NewCycles(16, 16), Nop),
    Instruction(0x57, 2, NewCycles(8, 8), Nop),
    Instruction(0x58, 2, NewCycles(8, 8), Nop),
    Instruction(0x59, 2, NewCycles(8, 8), Nop),
    Instruction(0x5A, 2, NewCycles(8, 8), Nop),
    Instruction(0x5B, 2, NewCycles(8, 8), Nop),
    Instruction(0x5C, 2, NewCycles(8, 8), Nop),
    Instruction(0x5D, 2, NewCycles(8, 8), Nop),
    Instruction(0x5E, 2, NewCycles(16, 16), Nop),
    Instruction(0x5F, 2, NewCycles(8, 8), Nop)
  ]

  const PREFIXED_6: seq<Instruction> := [
    Instruction(0x60, 2, NewCycles(8, 8), Nop),
    Instruction(0x61, 2, NewCycles(8, 8), Nop),
    Instruction(0x62, 2, NewCycles(8, 8), Nop),
    Instruction(0x63, 2, NewCycles(8, 8), Nop),
    Instruction(0x64, 2, NewCycles(8, 8), Nop),
    Instruction(0x65, 2, NewCycles(8, 8), Nop),
    Instruction(0x66, 2, NewCycles(16, 16), Nop),
    Instruction(0x67, 2, NewCycles(8, 8), Nop),
    Instruction(0x68, 2, NewCycles(8, 8), Nop),
    Instruction(0x69, 2, NewCycles(8, 8), Nop),
    Instruction(0x6A, 2, NewCycles(8, 8), Nop),
    Instruction(0x6B, 2, NewCycles(8, 8), Nop),
    Instruction(0x6C, 2, NewCycles(8, 8), Nop),
    Instruction(0x6D, 2, NewCycles(8, 8), Nop),
    Instruction(0x6E, 2, NewCycles(16, 16), Nop),
    Instruction(0x6F, 2, NewCycles(8, 8), Nop)
  ]

  const PREFIXED_7: seq<Instruction> := [
    Instruction(0x70, 2, NewCycles(8, 8), Nop),
    Instruction(0x71, 2, NewCycles(8, 8), Nop),
    Instruction(0x72, 2, NewCycles(8, 8), Nop),
    Instruction(0x73, 2, NewCycles(8, 8), Nop),
    Instruction(0x74, 2, NewCycles(8, 8), Nop),
    Instruction(0x75, 2, NewCycles(8, 8), Nop),
    Instruction(0x76, 2, NewCycles(16, 16), Nop),
    Instruction(0x77, 2, NewCycles(8, 8), Nop),
    Instruction(0x78, 2, NewCycles(8, 8), Nop),
    Instruction(0x79, 2, NewCycles(8, 8), Nop),
    Instruction(0x7A, 2, NewCycles(8, 8), Nop),
    Instruction(0x7B, 2, NewCycles(8, 8), Nop),
    Instruction(0x7C, 2, NewCycles(8, 8), Nop),
    Instruction(0x7D, 2, NewCycles(8, 8), Nop),
    Instruction(0x7E, 2, NewCycles(16, 16), Nop),
    Instruction(0x7F, 2, NewCycles(8, 8), Nop)
  ]

  const PREFIXED_8: seq<Instruction> := [
    Instruction(0x80, 2, NewCycles(8, 8), Nop),
    Instruction(0x81, 2, NewCycles(8, 8), Nop),
    Instruction(0x82, 2, NewCycles(8, 8), Nop),
    Instruction(0x83, 2, NewCycles(8, 8), Nop),
    Instruction(0x84, 2, NewCycles(8, 8), Nop),
    Instruction(0x85, 2, NewCycles(8, 8), Nop),
    Instruction(0x86, 2, NewCycles(16, 16), Nop),
    Instruction(0x87, 2, NewCycles(8, 8), Nop),
    Instruction(0x88, 2, NewCycles(8, 8), Nop),
    Instruction(0x89, 2, NewCycles(8, 8), Nop),
    Instruction(0x8A, 2, NewCycles(8, 8), Nop),
    Instruction(0x8B, 2, NewCycles(8, 8), Nop),
    Instruction(0x8C, 2, NewCycles(8, 8), Nop),
    Instruction(0x8D, 2, NewCycles(8, 8), Nop),
    Instruction(0x8E, 2, NewCycles(16, 16), Nop),
    Instruction(0x8F, 2, NewCycles(8, 8), Nop)
  ]

  const PREFIXED_9: seq<Instruction> := [
    Instruction(0x90, 2, NewCycles(8, 8), Nop),
    Instruction(0x91, 2, NewCycles(8, 8), Nop),
    Instruction(0x92, 2, NewCycles(8, 8), Nop),
    Instruction(0x93, 2, NewCycles(8, 8), Nop),
    Instruction(0x94, 2, NewCycles(8, 8), Nop),
    Instruction(0x95, 2, NewCycles(8, 8), Nop),
    Instruction(0x96, 2, NewCycles(16, 16), Nop),
    Instruction(0x97, 2, NewCycles(8, 8), Nop),
    Instruction(0x98, 2, NewCycles(8, 8), Nop),
    Instruction(0x99, 2, NewCycles(8, 8), Nop),
    Instruction(0x9A, 2, NewCycles(8, 8), Nop),
    Instruction(0x9B, 2, NewCycles(8, 8), Nop),
    Instruction(0x9C, 2, NewCycles(8, 8), Nop),
    Instruction(0x9D, 2, NewCycles(8, 8), Nop),
    Instruction(0x9E, 2, NewCycles(16, 16), Nop),
    Instruction(0x9F, 2, NewCycles(8, 8), Nop)
  ]

  const PREFIXED_A: seq<Instruction> := [
    Instruction(0xA0, 2, NewCycles(8, 8), Nop),
    Instruction(0xA1, 2, NewCycles(8, 8), Nop),
    Instruction(0xA2, 2, NewCycles(8, 8), Nop),
    Instruction(0xA3, 2, NewCycles(8, 8), Nop),
    Instruction(0xA4, 2, NewCycles(8, 8), Nop),
    Instruction(0xA5, 2, NewCycles(8, 8), Nop),
    Instruction(0xA6, 2, NewCycles(16, 16), Nop),
    Instruction(0xA7, 2, NewCycles(8, 8), Nop),
    Instruction(0xA8, 2, NewCycles(8, 8), Nop),
    Instruction(0xA9, 2, NewCycles(8, 8), Nop),
    Instruction(0xAA, 2, NewCycles(8, 8), Nop),
    Instruction(0xAB, 2, NewCycles(8, 8), Nop),
    Instruction(0xAC, 2, NewCycles(8, 8), Nop),
    Instruction(0xAD, 2, NewCycles(8, 8), Nop),
    Instruction(0xAE, 2, NewCycles(16, 16), Nop),
    Instruction(0xAF, 2, NewCycles(8, 8), Nop)
  ]

  const PREFIXED_B: seq<Instruction> := [
    Instruction(0xB0, 2, NewCycles(8, 8), Nop),
    Instruction(0xB1, 2, NewCycles(8, 8), Nop),
    Instruction(0xB2, 2, NewCycles(8, 8), Nop),
    Instruction(0xB3, 2, NewCycles(8, 8), Nop),
    Instruction(0xB4, 2, NewCycles(8, 8), Nop),
    Instruction(0xB5, 2, NewCycles(8, 8), Nop),
    Instruction(0xB6, 2, NewCycles(16, 16), Nop),
    Instruction(0xB7, 2, NewCycles(8, 8), Nop),
    Instruction(0xB8, 2, NewCycles(8, 8), Nop),
    Instruction(0xB9, 2, NewCycles(8, 8), Nop),
    Instruction(0xBA, 2, NewCycles(8, 8), Nop),
    Instruction(0xBB, 2, NewCycles(8, 8), Nop),
    Instruction(0xBC, 2, NewCycles(8, 8), Nop),
    Instruction(0xBD, 2, NewCycles(8, 8), Nop),
    Instruction(0xBE, 2, NewCycles(16, 16), Nop),
    Instruction(0xBF, 2, NewCycles(8, 8), Nop)
  ]

  const PREFIXED_C: seq<Instruction> := [
    Instruction(0xC0, 2, NewCycles(8, 8), Nop),
    Instruction(0xC1, 2, NewCycles(8, 8), Nop),
    Instruction(0xC2, 2, NewCycles(8, 8), Nop),
    Instruction(0xC3, 2, NewCycles(8, 8), Nop),
    Instruction(0xC4, 2, NewCycles(8, 8), Nop),
    Instruction(0xC5, 2, NewCycles(8, 8), Nop),
    Instruction(0xC6, 2, NewCycles(16, 16), Nop),
    Instruction(0xC7, 2, NewCycles(8, 8), Nop),
    Instruction(0xC8, 2, NewCycles(8, 8), Nop),
    Instruction(0xC9, 2, NewCycles(8, 8), Nop),
    Instruction(0xCA, 2, NewCycles(8, 8), Nop),
    Instruction(0xCB, 2, NewCycles(8, 8), Nop),
    Instruction(0xCC, 2, NewCycles(8, 8), Nop),
    Instruction(0xCD, 2, NewCycles(8, 8), Nop),
    Instruction(0xCE, 2, NewCycles(16, 16), Nop),
    Instruction(0xCF, 2, NewCycles(8, 8), Nop)
  ]

  const PREFIXED_D: seq<Instruction> := [
    Instruction(0xD0, 2, NewCycles(8, 8), Nop),
    Instruction(0xD1, 2, NewCycles(8, 8), Nop),
    Instruction(0xD2, 2, NewCycles(8, 8), Nop),
    Instruction(0xD3, 2, NewCycles(8, 8), Nop),
    Instruction(0xD4, 2, NewCycles(8, 8), Nop),
    Instruction(0xD5, 2, NewCycles(8, 8), Nop),
    Instruction(0xD6, 2, NewCycles(16, 16), Nop),
    Instruction(0xD7, 2, NewCycles(8, 8), Nop),
    Instruction(0xD8, 2, NewCycles(8, 8), Nop),
    Instruction(0xD9, 2, NewCycles(8, 8), Nop),
    Instruction(0xDA, 2, NewCycles(8, 8), Nop),
    Instruction(0xDB, 2, NewCycles(8, 8), Nop),
    Instruction(0xDC, 2, NewCycles(8, 8), Nop),
    Instruction(0xDD, 2, NewCycles(8, 8), Nop),
    Instruction(0xDE, 2, NewCycles(16, 16), Nop),
    Instruction(0xDF, 2, NewCycles(8, 8), Nop)
  ]

  const PREFIXED_E: seq<Instruction> := [
    Instruction(0xE0, 2, NewCycles(8, 8), Nop),
    Instruction(0xE1, 2, NewCycles(8, 8), Nop),
    Instruction(0xE2, 2, NewCycles(8, 8), Nop),
    Instruction(0xE3, 2, NewCycles(8, 8), Nop),
    Instruction(0xE4, 2, NewCycles(8, 8), Nop),
    Instruction(0xE5, 2, NewCycles(8, 8), Nop),
    Instruction(0xE6, 2, NewCycles(16, 16), Nop),
    Instruction(0xE7, 2, NewCycles(8, 8), Nop),
    Instruction(0xE8, 2, NewCycles(8, 8), Nop),
    Instruction(0xE9, 2, NewCycles(8, 8), Nop),
    Instruction(0xEA, 2, NewCycles(8, 8), Nop),
    Instruction(0xEB, 2, NewCycles(8, 8), Nop),
    Instruction(0xEC, 2, NewCycles(8, 8), Nop),
    Instruction(0xED, 2, NewCycles(8, 8), Nop),
    Instruction(0xEE, 2, NewCycles(16, 16), Nop),
    Instruction(0xEF, 2, NewCycles(8, 8), Nop)
  ]

  const PREFIXED_F: seq<Instruction> := [
    Instruction(0xF0, 2, NewCycles(8, 8), Nop),
    Instruction(0xF1, 2, NewCycles(8, 8), Nop),
    Instruction(0xF2, 2, NewCycles(8, 8), Nop),
    Instruction(0xF3, 2, NewCycles(8, 8), Nop),
    Instruction(0xF4, 2, NewCycles(8, 8), Nop),
    Instruction(0xF5, 2, NewCycles(8, 8), Nop),
    Instruction(0xF6, 2, NewCycles(16, 16), Nop),
    Instruction(0xF7, 2, NewCycles(8, 8), Nop),
    Instruction(0xF8, 2, NewCycles(8, 8), Nop),
    Instruction(0xF9, 2, NewCycles(8, 8), Nop),
    Instruction(0xFA, 2, NewCycles(8, 8), Nop),
    Instruction(0xFB, 2, NewCycles(8, 8), Nop),
    Instruction(0xFC, 2, NewCycles(8, 8), Nop),
    Instruction(0xFD, 2, NewCycles(8, 8), Nop),
    Instruction(0xFE, 2, NewCycles(16, 16), Nop),
    Instruction(0xFF, 2, NewCycles(8, 8), Nop)
  ]

  // Each table is four quarters of four rows.

  const UNPREFIXED_00_3F: seq<Instruction> := UNPREFIXED_0 + UNPREFIXED_1 + UNPREFIXED_2 + UNPREFIXED_3
  const UNPREFIXED_40_7F: seq<Instruction> := UNPREFIXED_4 + UNPREFIXED_5 + UNPREFIXED_6 + UNPREFIXED_7
  const UNPREFIXED_80_BF: seq<Instruction> := UNPREFIXED_8 + UNPREFIXED_9 + UNPREFIXED_A + UNPREFIXED_B
  const UNPREFIXED_C0_FD: seq<Instruction> := UNPREFIXED_C + UNPREFIXED_D + UNPREFIXED_E + UNPREFIXED_F

  const PREFIXED_00_3F: seq<Instruction> := PREFIXED_0 + PREFIXED_1 + PREFIXED_2 + PREFIXED_3
  const PREFIXED_40_7F: seq<Instruction> := PREFIXED_4 + PREFIXED_5 + PREFIXED_6 + PREFIXED_7
  const PREFIXED_80_BF: seq<Instruction> := PREFIXED_8 + PREFIXED_9 + PREFIXED_A + PREFIXED_B
  const PREFIXED_C0_FF: seq<Instruction> := PREFIXED_C + PREFIXED_D + PREFIXED_E + PREFIXED_F

  const INSTRUCTIONS: seq<Instruction> :=
    (UNPREFIXED_00_3F + UNPREFIXED_40_7F) + (UNPREFIXED_80_BF + UNPREFIXED_C0_FD)

  const CB_INSTRUCTIONS: seq<Instruction> :=
    (PREFIXED_00_3F + PREFIXED_40_7F) + (PREFIXED_80_BF + PREFIXED_C0_FF)

  // One lemma per row of sixteen entries keeps each proof small.

  lemma UnprefixedChunk0()
    ensures UnprefixedFrom(UNPREFIXED_0, 0x00)
  {
  }

  lemma UnprefixedChunk1()
    ensures UnprefixedFrom(UNPREFIXED_1, 0x10)
  {
  }

  lemma UnprefixedChunk2()
    ensures UnprefixedFrom(UNPREFIXED_2, 0x20)
  {
  }

  lemma UnprefixedChunk3()
    ensures UnprefixedFrom(UNPREFIXED_3, 0x30)
  {
  }

  lemma UnprefixedChunk4()
    ensures UnprefixedFrom(UNPREFIXED_4, 0x40)
  {
  }

  lemma UnprefixedChunk5()
    ensures UnprefixedFrom(UNPREFIXED_5, 0x50)
  {
  }

  lemma UnprefixedChunk6()
    ensures UnprefixedFrom(UNPREFIXED_6, 0x60)
  {
  }

  lemma UnprefixedChunk7()
    ensures UnprefixedFrom(UNPREFIXED_7, 0x70)
  {
  }

  lemma UnprefixedChunk8()
    ensures UnprefixedFrom(UNPREFIXED_8, 0x80)
  {
  }

  lemma UnprefixedChunk9()
    ensures UnprefixedFrom(UNPREFIXED_9, 0x90)
  {
  }

  lemma UnprefixedChunkA()
    ensures UnprefixedFrom(UNPREFIXED_A, 0xA0)
  {
  }

  lemma UnprefixedChunkB()
    ensures UnprefixedFrom(UNPREFIXED_B, 0xB0)
  {
  }

  lemma UnprefixedChunkC()
    ensures UnprefixedFrom(UNPREFIXED_C, 0xC0)
  {
  }

  lemma UnprefixedChunkD()
    ensures UnprefixedFrom(UNPREFIXED_D, 0xD0)
  {
  }

  lemma UnprefixedChunkE()
    ensures UnprefixedFrom(UNPREFIXED_E, 0xE0)
  {
  }

  lemma UnprefixedChunkF()
    ensures UnprefixedFrom(UNPREFIXED_F, 0xF0)
  {
  }

  lemma PrefixedChunk0()
    ensures PrefixedFrom(PREFIXED_0, 0x00)
  {
  }

  lemma PrefixedChunk1()
    ensures PrefixedFrom(PREFIXED_1, 0x10)
  {
  }

  lemma PrefixedChunk2()
    ensures PrefixedFrom(PREFIXED_2, 0x20)
  {
  }

  lemma PrefixedChunk3()
    ensures PrefixedFrom(PREFIXED_3, 0x30)
  {
  }

  lemma PrefixedChunk4()
    ensures PrefixedFrom(PREFIXED_4, 0x40)
  {
  }

  lemma PrefixedChunk5()
    ensures PrefixedFrom(PREFIXED_5, 0x50)
  {
  }

  lemma PrefixedChunk6()
    ensures PrefixedFrom(PREFIXED_6, 0x60)
  {
  }

  lemma PrefixedChunk7()
    ensures PrefixedFrom(PREFIXED_7, 0x70)
  {
  }

  lemma PrefixedChunk8()
    ensures PrefixedFrom(PREFIXED_8, 0x80)
  {
  }

  lemma PrefixedChunk9()
    ensures PrefixedFrom(PREFIXED_9, 0x90)
  {
  }

  lemma PrefixedChunkA()
    ensures PrefixedFrom(PREFIXED_A, 0xA0)
  {
  }

  lemma PrefixedChunkB()
    ensures PrefixedFrom(PREFIXED_B, 0xB0)
  {
  }

  lemma PrefixedChunkC()
    ensures PrefixedFrom(PREFIXED_C, 0xC0)
  {
  }

  lemma PrefixedChunkD()
    ensures PrefixedFrom(PREFIXED_D, 0xD0)
  {
  }

  lemma PrefixedChunkE()
    ensures PrefixedFrom(PREFIXED_E, 0xE0)
  {
  }

  lemma PrefixedChunkF()
    ensures PrefixedFrom(PREFIXED_F, 0xF0)
  {
  }


  lemma UnprefixedConcat(a: seq<Instruction>, b: seq<Instruction>, base: int)
    requires UnprefixedFrom(a, base) && UnprefixedFrom(b, base + |a|)
    ensures UnprefixedFrom(a + b, base)
  {
    forall j | 0 <= j < |a + b|
      ensures UnprefixedEntryOk((a + b)[j], base + j)
    {
      if j >= |a| {
        assert (a + b)[j] == b[j - |a|];
      }
    }
  }

  lemma PrefixedConcat(a: seq<Instruction>, b: seq<Instruction>, base: int)
    requires PrefixedFrom(a, base) && PrefixedFrom(b, base + |a|)
    ensures PrefixedFrom(a + b, base)
  {
    forall j | 0 <= j < |a + b|
      ensures PrefixedEntryOk((a + b)[j], base + j)
    {
      if j >= |a| {
        assert (a + b)[j] == b[j - |a|];
      }
    }
  }

  lemma UnprefixedQuarter0()
    ensures |UNPREFIXED_00_3F| == 64
    ensures UnprefixedFrom(UNPREFIXED_00_3F, 0x00)
  {
    UnprefixedChunk0();
    UnprefixedChunk1();
    UnprefixedConcat(UNPREFIXED_0, UNPREFIXED_1, 0x00);
    UnprefixedChunk2();
    UnprefixedConcat(UNPREFIXED_0 + UNPREFIXED_1, UNPREFIXED_2, 0x00);
    UnprefixedChunk3();
    UnprefixedConcat(UNPREFIXED_0 + UNPREFIXED_1 + UNPREFIXED_2, UNPREFIXED_3, 0x00);
  }

  lemma UnprefixedQuarter1()
    ensures |UNPREFIXED_40_7F| == 64
    ensures UnprefixedFrom(UNPREFIXED_40_7F, 0x40)
  {
    UnprefixedChunk4();
    UnprefixedChunk5();
    UnprefixedConcat(UNPREFIXED_4, UNPREFIXED_5, 0x40);
    UnprefixedChunk6();
    UnprefixedConcat(UNPREFIXED_4 + UNPREFIXED_5, UNPREFIXED_6, 0x40);
    UnprefixedChunk7();
    UnprefixedConcat(UNPREFIXED_4 + UNPREFIXED_5 + UNPREFIXED_6, UNPREFIXED_7, 0x40);
  }

  lemma UnprefixedQuarter2()
    ensures |UNPREFIXED_80_BF| == 64
    ensures UnprefixedFrom(UNPREFIXED_80_BF, 0x80)
  {
    UnprefixedChunk8();
    UnprefixedChunk9();
    UnprefixedConcat(UNPREFIXED_8, UNPREFIXED_9, 0x80);
    UnprefixedChunkA();
    UnprefixedConcat(UNPREFIXED_8 + UNPREFIXED_9, UNPREFIXED_A, 0x80);
    UnprefixedChunkB();
    UnprefixedConcat(UNPREFIXED_8 + UNPREFIXED_9 + UNPREFIXED_A, UNPREFIXED_B, 0x80);
  }

  lemma UnprefixedQuarter3()
    ensures |UNPREFIXED_C0_FD| == 62
    ensures UnprefixedFrom(UNPREFIXED_C0_FD, 0xC0)
  {
    UnprefixedChunkC();
    UnprefixedChunkD();
    UnprefixedConcat(UNPREFIXED_C, UNPREFIXED_D, 0xC0);
    UnprefixedChunkE();
    UnprefixedConcat(UNPREFIXED_C + UNPREFIXED_D, UNPREFIXED_E, 0xC0);
    UnprefixedChunkF();
    UnprefixedConcat(UNPREFIXED_C + UNPREFIXED_D + UNPREFIXED_E, UNPREFIXED_F, 0xC0);
  }

  lemma UnprefixedHalf0()
    ensures |UNPREFIXED_00_3F + UNPREFIXED_40_7F| == 128
    ensures UnprefixedFrom(UNPREFIXED_00_3F + UNPREFIXED_40_7F, 0)
  {
    UnprefixedQuarter0();
    UnprefixedQuarter1();
    UnprefixedConcat(UNPREFIXED_00_3F, UNPREFIXED_40_7F, 0);
  }

  lemma UnprefixedHalf1()
    ensures |UNPREFIXED_80_BF + UNPREFIXED_C0_FD| == 126
    ensures UnprefixedFrom(UNPREFIXED_80_BF + UNPREFIXED_C0_FD, 0x80)
  {
    UnprefixedQuarter2();
    UnprefixedQuarter3();
    UnprefixedConcat(UNPREFIXED_80_BF, UNPREFIXED_C0_FD, 0x80);
  }

  /**
   * INSTRUCTIONS has 254 entries, and entry i is as UnprefixedEntryOk says:
   * opcodes 0xFC and 0xFD have no entries of their own.
   */
  lemma UnprefixedTable()
    ensures |INSTRUCTIONS| == 254
    ensures UnprefixedFrom(INSTRUCTIONS, 0)
  {
    UnprefixedHalf0();
    UnprefixedHalf1();
    UnprefixedConcat(UNPREFIXED_00_3F + UNPREFIXED_40_7F, UNPREFIXED_80_BF + UNPREFIXED_C0_FD, 0);
  }

  lemma PrefixedQuarter0()
    ensures |PREFIXED_00_3F| == 64
    ensures PrefixedFrom(PREFIXED_00_3F, 0x00)
  {
    PrefixedChunk0();
    PrefixedChunk1();
    PrefixedConcat(PREFIXED_0, PREFIXED_1, 0x00);
    PrefixedChunk2();
    PrefixedConcat(PREFIXED_0 + PREFIXED_1, PREFIXED_2, 0x00);
    PrefixedChunk3();
    PrefixedConcat(PREFIXED_0 + PREFIXED_1 + PREFIXED_2, PREFIXED_3, 0x00);
  }

  lemma PrefixedQuarter1()
    ensures |PREFIXED_40_7F| == 64
    ensures PrefixedFrom(PREFIXED_40_7F, 0x40)
  {
    PrefixedChunk4();
    PrefixedChunk5();
    PrefixedConcat(PREFIXED_4, PREFIXED_5, 0x40);
    PrefixedChunk6();
    PrefixedConcat(PREFIXED_4 + PREFIXED_5, PREFIXED_6, 0x40);
    PrefixedChunk7();
    PrefixedConcat(PREFIXED_4 + PREFIXED_5 + PREFIXED_6, PREFIXED_7, 0x40);
  }

  lemma PrefixedQuarter2()
    ensures |PREFIXED_80_BF| == 64
    ensures PrefixedFrom(PREFIXED_80_BF, 0x80)
  {
    PrefixedChunk8();
    PrefixedChunk9();
    PrefixedConcat(PREFIXED_8, PREFIXED_9, 0x80);
    PrefixedChunkA();
    PrefixedConcat(PREFIXED_8 + PREFIXED_9, PREFIXED_A, 0x80);
    PrefixedChunkB();
    PrefixedConcat(PREFIXED_8 + PREFIXED_9 + PREFIXED_A, PREFIXED_B, 0x80);
  }

  lemma PrefixedQuarter3()
    ensures |PREFIXED_C0_FF| == 64
    ensures PrefixedFrom(PREFIXED_C0_FF, 0xC0)
  {
    PrefixedChunkC();
    PrefixedChunkD();
    PrefixedConcat(PREFIXED_C, PREFIXED_D, 0xC0);
    PrefixedChunkE();
    PrefixedConcat(PREFIXED_C + PREFIXED_D, PREFIXED_E, 0xC0);
    PrefixedChunkF();
    PrefixedConcat(PREFIXED_C + PREFIXED_D + PREFIXED_E, PREFIXED_F, 0xC0);
  }

  lemma PrefixedHalf0()
    ensures |PREFIXED_00_3F + PREFIXED_40_7F| == 128
    ensures PrefixedFrom(PREFIXED_00_3F + PREFIXED_40_7F, 0)
  {
    PrefixedQuarter0();
    PrefixedQuarter1();
    PrefixedConcat(PREFIXED_00_3F, PREFIXED_40_7F, 0);
  }

  lemma PrefixedHalf1()
    ensures |PREFIXED_80_BF + PREFIXED_C0_FF| == 128
    ensures PrefixedFrom(PREFIXED_80_BF + PREFIXED_C0_FF, 0x80)
  {
    PrefixedQuarter2();
    PrefixedQuarter3();
    PrefixedConcat(PREFIXED_80_BF, PREFIXED_C0_FF, 0x80);
  }

  /** CB_INSTRUCTIONS has 256 entries, entry i being as PrefixedEntryOk says. */
  lemma PrefixedTable()
    ensures |CB_INSTRUCTIONS| == 256
    ensures PrefixedFrom(CB_INSTRUCTIONS, 0)
  {
    PrefixedHalf0();
    PrefixedHalf1();
    PrefixedConcat(PREFIXED_00_3F + PREFIXED_40_7F, PREFIXED_80_BF + PREFIXED_C0_FF, 0);
  }

  /**
   * The CPU's `INSTRUCTIONS[opcode]`: the table has 254 entries, so opcodes
   * 0xFE and 0xFF index past its end, which is a Go runtime panic.
   */
  function Unprefixed(opcode: bv8): (r: Outcome<Instruction>)
    ensures r.Ok? <==> opcode < 0xFE
  {
    UnprefixedTable();
    if (opcode as int) < |INSTRUCTIONS| then Ok(INSTRUCTIONS[opcode]) else Fatal
  }

  /** Every entry the CPU can look up in INSTRUCTIONS is as UnprefixedEntryOk describes. */
  lemma UnprefixedEntry(opcode: bv8)
    requires opcode < 0xFE
    ensures UnprefixedEntryOk(Unprefixed(opcode).value, opcode as int)
  {
    UnprefixedTable();
  }

  /** The CPU's `CB_INSTRUCTIONS[opcode]`: every byte has an entry, and it is the instruction for that byte. */
  function Prefixed(opcode: bv8): (r: Instruction)
    ensures r.opcode == opcode
  {
    PrefixedTable();
    CB_INSTRUCTIONS[opcode]
  }

  /** Every CB_INSTRUCTIONS entry is as PrefixedEntryOk describes. */
  lemma PrefixedEntry(opcode: bv8)
    ensures PrefixedEntryOk(Prefixed(opcode), opcode as int)
  {
    PrefixedTable();
  }
}
