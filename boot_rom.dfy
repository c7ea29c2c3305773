/**
 * The 256-byte DMG boot program that both MMUs map over 0x0000-0x00FF
 * until it is switched off (mmu.go and mmu/mmu.go carry the same table).
 * It is written as sixteen rows of sixteen bytes.
 */
module BootRom {
  const ROW_0: seq<bv8> := [0x31, 0xFE, 0xFF, 0xAF, 0x21, 0xFF, 0x9F, 0x32, 0xCB, 0x7C, 0x20, 0xFB, 0x21, 0x26, 0xFF, 0x0E]
  const ROW_1: seq<bv8> := [0x11, 0x3E, 0x80, 0x32, 0xE2, 0x0C, 0x3E, 0xF3, 0xE2, 0x32, 0x3E, 0x77, 0x77, 0x3E, 0xFC, 0xE0]
  const ROW_2: seq<bv8> := [0x47, 0x11, 0x04, 0x01, 0x21, 0x10, 0x80, 0x1A, 0xCD, 0x95, 0x00, 0xCD, 0x96, 0x00, 0x13, 0x7B]
  const ROW_3: seq<bv8> := [0xFE, 0x34, 0x20, 0xF3, 0x11, 0xD8, 0x00, 0x06, 0x08, 0x1A, 0x13, 0x22, 0x23, 0x05, 0x20, 0xF9]
  const ROW_4: seq<bv8> := [0x3E, 0x19, 0xEA, 0x10, 0x99, 0x21, 0x2F, 0x99, 0x0E, 0x0C, 0x3D, 0x28, 0x08, 0x32, 0x0D, 0x20]
  const ROW_5: seq<bv8> := [0xF9, 0x2E, 0x0F, 0x18, 0xF3, 0x67, 0x3E, 0x64, 0x57, 0xE0, 0x42, 0x3E, 0x91, 0xE0, 0x40, 0x04]
  const ROW_6: seq<bv8> := [0x1E, 0x02, 0x0E, 0x0C, 0xF0, 0x44, 0xFE, 0x90, 0x20, 0xFA, 0x0D, 0x20, 0xF7, 0x1D, 0x20, 0xF2]
  const ROW_7: seq<bv8> := [0x0E, 0x13, 0x24, 0x7C, 0x1E, 0x83, 0xFE, 0x62, 0x28, 0x06, 0x1E, 0xC1, 0xFE, 0x64, 0x20, 0x06]
  const ROW_8: seq<bv8> := [0x7B, 0xE2, 0x0C, 0x3E, 0x87, 0xE2, 0xF0, 0x42, 0x90, 0xE0, 0x42, 0x15, 0x20, 0xD2, 0x05, 0x20]
  const ROW_9: seq<bv8> := [0x4F, 0x16, 0x20, 0x18, 0xCB, 0x4F, 0x06, 0x04, 0xC5, 0xCB, 0x11, 0x17, 0xC1, 0xCB, 0x11, 0x17]
  const ROW_A: seq<bv8> := [0x05, 0x20, 0xF5, 0x22, 0x23, 0x22, 0x23, 0xC9, 0xCE, 0xED, 0x66, 0x66, 0xCC, 0x0D, 0x00, 0x0B]
  const ROW_B: seq<bv8> := [0x03, 0x73, 0x00, 0x83, 0x00, 0x0C, 0x00, 0x0D, 0x00, 0x08, 0x11, 0x1F, 0x88, 0x89, 0x00, 0x0E]
  const ROW_C: seq<bv8> := [0xDC, 0xCC, 0x6E, 0xE6, 0xDD, 0xDD, 0xD9, 0x99, 0xBB, 0xBB, 0x67, 0x63, 0x6E, 0x0E, 0xEC, 0xCC]
  const ROW_D: seq<bv8> := [0xDD, 0xDC, 0x99, 0x9F, 0xBB, 0xB9, 0x33, 0x3E, 0x3C, 0x42, 0xB9, 0xA5, 0xB9, 0xA5, 0x42, 0x3C]
  const ROW_E: seq<bv8> := [0x21, 0x04, 0x01, 0x11, 0xA8, 0x00, 0x1A, 0x13, 0xBE, 0x00, 0x00, 0x23, 0x7D, 0xFE, 0x34, 0x20]
  const ROW_F: seq<bv8> := [0xF5, 0x06, 0x19, 0x78, 0x86, 0x23, 0x05, 0x20, 0xFB, 0x86, 0x00, 0x00, 0x3E, 0x01, 0xE0, 0x50]

  const BOOT_ROM: seq<bv8> :=
    ROW_0 + ROW_1 + ROW_2 + ROW_3 + ROW_4 + ROW_5 + ROW_6 + ROW_7
    + ROW_8 + ROW_9 + ROW_A + ROW_B + ROW_C + ROW_D + ROW_E + ROW_F

  /**
   * The program fills the whole 0x0000-0x00FF window; it starts with
   * `LD SP, $FFFE` and ends, at 0x00FC, with `LD A, $01; LDH ($50), A`,
   * the write to 0xFF50 that unmaps it.
   */
  lemma {:induction false} BootRomLayout()
    ensures |BOOT_ROM| == 0x100
    ensures BOOT_ROM[..3] == [0x31, 0xFE, 0xFF]
    ensures BOOT_ROM[0xFC..] == [0x3E, 0x01, 0xE0, 0x50]
  {
    assert BOOT_ROM[0xF0..] == ROW_F;
  }
}
