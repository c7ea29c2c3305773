/**
 * joypad.go and display/joypad.go (the same logic in both layouts): the
 * JOYP register at 0xFF00.  The program selects a key group by clearing
 * bit 4 (the direction keys) or bit 5 (the action keys) and reads the
 * group's four keys, active low, in bits 0-3.  `buttonState` holds all
 * eight keys, active low: the directions in bits 0-3, A, B, Select and
 * Start in bits 4-7.
 */
module Joypad {
  import opened Bytes

  const SELECT_DIRECTION_KEYS: bv8 := 4
  const SELECT_BUTTON_KEYS: bv8 := 5

  /** Bit 4 clear: the direction keys are selected. */
  predicate DirectionsSelected(joyp: bv8)
  {
    joyp & 0x10 == 0
  }

  /** Bit 5 clear: the action keys are selected. */
  predicate ButtonsSelected(joyp: bv8)
  {
    joyp & 0x20 == 0
  }

  function HighNibble(b: bv8): bv8
  {
    b & 0xF0
  }

  function LowNibble(b: bv8): bv8
  {
    b & 0x0F
  }

  /** `Read`: the selection bits with the selected group's keys; the directions win when both are selected. */
  function JoypRead(joyp: bv8, buttons: bv8): (r: bv8)
  {
    if DirectionsSelected(joyp) then HighNibble(joyp) | LowNibble(buttons)
    else if ButtonsSelected(joyp) then HighNibble(joyp) | (buttons >> 4)
    else 0xFF
  }

  /** `Write`: only the two selection bits take the written value. */
  function JoypWritten(joyp: bv8, v: bv8): (r: bv8)
  {
    (joyp & 0xCF) | (v & 0x30)
  }

  /**
   * With the directions selected the low nibble is the direction keys and
   * the high nibble the register's; with only the actions selected the low
   * nibble is the action keys; with neither every bit reads 1.
   */
  lemma {:induction false} ReadSelectsGroup(joyp: bv8, buttons: bv8)
    ensures DirectionsSelected(joyp) ==>
              LowNibble(JoypRead(joyp, buttons)) == LowNibble(buttons)
              && HighNibble(JoypRead(joyp, buttons)) == HighNibble(joyp)
    ensures !DirectionsSelected(joyp) && ButtonsSelected(joyp) ==>
              LowNibble(JoypRead(joyp, buttons)) == buttons >> 4
              && HighNibble(JoypRead(joyp, buttons)) == HighNibble(joyp)
    ensures !DirectionsSelected(joyp) && !ButtonsSelected(joyp) ==> JoypRead(joyp, buttons) == 0xFF
  {
    if DirectionsSelected(joyp) {
      assert (HighNibble(joyp) | LowNibble(buttons)) & 0x0F == LowNibble(buttons);
      assert (HighNibble(joyp) | LowNibble(buttons)) & 0xF0 == HighNibble(joyp);
    } else if ButtonsSelected(joyp) {
      assert (HighNibble(joyp) | (buttons >> 4)) & 0x0F == buttons >> 4;
      assert (HighNibble(joyp) | (buttons >> 4)) & 0xF0 == HighNibble(joyp);
    }
  }

  /** Each key's bit (0 while pressed) shows at its place in the low nibble when its group is the one read. */
  lemma KeyVisible(joyp: bv8, buttons: bv8, key: nat)
    requires key < 8
    ensures key < 4 && DirectionsSelected(joyp) ==>
              (IsBitSet(JoypRead(joyp, buttons), key) <==> IsBitSet(buttons, key))
    ensures key >= 4 && !DirectionsSelected(joyp) && ButtonsSelected(joyp) ==>
              (IsBitSet(JoypRead(joyp, buttons), key - 4) <==> IsBitSet(buttons, key))
  {
  }

  /** A write changes bits 4 and 5 only, and they take the written value's bits 4 and 5. */
  lemma WriteSelectsOnly(joyp: bv8, v: bv8)
    ensures JoypWritten(joyp, v) & 0xCF == joyp & 0xCF
    ensures JoypWritten(joyp, v) & 0x30 == v & 0x30
  {
  }

  class Joypad {
    /** Declared by both versions and never used. */
    var strobe: bv8
    /** All eight keys, active low; set by the key scan, which is not part of this model. */
    var buttonState: bv8
    var joyp: bv8

    /** `NewJoypad`: no key pressed and no group selected, so the register reads 0xFF. */
    constructor ()
      ensures buttonState == 0xFF && joyp == 0xFF
      ensures Read() == 0xFF
    {
      strobe, buttonState, joyp := 0, 0xFF, 0xFF;
    }

    function Read(): bv8
      reads this
    {
      JoypRead(joyp, buttonState)
    }

    method Write(v: bv8)
      modifies this
      ensures joyp == JoypWritten(old(joyp), v)
      ensures buttonState == old(buttonState) && strobe == old(strobe)
    {
      joyp := (joyp & 0xCF) | (v & 0x30);
    }
  }
}
