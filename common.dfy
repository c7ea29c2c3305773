/**
 * Byte-level vocabulary shared by every part of the emulator model.
 *
 * Go's `uint8` wraps around on overflow exactly like Dafny's `bv8`, so bytes
 * are bit-vectors.  Sixteen-bit quantities (addresses, SP, PC, the timer's
 * counter) are integers in 0..0xFFFF whose wrap-around is written out with
 * `Wrap16`, since they index memory.  A Go `panic` (an explicit one,
 * `log.Fatal`, or an index out of range) ends the emulator; the model
 * surfaces it as a `Fatal` outcome or a `false` success flag.
 */
module Bytes {

  /** The result of an operation that may stop the emulator. */
  datatype Outcome<T> = Ok(value: T) | Fatal

  /** A `uint16`. */
  type Word = x: int | 0 <= x < 0x10000

  /** Go's `uint16` arithmetic: the result modulo 2^16. */
  function Wrap16(x: int): (w: Word)
    ensures 0 <= x < 0x10000 ==> w == x
    ensures 0x10000 <= x < 0x20000 ==> w == x - 0x10000
    ensures -0x10000 <= x < 0 ==> w == x + 0x10000
  {
    x % 0x10000
  }

  /** Go's `IsBitSet(b, i)`: bit `i` of `b` is 1. */
  predicate IsBitSet(b: bv8, i: nat)
    requires i < 8
  {
    (b >> i) & 1 == 1
  }

  /** A byte with only bit `i` set, as Go's `uint8(1 << i)`; shifts of 8 or more give 0. */
  function BitMask(i: bv8): (m: bv8)
    ensures i < 8 ==> IsBitSet(m, i as nat)
    ensures i >= 8 ==> m == 0
  {
    if i < 8 then (1 as bv8) << (i as nat) else 0
  }

  /** High byte of a word: Go's `uint8(w >> 8)`. */
  function Hi(w: Word): bv8
  {
    (w / 0x100) as bv8
  }

  /** Low byte of a word: Go's `uint8(w & 0xFF)`. */
  function Lo(w: Word): bv8
  {
    (w % 0x100) as bv8
  }

  /** The word `(uint16(hi) << 8) | uint16(lo)`, equal to Go's `... + uint16(lo)` since the halves do not overlap. */
  function Join(hi: bv8, lo: bv8): Word
  {
    hi as int * 0x100 + lo as int
  }

  /** Converting a small integer to a byte and back loses nothing. */
  lemma ByteValue(x: int)
    requires 0 <= x < 0x100
    ensures (x as bv8) as int == x
  {
    assert x % 0x100 == x;
  }

  /** Splitting a word and joining the halves gives it back. */
  lemma JoinHiLo(w: Word)
    ensures Join(Hi(w), Lo(w)) == w
  {
    ByteValue(w / 0x100);
    ByteValue(w % 0x100);
  }

  /** Joining two bytes and splitting the word gives them back. */
  lemma HiLoJoin(hi: bv8, lo: bv8)
    ensures Hi(Join(hi, lo)) == hi && Lo(Join(hi, lo)) == lo
  {
    var w := Join(hi, lo);
    assert w / 0x100 == hi as int && w % 0x100 == lo as int;
  }

  /** A word is determined by its two halves. */
  lemma SameHalves(x: Word, y: Word)
    requires Hi(x) == Hi(y) && Lo(x) == Lo(y)
    ensures x == y
  {
    JoinHiLo(x);
    JoinHiLo(y);
  }
}
