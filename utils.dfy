/**
 * `ExtractBits` from utils.go: gathers the bits of `b` named by `positions`
 * into a byte, the first position landing in the highest used bit.
 *
 * Go shifts of a byte by 8 or more give 0, and a negative shift count is a
 * run-time panic; both are written out here.
 */
module Utils {
  import opened Bytes

  /** Go's `b >> n` on a byte, for a non-negative count. */
  function ShiftRight(b: bv8, n: nat): (r: bv8)
    ensures n >= 8 ==> r == 0
  {
    if n >= 8 then 0 else b >> n
  }

  /** Go's `b << n` on a byte, for a non-negative count. */
  function ShiftLeft(b: bv8, n: nat): (r: bv8)
    ensures n >= 8 ==> r == 0
  {
    if n >= 8 then 0 else b << n
  }

  /** Bit `j` of `x`, as 0 or 1. */
  function BitOf(x: bv8, j: nat): bv8
  {
    ShiftRight(x, j) & 1
  }

  predicate NonNegative(positions: seq<int>)
  {
    forall i :: 0 <= i < |positions| ==> positions[i] >= 0
  }

  /** What iteration `i` ORs into the result: bit `positions[i]` of `b`, moved to bit `n-1-i`. */
  function Contribution(b: bv8, positions: seq<int>, i: nat): bv8
    requires i < |positions| && positions[i] >= 0
  {
    ShiftLeft(ShiftRight(b, positions[i]) & 1, |positions| - 1 - i)
  }

  /** The result after the first `k` iterations of the loop. */
  function Accumulated(b: bv8, positions: seq<int>, k: nat): bv8
    requires k <= |positions| && NonNegative(positions)
  {
    if k == 0 then 0 else Accumulated(b, positions, k - 1) | Contribution(b, positions, k - 1)
  }

  /** The source of bit `j` of the result once `k` positions are done. */
  function ExpectedBit(b: bv8, positions: seq<int>, k: nat, j: nat): bv8
    requires k <= |positions| && NonNegative(positions)
  {
    var n := |positions|;
    if n - k <= j < n && j < 8 then BitOf(b, positions[n - 1 - j]) else 0
  }

  lemma ShiftLeftBit(bit: bv8, s: nat, j: nat)
    requires bit == 0 || bit == 1
    ensures BitOf(ShiftLeft(bit, s), j) == if s == j && s < 8 then bit else 0
  {
    if s < 8 && j < 8 {
      if j == 0 {} else if j == 1 {} else if j == 2 {} else if j == 3 {}
      else if j == 4 {} else if j == 5 {} else if j == 6 {} else {}
    }
  }

  lemma OrBit(x: bv8, y: bv8, j: nat)
    ensures BitOf(x | y, j) == BitOf(x, j) | BitOf(y, j)
  {
    if j < 8 {
      if j == 0 {} else if j == 1 {} else if j == 2 {} else if j == 3 {}
      else if j == 4 {} else if j == 5 {} else if j == 6 {} else {}
    }
  }

  /**
   * After `k` iterations, bit `j` of the result is bit `positions[n-1-j]` of
   * `b` for the `k` highest used bits and 0 everywhere else.
   */
  lemma {:induction false} AccumulatedBit(b: bv8, positions: seq<int>, k: nat, j: nat)
    requires k <= |positions| && NonNegative(positions)
    ensures BitOf(Accumulated(b, positions, k), j) == ExpectedBit(b, positions, k, j)
  {
    if k > 0 {
      var n := |positions|;
      AccumulatedBit(b, positions, k - 1, j);
      OrBit(Accumulated(b, positions, k - 1), Contribution(b, positions, k - 1), j);
      ShiftLeftBit(ShiftRight(b, positions[k - 1]) & 1, n - k, j);
    }
  }

  /**
   * The loop of utils.go:3-10.  It panics on the first negative position;
   * otherwise the result is the OR of every contribution.
   */
  method ExtractBits(b: bv8, positions: seq<int>) returns (r: Outcome<bv8>)
    ensures r.Ok? <==> NonNegative(positions)
    ensures r.Ok? ==> r.value == Accumulated(b, positions, |positions|)
    ensures positions == [] ==> r == Ok(0)
  {
    var result: bv8 := 0;
    var i := 0;
    while i < |positions|
      invariant 0 <= i <= |positions|
      invariant forall k :: 0 <= k < i ==> positions[k] >= 0
      invariant NonNegative(positions) ==> result == Accumulated(b, positions, i)
    {
      var pos := positions[i];
      if pos < 0 {
        return Fatal;
      }
      var bit := ShiftRight(b, pos) & 1;
      result := result | ShiftLeft(bit, |positions| - 1 - i);
      i := i + 1;
    }
    return Ok(result);
  }

  /**
   * The contract the source promises: for n positions, result bit n-1-i is
   * bit positions[i] of `b` (0 when that position is 8 or more), and every
   * result bit at index n or above is 0.
   */
  lemma ExtractedBits(b: bv8, positions: seq<int>, j: nat)
    requires NonNegative(positions)
    ensures j < |positions| && j < 8 ==> BitOf(Accumulated(b, positions, |positions|), j) == BitOf(b, positions[|positions| - 1 - j])
    ensures j >= |positions| || j >= 8 ==> BitOf(Accumulated(b, positions, |positions|), j) == 0
  {
    AccumulatedBit(b, positions, |positions|, j);
  }

  lemma SameBits(x: bv8, y: bv8)
    requires forall j: nat :: j < 8 ==> BitOf(x, j) == BitOf(y, j)
    ensures x == y
  {
    assert BitOf(x, 0) == BitOf(y, 0) && BitOf(x, 1) == BitOf(y, 1);
    assert BitOf(x, 2) == BitOf(y, 2) && BitOf(x, 3) == BitOf(y, 3);
    assert BitOf(x, 4) == BitOf(y, 4) && BitOf(x, 5) == BitOf(y, 5);
    assert BitOf(x, 6) == BitOf(y, 6) && BitOf(x, 7) == BitOf(y, 7);
  }

  /** Positions [7, 6, 5, 4, 3, 2, 1, 0] give back `b` unchanged. */
  lemma ExtractAllBits(b: bv8)
    ensures Accumulated(b, [7, 6, 5, 4, 3, 2, 1, 0], 8) == b
  {
    var ps := [7, 6, 5, 4, 3, 2, 1, 0];
    forall j: nat | j < 8
      ensures BitOf(Accumulated(b, ps, 8), j) == BitOf(b, j)
    {
      ExtractedBits(b, ps, j);
    }
    SameBits(Accumulated(b, ps, 8), b);
  }
}
