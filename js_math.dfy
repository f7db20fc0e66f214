/**
 * JavaScript's `Math.floor`, `Math.round` and `Math.ceil` applied to the quotient of two
 * integers, and the truncating remainder operator `%`, written over Dafny's unbounded
 * integers. Dafny's own `/` and `%` are Euclidean, so each of these is spelled out and
 * characterised by the inequalities that define it.
 */
module JsMath {
  /** `Math.floor(x / d)`: the largest integer not above the real quotient. */
  function FloorDiv(x: int, d: int): (r: int)
    requires d > 0
    ensures d * r <= x < d * r + d
  {
    x / d
  }

  /** `Math.round(x / d)`: the nearest integer, halves rounded toward positive infinity. */
  function RoundDiv(x: int, d: int): (r: int)
    requires d > 0
    ensures 2 * d * r - d <= 2 * x < 2 * d * r + d
  {
    (2 * x + d) / (2 * d)
  }

  /** `Math.ceil(x / d)`: the smallest integer not below the real quotient. */
  function CeilDiv(x: int, d: int): (r: int)
    requires d > 0
    ensures d * r - d < x <= d * r
  {
    (x + d - 1) / d
  }

  /** JavaScript's `x % d`: the remainder of the quotient truncated toward zero. */
  function TruncRem(x: int, d: int): (r: int)
    requires d > 0
    ensures x >= 0 ==> 0 <= r < d
    ensures x < 0 ==> -d < r <= 0
  {
    if x >= 0 then x % d else -((-x) % d)
  }

  /** `Math.abs`. */
  function Abs(x: int): (r: nat)
    ensures r == x || r == -x
  {
    if x < 0 then -x else x
  }

  /** `Math.max` of two integers. */
  function Max(a: int, b: int): (r: int)
    ensures r >= a && r >= b && (r == a || r == b)
  {
    if a >= b then a else b
  }

  /** `Math.min` of two integers. */
  function Min(a: int, b: int): (r: int)
    ensures r <= a && r <= b && (r == a || r == b)
  {
    if a <= b then a else b
  }

  /** The truncating remainder is odd in its dividend and agrees with `%` on non-negatives. */
  lemma TruncRemOdd(x: int, d: int)
    requires d > 0
    ensures TruncRem(-x, d) == -TruncRem(x, d)
    ensures x >= 0 ==> TruncRem(x, d) == x % d
  {
  }

  /** A rounded quotient of a total lying between `d * lo` and `d * hi` lies between `lo` and `hi`. */
  lemma RoundDivBounds(x: int, d: int, lo: int, hi: int)
    requires d > 0
    requires d * lo <= x <= d * hi
    ensures lo <= RoundDiv(x, d) <= hi
  {
    RoundDivAtLeast(x, d, lo);
    var r := RoundDiv(x, d);
    assert d * (2 * r - 1) == 2 * d * r - d;
    assert d * (2 * hi + 1) == 2 * (d * hi) + d;
    CancelFactor(d, 2 * r - 1, 2 * hi + 1);
  }

  /** A rounded quotient of a total of at least `d * lo` is at least `lo`. */
  lemma RoundDivAtLeast(x: int, d: int, lo: int)
    requires d > 0 && d * lo <= x
    ensures lo <= RoundDiv(x, d)
  {
    var r := RoundDiv(x, d);
    assert d * (2 * lo - 1) == 2 * (d * lo) - d;
    assert d * (2 * r + 1) == 2 * d * r + d;
    CancelFactor(d, 2 * lo - 1, 2 * r + 1);
  }

  /** A positive factor common to both sides of a strict inequality cancels. */
  lemma CancelFactor(d: int, a: int, b: int)
    requires d > 0 && d * a < d * b
    ensures a < b
  {
  }
}
