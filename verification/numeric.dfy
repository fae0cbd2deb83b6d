/** Python's numeric built-ins as the simulation engine uses them, over exact
    reals: `round`, `int`, `max(0, x)` and `sum`. */
module Numeric {

  /** n is x rounded as Python's `round` does: an integer within 1/2 of x,
      and the even one when x lies exactly half-way between two integers. */
  predicate RoundsTo(n: int, x: real)
  {
    && x - 0.5 <= n as real <= x + 0.5
    && ((n as real - x == 0.5 || x - n as real == 0.5) ==> n % 2 == 0)
  }

  /** Python's `round(x)` with no digit count: the nearest integer, a value
      exactly half-way between two integers going to the even one. */
  function RoundHalfEven(x: real): (r: int)
    ensures RoundsTo(r, x)
  {
    var f := x.Floor;
    var d := x - f as real;
    if d < 0.5 then f
    else if d > 0.5 then f + 1
    else if f % 2 == 0 then f
    else f + 1
  }

  /** The rounding is pinned down: no other integer rounds x. */
  lemma RoundHalfEvenIsUnique(x: real, n: int)
    requires RoundsTo(n, x)
    ensures n == RoundHalfEven(x)
  {
  }

  /** Rounding a value in [0, hi] for an integer hi stays in [0, hi]. */
  lemma RoundStaysInRange(x: real, hi: int)
    requires 0.0 <= x <= hi as real
    ensures 0 <= RoundHalfEven(x) <= hi
  {
  }

  /** Python's `int(x)` on a float: truncation toward zero. */
  function TruncateToInt(x: real): (r: int)
    ensures 0.0 <= x ==> 0 <= r && r as real <= x < r as real + 1.0
    ensures x < 0.0 ==> r <= 0 && r as real - 1.0 < x <= r as real
  {
    if x >= 0.0 then x.Floor else -((-x).Floor)
  }

  /** Python's `max(0, x)`. */
  function MaxZero(x: real): (m: real)
    ensures 0.0 <= m && x <= m
    ensures m == x || m == 0.0
  {
    if x > 0.0 then x else 0.0
  }

  /** The guarded quotient `n / d if d > 0 else 0`: it never divides by
      zero, and a positive divisor times the quotient gives back n. */
  function DivideOrZero(n: int, d: real): (q: real)
    ensures 0.0 < d ==> q * d == n as real
    ensures d <= 0.0 ==> q == 0.0
    ensures 0 <= n ==> 0.0 <= q
  {
    if d > 0.0 then n as real / d else 0.0
  }

  /** Python's `sum` over a list of floats. */
  function SumReal(s: seq<real>): real
  {
    if |s| == 0 then 0.0 else s[0] + SumReal(s[1..])
  }

  /** Python's `sum` over a list of ints. */
  function SumInt(s: seq<int>): int
  {
    if |s| == 0 then 0 else s[0] + SumInt(s[1..])
  }

  predicate AllNonNegative(s: seq<real>)
  {
    forall i :: 0 <= i < |s| ==> 0.0 <= s[i]
  }

  lemma {:induction false} SumRealNonNegative(s: seq<real>)
    requires AllNonNegative(s)
    ensures 0.0 <= SumReal(s)
  {
    if |s| > 0 {
      SumRealNonNegative(s[1..]);
    }
  }

  /** In a list of non-negative values no element exceeds the total. */
  lemma {:induction false} ElementAtMostSum(s: seq<real>, i: int)
    requires AllNonNegative(s)
    requires 0 <= i < |s|
    ensures s[i] <= SumReal(s)
  {
    if i == 0 {
      SumRealNonNegative(s[1..]);
    } else {
      ElementAtMostSum(s[1..], i - 1);
    }
  }

  /** Multiplying every element by c multiplies the total by c. */
  lemma {:induction false} SumRealScaled(s: seq<real>, t: seq<real>, c: real)
    requires |t| == |s|
    requires forall i :: 0 <= i < |s| ==> t[i] == s[i] * c
    ensures SumReal(t) == SumReal(s) * c
  {
    if |s| > 0 {
      SumRealScaled(s[1..], t[1..], c);
    }
  }

  /** Rounding each element independently moves the total by at most half a
      unit per element. */
  lemma {:induction false} RoundingDriftBound(a: seq<int>, b: seq<real>)
    requires |a| == |b|
    requires forall i :: 0 <= i < |a| ==> b[i] - 0.5 <= a[i] as real <= b[i] + 0.5
    ensures SumReal(b) - (|a| as real) / 2.0 <= SumInt(a) as real <= SumReal(b) + (|a| as real) / 2.0
  {
    if |a| > 0 {
      RoundingDriftBound(a[1..], b[1..]);
    }
  }
}
