/** Numeric building blocks shared by every module: NumPy's rounding and
    casting rules, Python-style indexing, and finite sums. */
module Numeric {

  /** `np.pi`, the double closest to pi. */
  const PI: real := 3.141592653589793

  datatype Option<T> = None | Some(value: T)

  function Min(a: real, b: real): real { if a <= b then a else b }
  function Max(a: real, b: real): real { if a >= b then a else b }
  function MinInt(a: int, b: int): int { if a <= b then a else b }
  function MaxInt(a: int, b: int): int { if a >= b then a else b }
  function Abs(a: real): real { if a >= 0.0 then a else -a }
  function AbsInt(a: int): int { if a >= 0 then a else -a }

  /** `np.rint`: round to the nearest integer, ties to the even neighbour. */
  function Rint(x: real): (r: int)
    ensures x - 0.5 <= r as real <= x + 0.5
    ensures (r as real - x == 0.5 || x - r as real == 0.5) ==> r % 2 == 0
  {
    var f := x.Floor;
    var d := x - f as real;
    if d < 0.5 then f
    else if d > 0.5 then f + 1
    else if f % 2 == 0 then f
    else f + 1
  }

  /** `astype(int)` on a float: truncation toward zero. */
  function Trunc(x: real): (r: int)
    ensures x >= 0.0 ==> 0 <= r && r as real <= x < r as real + 1.0
    ensures x < 0.0 ==> r <= 0 && r as real - 1.0 < x <= r as real
  {
    if x >= 0.0 then x.Floor else -((-x).Floor)
  }

  /** `np.clip` on integers. */
  function Clip(v: int, lo: int, hi: int): (r: int)
    requires lo <= hi
    ensures lo <= r <= hi
    ensures lo <= v <= hi ==> r == v
  {
    if v < lo then lo else if v > hi then hi else v
  }

  /** Python/NumPy indexing of a sequence of length `n`: negative indices
      count from the end, anything else out of range raises IndexError (None). */
  function PyIndex(i: int, n: nat): (r: Option<nat>)
    ensures r.Some? <==> -(n as int) <= i < n
    ensures r.Some? ==> r.value < n && (r.value == i || r.value == i + n)
  {
    if 0 <= i < n then Some(i) else if -(n as int) <= i < 0 then Some(i + n) else None
  }

  /** `np.flip(s, 0)`: the sequence in reverse order. */
  function Reversed<T>(s: seq<T>): (r: seq<T>)
    ensures |r| == |s|
    ensures forall i :: 0 <= i < |s| ==> r[i] == s[|s| - 1 - i]
  {
    seq(|s|, i requires 0 <= i < |s| => s[|s| - 1 - i])
  }

  function Sum(xs: seq<real>): real
  {
    if |xs| == 0 then 0.0 else Sum(xs[..|xs| - 1]) + xs[|xs| - 1]
  }

  function SumInt(xs: seq<int>): int
  {
    if |xs| == 0 then 0 else SumInt(xs[..|xs| - 1]) + xs[|xs| - 1]
  }

  /** Subtracting the mean from every entry leaves a column whose sum is zero;
      this is the in-place centring `coords -= mean(coords)`. */
  function Shifted(xs: seq<real>, m: real): (r: seq<real>)
    ensures |r| == |xs|
    ensures forall i :: 0 <= i < |xs| ==> r[i] == xs[i] - m
  {
    seq(|xs|, i requires 0 <= i < |xs| => xs[i] - m)
  }

  function Mean(xs: seq<real>): real
    requires |xs| > 0
  {
    Sum(xs) / (|xs| as real)
  }

  /** Products of non-negative (positive) reals are non-negative
      (positive). */
  lemma MulNonNegative(a: real, b: real)
    requires 0.0 <= a && 0.0 <= b
    ensures 0.0 <= a * b
  {
  }

  lemma MulPositive(a: real, b: real)
    requires 0.0 < a && 0.0 < b
    ensures 0.0 < a * b
  {
  }

  /** A factor in `[-1, 1]` keeps a non-negative `h` within `[-h, h]`. */
  lemma ScaledUnit(h: real, s: real)
    requires 0.0 <= h && -1.0 <= s <= 1.0
    ensures -h <= h * s <= h
  {
    MulNonNegative(h, 1.0 - s);
    MulNonNegative(h, 1.0 + s);
  }

  lemma {:induction false} SumShifted(xs: seq<real>, m: real)
    ensures Sum(Shifted(xs, m)) == Sum(xs) - (|xs| as real) * m
  {
    if |xs| > 0 {
      var n := |xs|;
      assert Shifted(xs, m)[..n - 1] == Shifted(xs[..n - 1], m);
      SumShifted(xs[..n - 1], m);
    }
  }

  lemma CenteredSumIsZero(xs: seq<real>)
    requires |xs| > 0
    ensures Sum(Shifted(xs, Mean(xs))) == 0.0
  {
    SumShifted(xs, Mean(xs));
  }

  // ---- rounding facts -------------------------------------------------

  lemma RintOfInt(n: int)
    ensures Rint(n as real) == n
  {
  }

  /** Half-to-even rounding is symmetric about zero. */
  lemma RintNeg(x: real)
    ensures Rint(-x) == -Rint(x)
  {
    var f := x.Floor;
    var d := x - f as real;
    if d == 0.0 {
      assert (-x).Floor == -f;
    } else {
      assert (-x).Floor == -f - 1;
      if d == 0.5 {
        assert f % 2 == 0 <==> (-f - 1) % 2 != 0;
      }
    }
  }

  /** Shifting by an even integer commutes with half-to-even rounding
      (an odd shift does not: rint(0.5) = 0 but rint(1.5) = 2). */
  lemma RintShiftEven(k: int, x: real)
    ensures Rint((2 * k) as real + x) == 2 * k + Rint(x)
  {
    var f := x.Floor;
    assert ((2 * k) as real + x).Floor == 2 * k + f;
    assert (2 * k + f) % 2 == f % 2;
  }

  lemma RintMonotone(x: real, y: real)
    requires x <= y
    ensures Rint(x) <= Rint(y)
  {
    assert x.Floor <= y.Floor;
  }

  /** The sum of the two roundings `rint(c + o)` and `rint(c - o)` around an
      integer centre `c` is exactly `2 c`. */
  lemma RintSymmetricPair(c: int, o: real)
    ensures Rint(c as real + o) + Rint(c as real - o) == 2 * c
  {
    RintNeg(o - c as real);
    assert c as real - o == -(o - c as real);
    RintShiftEven(c, o - c as real);
    assert (2 * c) as real + (o - c as real) == c as real + o;
  }
}
