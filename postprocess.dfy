/** `crack_generation/path_functions/postprocess.py`: moving-average
    smoothing of the path centres, shrinking the widths at the end of the
    path, and dropping points that do not move away from the start. */
module Postprocess {
  import opened Numeric
  import opened Geometry
  import opened CrackModel

  // ---- sums of integer sequences ----------------------------------------

  lemma {:induction false} SumIntAppend(a: seq<int>, b: seq<int>)
    ensures SumInt(a + b) == SumInt(a) + SumInt(b)
    decreases |b|
  {
    if |b| > 0 {
      var ab := a + b;
      assert ab[..|ab| - 1] == a + b[..|b| - 1];
      assert ab[|ab| - 1] == b[|b| - 1];
      SumIntAppend(a, b[..|b| - 1]);
      assert SumInt(ab) == SumInt(ab[..|ab| - 1]) + ab[|ab| - 1];
      assert SumInt(b) == SumInt(b[..|b| - 1]) + b[|b| - 1];
    } else {
      assert a + b == a;
    }
  }

  /** The difference of two prefix sums is the sum of the slice between. */
  lemma SumIntSlice(p: seq<int>, i: nat, j: nat)
    requires i <= j <= |p|
    ensures SumInt(p[..j]) - SumInt(p[..i]) == SumInt(p[i..j])
  {
    assert p[..j] == p[..i] + p[i..j];
    SumIntAppend(p[..i], p[i..j]);
  }

  lemma {:induction false} SumIntBounds(xs: seq<int>, lo: int, hi: int)
    requires forall k :: 0 <= k < |xs| ==> lo <= xs[k] <= hi
    ensures |xs| * lo <= SumInt(xs) <= |xs| * hi
    decreases |xs|
  {
    if |xs| > 0 {
      var n := |xs| - 1;
      SumIntBounds(xs[..n], lo, hi);
      assert |xs| * lo == n * lo + lo && |xs| * hi == n * hi + hi;
    }
  }

  // ---- smooth_path_moving_average --------------------------------------

  function Xs(path: seq<Point>): (r: seq<int>)
    ensures |r| == |path| && forall i :: 0 <= i < |path| ==> r[i] == path[i].center.x
  {
    seq(|path|, i requires 0 <= i < |path| => path[i].center.x)
  }

  function Ys(path: seq<Point>): (r: seq<int>)
    ensures |r| == |path| && forall i :: 0 <= i < |path| ==> r[i] == path[i].center.y
  {
    seq(|path|, i requires 0 <= i < |path| => path[i].center.y)
  }

  function ClampIndex(j: int, n: nat): (r: nat)
    requires n > 0
    ensures r < n && (0 <= j < n ==> r == j)
  {
    if j < 0 then 0 else if j >= n then n - 1 else j
  }

  /** The `2 s` samples averaged at index `i`: indices `i - s + 1 .. i + s`,
      clamped to the sequence, since the padding repeats the end values. */
  function Window(xs: seq<int>, i: int, s: nat): (w: seq<int>)
    requires |xs| > 0
    ensures |w| == 2 * s && forall k :: 0 <= k < 2 * s ==> w[k] == xs[ClampIndex(i - s + 1 + k, |xs|)]
  {
    seq(2 * s, k requires 0 <= k < 2 * s => xs[ClampIndex(i - s + 1 + k, |xs|)])
  }

  /** The rounded mean of the window at index `i`. */
  function Smoothed(xs: seq<int>, i: int, s: nat): int
    requires |xs| > 0 && s >= 1
  {
    Rint(SumInt(Window(xs, i, s)) as real / (2 * s) as real)
  }

  /** One coordinate after smoothing: the ends are kept, every interior value
      becomes the rounded mean of its window. */
  function MovingAverage(xs: seq<int>, s: nat): seq<int>
    requires |xs| > 0 && s >= 1
  {
    seq(|xs|, i requires 0 <= i < |xs| => if i == 0 || i == |xs| - 1 then xs[i] else Smoothed(xs, i, s))
  }

  lemma SmoothedOfConstant(xs: seq<int>, i: int, s: nat, c: int)
    requires |xs| > 0 && s >= 1 && forall k :: 0 <= k < |xs| ==> xs[k] == c
    ensures Smoothed(xs, i, s) == c
  {
    var w := Window(xs, i, s);
    SumIntBounds(w, c, c);
    assert SumInt(w) as real / (2 * s) as real == c as real;
    RintOfInt(c);
  }

  /** A constant coordinate is left as it is. */
  lemma MovingAverageOfConstant(xs: seq<int>, s: nat, c: int)
    requires |xs| > 0 && s >= 1 && forall k :: 0 <= k < |xs| ==> xs[k] == c
    ensures MovingAverage(xs, s) == xs
  {
    forall i | 0 < i < |xs| - 1
      ensures MovingAverage(xs, s)[i] == xs[i]
    {
      SmoothedOfConstant(xs, i, s, c);
    }
  }

  lemma SmoothedWithinRange(xs: seq<int>, i: int, s: nat, lo: int, hi: int)
    requires |xs| > 0 && s >= 1 && forall k :: 0 <= k < |xs| ==> lo <= xs[k] <= hi
    ensures lo <= Smoothed(xs, i, s) <= hi
  {
    var w := Window(xs, i, s);
    SumIntBounds(w, lo, hi);
    MeanWithin(SumInt(w), 2 * s, lo, hi);
    var mean := SumInt(w) as real / (2 * s) as real;
    RintMonotone(lo as real, mean);
    RintMonotone(mean, hi as real);
    RintOfInt(lo);
    RintOfInt(hi);
  }

  lemma ProductAsReal(a: int, b: int)
    ensures (a * b) as real == a as real * b as real
  {
  }

  /** The mean of `n` values between `lo` and `hi` is between them too. */
  lemma MeanWithin(sum: int, n: nat, lo: int, hi: int)
    requires n > 0 && n * lo <= sum <= n * hi
    ensures lo as real <= sum as real / n as real <= hi as real
  {
    var d, q := n as real, sum as real / n as real;
    assert q * d == sum as real;
    ProductAsReal(n, lo);
    ProductAsReal(n, hi);
    if q < lo as real {
      MulPositive(lo as real - q, d);
    }
    if q > hi as real {
      MulPositive(q - hi as real, d);
    }
  }

  /** Every smoothed value lies between the least and the greatest value of
      the coordinate. */
  lemma MovingAverageWithinRange(xs: seq<int>, s: nat, lo: int, hi: int)
    requires |xs| > 0 && s >= 1 && forall k :: 0 <= k < |xs| ==> lo <= xs[k] <= hi
    ensures forall i :: 0 <= i < |xs| ==> lo <= MovingAverage(xs, s)[i] <= hi
  {
    forall i | 0 < i < |xs| - 1
      ensures lo <= MovingAverage(xs, s)[i] <= hi
    {
      SmoothedWithinRange(xs, i, s, lo, hi);
    }
  }

  /** The padded coordinate: `s - 1` copies of the first value, the values,
      `s - 1` copies of the last. */
  function Padded(xs: seq<int>, s: nat): (p: seq<int>)
    requires |xs| > 0 && s >= 1
    ensures |p| == |xs| + 2 * (s - 1)
    ensures forall j :: 0 <= j < |p| ==> p[j] == xs[ClampIndex(j - (s - 1), |xs|)]
  {
    seq(|xs| + 2 * (s - 1), j requires 0 <= j < |xs| + 2 * (s - 1) => xs[ClampIndex(j - (s - 1), |xs|)])
  }

  /** The difference of two prefix sums of the padded values is the sum of
      the window. */
  lemma CumsumWindow(xs: seq<int>, s: nat, padded: seq<int>, i: nat)
    requires |xs| > 0 && s >= 1 && padded == Padded(xs, s) && 1 <= i < |xs| - 1
    ensures SumInt(padded[..2 * s + i]) - SumInt(padded[..i]) == SumInt(Window(xs, i, s))
  {
    SumIntSlice(padded, i, 2 * s + i);
    assert padded[i..2 * s + i] == Window(xs, i, s);
  }

  /** The rounded mean the loop computes from the prefix sums is the
      smoothed value at `i`. */
  lemma SmoothedFromCumsum(xs: seq<int>, s: nat, padded: seq<int>, cumsum: seq<int>, i: nat)
    requires |xs| > 0 && s >= 1 && padded == Padded(xs, s) && 1 <= i < |xs| - 1
    requires |cumsum| == |padded| && forall j :: 0 <= j < |padded| ==> cumsum[j] == SumInt(padded[..j + 1])
    ensures 2 * s + i - 1 < |cumsum|
    ensures Rint((cumsum[2 * s + i - 1] - cumsum[i - 1]) as real / (2 * s) as real) == Smoothed(xs, i, s)
  {
    CumsumWindow(xs, s, padded, i);
    assert cumsum[2 * s + i - 1] - cumsum[i - 1] == SumInt(Window(xs, i, s));
  }

  /** One coordinate smoothed through the cumulative sum of the padded
      values, as the source computes it. */
  method SmoothCoordinate(xs: seq<int>, s: nat) returns (r: seq<int>)
    requires |xs| > 0 && s >= 1
    ensures r == MovingAverage(xs, s)
  {
    var n := |xs|;
    var padded := Padded(xs, s);
    var cumsum := CumulativeSum(padded);
    r := xs;
    var i := 1;
    while i < n - 1
      invariant 1 <= i <= MaxInt(1, n - 1)
      invariant |r| == n && r[0] == xs[0] && r[n - 1] == xs[n - 1]
      invariant forall j :: i <= j < n - 1 ==> r[j] == xs[j]
      invariant forall j :: 0 < j < i ==> r[j] == Smoothed(xs, j, s)
    {
      SmoothedFromCumsum(xs, s, padded, cumsum, i);
      r := r[i := Rint((cumsum[2 * s + i - 1] - cumsum[i - 1]) as real / (2 * s) as real)];
      i := i + 1;
    }
  }

  /** `np.cumsum`: entry `j` is the sum of the first `j + 1` values. */
  method CumulativeSum(p: seq<int>) returns (c: seq<int>)
    ensures |c| == |p| && forall j :: 0 <= j < |p| ==> c[j] == SumInt(p[..j + 1])
  {
    c := [];
    var acc := 0;
    while |c| < |p|
      invariant |c| <= |p|
      invariant acc == SumInt(p[..|c|])
      invariant forall j :: 0 <= j < |c| ==> c[j] == SumInt(p[..j + 1])
    {
      var k := |c|;
      assert p[..k + 1][..k] == p[..k];
      acc := acc + p[k];
      c := c + [acc];
    }
  }

  /** `smoothed` is `path` with each centre replaced by the moving
      averages of the x and the y coordinates over `window` points. */
  ghost predicate MovingAveraged(smoothed: seq<Point>, path: seq<Point>, window: int)
  {
    window >= 1 && |path| > 0 && |smoothed| == |path|
    && forall i :: 0 <= i < |smoothed| ==>
      smoothed[i] == path[i].(center := Pos(MovingAverage(Xs(path), window)[i],
                                            MovingAverage(Ys(path), window)[i]))
  }

  /** The centres of `points` replaced by their smoothed coordinates. */
  method SmoothedPoints(points: seq<Point>, smoothing: int) returns (smoothed: seq<Point>)
    requires |points| > 0 && smoothing >= 1
    ensures MovingAveraged(smoothed, points, smoothing)
  {
    var xs := SmoothCoordinate(Xs(points), smoothing);
    var ys := SmoothCoordinate(Ys(points), smoothing);
    smoothed := seq(|points|, i requires 0 <= i < |points| => points[i].(center := Pos(xs[i], ys[i])));
  }

  /** `smooth_path_moving_average`: the centres are smoothed in place, one
      coordinate at a time; widths and angles are untouched. An empty path
      raises IndexError and a smoothing below 1 ValueError (both `false`). */
  method SmoothPathMovingAverage(path: array<Point>, smoothing: int) returns (ok: bool)
    modifies path
    ensures ok <==> path.Length > 0 && smoothing >= 1
    ensures !ok ==> path[..] == old(path[..])
    ensures ok ==> MovingAveraged(path[..], old(path[..]), smoothing)
  {
    if path.Length == 0 || smoothing < 1 {
      return false;
    }
    var smoothed := SmoothedPoints(path[..], smoothing);
    var i := 0;
    while i < path.Length
      invariant 0 <= i <= path.Length
      invariant path[..i] == smoothed[..i] && path[i..] == old(path[i..])
    {
      path[i] := smoothed[i];
      i := i + 1;
      assert path[..i] == smoothed[..i];
    }
    assert path[..] == path[..path.Length];
    ok := true;
  }

  // ---- shrink_path_end --------------------------------------------------

  /** `shrink_path_end`. The last width is capped at `min_width`; then,
      walking backwards, each earlier width that differs from its successor
      by more than `max_width_grow` is replaced by the successor plus
      `u * max_width_grow`, with `u` the next of `draws` (each in [0.5, 1)),
      until a pair is close enough. `first` is the earliest row the walk
      reached; running out of draws also ends it. An empty path raises
      IndexError (`ok` false). */
  method ShrinkPathEnd(path: array<Point>, minWidth: real, maxWidthGrow: real, draws: seq<real>)
    returns (ok: bool, first: int, outOfDraws: bool)
    requires forall k :: 0 <= k < |draws| ==> 0.5 <= draws[k] < 1.0
    modifies path
    ensures ok <==> path.Length > 0
    ensures !ok ==> path[..] == old(path[..])
    ensures forall i :: 0 <= i < path.Length ==> path[i].center == old(path[i].center) && path[i].angle == old(path[i].angle)
    ensures ok ==> 0 <= first < path.Length && path.Length - 1 - first <= |draws|
    ensures ok ==> path[path.Length - 1].width == Min(old(path[path.Length - 1].width), minWidth)
    ensures ok ==> forall i :: 0 <= i < first ==> path[i] == old(path[i])
    ensures ok ==> forall k :: 0 <= k < path.Length - 1 - first ==>
      path[path.Length - 2 - k].width == path[path.Length - 1 - k].width + draws[k] * maxWidthGrow
    ensures ok && first > 0 && !outOfDraws ==> Abs(old(path[first - 1].width) - path[first].width) <= maxWidthGrow
    ensures outOfDraws ==> ok && first == path.Length - 1 - |draws|
  {
    outOfDraws := false;
    if path.Length == 0 {
      return false, 0, false;
    }
    ok := true;
    var n := path.Length;
    var idx := n - 1;
    var last := path[idx];
    path[idx] := last.(width := if last.width > minWidth then minWidth else last.width);
    while idx > 0
      invariant 0 <= idx <= n - 1 && n - 1 - idx <= |draws|
      invariant forall i :: 0 <= i < n ==> path[i].center == old(path[i].center) && path[i].angle == old(path[i].angle)
      invariant path[n - 1].width == Min(old(path[n - 1].width), minWidth)
      invariant forall i :: 0 <= i < idx ==> path[i] == old(path[i])
      invariant forall k :: 0 <= k < n - 1 - idx ==> path[n - 2 - k].width == path[n - 1 - k].width + draws[k] * maxWidthGrow
      decreases idx
    {
      if Abs(path[idx - 1].width - path[idx].width) <= maxWidthGrow {
        break;
      }
      if n - 1 - idx == |draws| {
        outOfDraws := true;
        break;
      }
      GrowBefore(path, idx, draws[n - 1 - idx] * maxWidthGrow);
      idx := idx - 1;
    }
    first := idx;
  }

  /** Sets the width of row `idx - 1` to that of row `idx` plus `grow`. */
  method GrowBefore(path: array<Point>, idx: int, grow: real)
    requires 0 < idx < path.Length
    modifies path
    ensures path[..] == old(path[..])[idx - 1 := old(path[idx - 1]).(width := old(path[idx].width) + grow)]
  {
    path[idx - 1] := path[idx - 1].(width := path[idx].width + grow);
  }

  /** Each rewritten width exceeds its successor by at least half and less
      than all of `max_width_grow`. */
  lemma ShrinkStepBounds(next: real, u: real, maxWidthGrow: real)
    requires 0.5 <= u < 1.0 && maxWidthGrow > 0.0
    ensures next + 0.5 * maxWidthGrow <= next + u * maxWidthGrow < next + maxWidthGrow
  {
  }

  // ---- remove_non_increasing_points --------------------------------------

  /** `np.gradient` with unit spacing: one-sided differences at both ends,
      central differences inside. */
  function Gradient(d: seq<real>): (g: seq<real>)
    requires |d| >= 2
    ensures |g| == |d|
  {
    seq(|d|, i requires 0 <= i < |d| =>
      if i == 0 then d[1] - d[0]
      else if i == |d| - 1 then d[|d| - 1] - d[|d| - 2]
      else (d[i + 1] - d[i - 1]) / 2.0)
  }

  /** On evenly spaced values the gradient is the spacing everywhere. */
  lemma GradientOfLine(d: seq<real>, a: real, b: real)
    requires |d| >= 2 && forall i :: 0 <= i < |d| ==> d[i] == a + b * i as real
    ensures forall i :: 0 <= i < |d| ==> Gradient(d)[i] == b
  {
    forall i | 0 <= i < |d|
      ensures Gradient(d)[i] == b
    {
      if 0 < i < |d| - 1 {
        assert d[i + 1] - d[i - 1] == b * (i + 1) as real - b * (i - 1) as real;
      } else if i == |d| - 1 {
        assert d[i] - d[i - 1] == b * i as real - b * (i - 1) as real;
      }
    }
  }

  /** The indices of the `true` entries of `keep`, in increasing order. */
  function KeptIndices(keep: seq<bool>): (k: seq<nat>)
    ensures forall j :: 0 <= j < |k| ==> k[j] < |keep| && keep[k[j]]
    ensures forall i :: 0 <= i < |keep| && keep[i] ==> i in k
    ensures forall j, j' :: 0 <= j < j' < |k| ==> k[j] < k[j']
    decreases |keep|
  {
    if |keep| == 0 then []
    else KeptIndices(keep[..|keep| - 1]) + (if keep[|keep| - 1] then [|keep| - 1] else [])
  }

  /** `[x for idx, x in enumerate(xs) if keep[idx]]`. */
  function Filter<T>(xs: seq<T>, keep: seq<bool>): (r: seq<T>)
    requires |keep| == |xs|
    ensures |r| == |KeptIndices(keep)| <= |xs|
    ensures forall j :: 0 <= j < |r| ==> r[j] == xs[KeptIndices(keep)[j]]
  {
    var k := KeptIndices(keep);
    KeptIndicesBound(keep);
    seq(|k|, j requires 0 <= j < |k| => xs[k[j]])
  }

  /** There are never more kept indices than entries. */
  lemma {:induction false} KeptIndicesBound(keep: seq<bool>)
    ensures |KeptIndices(keep)| <= |keep|
    decreases |keep|
  {
    if |keep| > 0 {
      KeptIndicesBound(keep[..|keep| - 1]);
    }
  }

  /** When every entry is kept the filter returns the whole sequence. */
  lemma {:induction false} KeptIndicesAll(keep: seq<bool>)
    requires forall i :: 0 <= i < |keep| ==> keep[i]
    ensures |KeptIndices(keep)| == |keep| && forall j :: 0 <= j < |keep| ==> KeptIndices(keep)[j] == j
    decreases |keep|
  {
    if |keep| > 0 {
      KeptIndicesAll(keep[..|keep| - 1]);
    }
  }

  /** The distance of every centre from the first. */
  function Distances(path: seq<Point>, trig: Trig): (d: seq<real>)
    requires |path| > 0
    ensures |d| == |path|
  {
    seq(|path|, i requires 0 <= i < |path| =>
      var dx := (path[i].center.x - path[0].center.x) as real;
      var dy := (path[i].center.y - path[0].center.y) as real;
      trig.sqrt(dx * dx + dy * dy))
  }

  /** `remove_non_increasing_points`: paths of fewer than five points are
      returned as they are; otherwise exactly the points where the gradient of
      the distance from the start exceeds `threshold` are kept, in order. */
  function RemoveNonIncreasingPoints(path: seq<Point>, threshold: real, trig: Trig): (r: seq<Point>)
    ensures |path| < 5 ==> r == path
    ensures |r| <= |path|
    ensures |path| >= 5 ==>
      var g := Gradient(Distances(path, trig));
      var kept := KeptIndices(seq(|path|, i requires 0 <= i < |path| => g[i] > threshold));
      |r| == |kept| && forall j :: 0 <= j < |r| ==> r[j] == path[kept[j]] && g[kept[j]] > threshold
  {
    if |path| < 5 then path
    else
      var g := Gradient(Distances(path, trig));
      Filter(path, seq(|path|, i requires 0 <= i < |path| => g[i] > threshold))
  }

  /** A path of five or more points moving away from its start at a constant
      rate above the threshold loses no point. */
  lemma SteadyPathIsKept(path: seq<Point>, threshold: real, trig: Trig, b: real)
    requires |path| >= 5 && b > threshold
    requires forall i :: 0 <= i < |path| ==> Distances(path, trig)[i] == b * i as real
    ensures RemoveNonIncreasingPoints(path, threshold, trig) == path
  {
    var d := Distances(path, trig);
    GradientOfLine(d, 0.0, b);
    var keep := seq(|path|, i requires 0 <= i < |path| => Gradient(d)[i] > threshold);
    KeptIndicesAll(keep);
  }
}
