/** `crack_generation/path_functions/pivot_point.py`: the next pivot point of
    a trajectory and the starting point of a crack, for the `path_functions`
    generation.

    The random draws are inputs: `kw` and `kh` are the two `randint` draws
    for the unit size, `u` the uniform draw behind `np.random.choice`, `t`
    the relative position of the triangular draw between its left and right
    ends, and `pick` the uniform draw behind the `randint` that chooses the
    start. `move_to_nearest_mortar`, which is not part of this model, is the
    parameter `moveToNearestMortar`. */
module PivotPoint {
  import opened Numeric
  import opened Geometry
  import opened CrackModel

  const PIVOT_DIRECTION_LEFT: int := -1
  const PIVOT_DIRECTION_RIGHT: int := 1

  // ---- generate_pivot_point ---------------------------------------------

  /** The chances of landing along the bottom, the diagonal and the side.
      With `forceInwards`, on the roof (y == 0) the side chance moves into the
      bottom chance, elsewhere the bottom chance moves into the diagonal one. */
  function Probabilities(params: TrajectoryParameters, previous: Pos, forceInwards: bool): (probs: seq<real>)
    ensures |probs| == 3
    ensures probs[0] + probs[1] + probs[2]
         == params.alongBottomChance + params.alongDiagonalChance + params.alongSideChance
    ensures !forceInwards ==> probs == [params.alongBottomChance, params.alongDiagonalChance, params.alongSideChance]
    ensures forceInwards && previous.y == 0 ==>
      probs == [params.alongBottomChance + params.alongSideChance, params.alongDiagonalChance, 0.0]
    ensures forceInwards && previous.y != 0 ==>
      probs == [0.0, params.alongDiagonalChance + params.alongBottomChance, params.alongSideChance]
  {
    var probs := [params.alongBottomChance, params.alongDiagonalChance, params.alongSideChance];
    if !forceInwards then probs
    else
      var isRoof := previous.y == 0;
      var receiver := if isRoof then 0 else 1;
      var donor := if isRoof then 2 else 0;
      var moved := probs[receiver := probs[receiver] + probs[donor]];
      moved[donor := 0.0]
  }

  /** `np.random.choice(np.arange(3), p=probs)` for a uniform draw `u`: the
      first index whose cumulative probability exceeds `u`. NumPy refuses
      negative probabilities and ones that do not sum to one (None). */
  function Choose(probs: seq<real>, u: real): (r: Option<nat>)
    requires |probs| == 3
    ensures r.Some? <==> probs[0] >= 0.0 && probs[1] >= 0.0 && probs[2] >= 0.0 && probs[0] + probs[1] + probs[2] == 1.0
    ensures r.Some? ==> r.value < 3
  {
    if probs[0] < 0.0 || probs[1] < 0.0 || probs[2] < 0.0 || probs[0] + probs[1] + probs[2] != 1.0 then None
    else if u < probs[0] then Some(0)
    else if u < probs[0] + probs[1] then Some(1)
    else Some(2)
  }

  /** An index of probability zero is never chosen, so with `forceInwards`
      the emptied direction is never taken. */
  lemma ChooseAvoidsZero(probs: seq<real>, u: real, i: nat)
    requires |probs| == 3 && 0.0 <= u < 1.0 && i < 3 && probs[i] == 0.0
    ensures Choose(probs, u) != Some(i)
  {
  }

  /** The chosen index has a positive probability and `u` falls in its share
      of [0, 1). */
  lemma ChooseIsInItsShare(probs: seq<real>, u: real)
    requires |probs| == 3 && 0.0 <= u < 1.0 && Choose(probs, u).Some?
    ensures var i := Choose(probs, u).value;
      probs[i] > 0.0
      && Sum(probs[..i]) <= u < Sum(probs[..i + 1])
  {
    assert Sum([]) == 0.0;
    assert Sum([probs[0]]) == probs[0];
    assert Sum([probs[0], probs[1]]) == probs[0] + probs[1];
    assert [probs[0], probs[1], probs[2]][..2] == [probs[0], probs[1]];
    assert Sum([probs[0], probs[1], probs[2]]) == probs[0] + probs[1] + probs[2];
    assert probs[..1] == [probs[0]];
    assert probs[..2] == [probs[0], probs[1]];
    assert probs[..3] == [probs[0], probs[1], probs[2]];
    assert probs[..0] == [];
    assert [probs[0], probs[1]][..1] == [probs[0]];
    assert [probs[0], probs[1], probs[2]][..2] == [probs[0], probs[1]];
  }

  /** The ends of the triangular distribution for each direction: along the
      bottom [0, ux], along the diagonal [0, ux + uy], along the side
      [ux, ux + uy]. */
  function TriangleEnds(which: nat, ux: int, uy: int): (ends: (int, int))
    requires which < 3
  {
    if which == 0 then (0, ux)
    else if which == 1 then (0, ux + uy)
    else (ux, ux + uy)
  }

  /** The rounded triangular draw at relative position `t` between the ends. */
  function Displacement(ends: (int, int), t: real): (d: int)
    requires ends.0 <= ends.1 && 0.0 <= t <= 1.0
    ensures ends.0 <= d <= ends.1
  {
    var x := ends.0 as real + t * (ends.1 - ends.0) as real;
    assert ends.0 as real <= x <= ends.1 as real by {
      MulNonNegative(t, (ends.1 - ends.0) as real);
      MulNonNegative(1.0 - t, (ends.1 - ends.0) as real);
    }
    RintMonotone(ends.0 as real, x);
    RintMonotone(x, ends.1 as real);
    RintOfInt(ends.0);
    RintOfInt(ends.1);
    Rint(x)
  }

  /** The displacement `d` travels along the bottom first, then up the side:
      `(min(d, ux), uy - max(d - ux, 0))`. */
  function DisplacementVector(d: int, ux: int, uy: int): Pos
  {
    Pos(MinInt(d, ux), uy - MaxInt(d - ux, 0))
  }

  /** For `d` in [0, ux + uy] both components stay inside the unit, and the
      distance travelled along the two legs adds up to `d`. */
  lemma DisplacementVectorInUnit(d: int, ux: int, uy: int)
    requires 0 <= ux && 0 <= uy && 0 <= d <= ux + uy
    ensures var v := DisplacementVector(d, ux, uy);
      0 <= v.x <= ux && 0 <= v.y <= uy && v.x + (uy - v.y) == d
  {
  }

  /** `np.rint(v / brick) * brick`: the nearest multiple of the brick size. */
  function Snap(v: int, brick: int): int
    requires brick > 0
  {
    Rint(v as real / brick as real) * brick
  }

  /** Snapping moves a component by at most half a brick, and a component in
      [0, k * brick] stays there. */
  lemma SnapBounds(v: int, brick: int, k: int)
    requires brick > 0 && 0 <= v <= k * brick
    ensures AbsInt(Snap(v, brick) - v) as real <= brick as real / 2.0
    ensures 0 <= Snap(v, brick) <= k * brick
    ensures 0 <= Rint(v as real / brick as real) <= k
  {
    var n := Rint(v as real / brick as real);
    NearestMultiple(v, brick, k, n);
  }

  /** What snapping needs of the rounded quotient `n`: it is within a half
      of `v / brick`. */
  lemma NearestMultiple(v: int, brick: int, k: int, n: int)
    requires brick > 0 && 0 <= v <= k * brick
    requires v as real / brick as real - 0.5 <= n as real <= v as real / brick as real + 0.5
    ensures AbsInt(n * brick - v) as real <= brick as real / 2.0
    ensures 0 <= n <= k && 0 <= n * brick <= k * brick
  {
    NearestMultipleError(v, brick, n);
    QuotientBounds(v, brick, k);
    assert 0 <= n <= k;
    NonNegativeProduct(n, brick);
    NonNegativeProduct(k - n, brick);
    assert (k - n) * brick == k * brick - n * brick;
  }

  lemma NearestMultipleError(v: int, brick: int, n: int)
    requires brick > 0
    requires v as real / brick as real - 0.5 <= n as real <= v as real / brick as real + 0.5
    ensures AbsInt(n * brick - v) as real <= brick as real / 2.0
  {
    var b := brick as real;
    var q := v as real / b;
    QuotientTimesDivisor(v as real, b);
    ScaledError(n as real - q, b);
    assert (n as real - q) * b == (n * brick - v) as real;
  }

  lemma QuotientTimesDivisor(x: real, b: real)
    requires b > 0.0
    ensures (x / b) * b == x
  {
  }

  lemma ScaledError(e: real, b: real)
    requires -0.5 <= e <= 0.5 && b > 0.0
    ensures -(b / 2.0) <= e * b <= b / 2.0
  {
    if e >= 0.0 {
      assert e * b <= 0.5 * b;
    } else {
      assert (-e) * b <= 0.5 * b;
    }
  }

  lemma QuotientBounds(v: int, brick: int, k: int)
    requires brick > 0 && 0 <= v <= k * brick
    ensures 0.0 <= v as real / brick as real <= k as real
  {
    assert (k * brick) as real == k as real * brick as real;
  }

  lemma NonNegativeProduct(a: int, b: int)
    requires a >= 0 && b >= 0
    ensures a * b >= 0
  {
  }

  /** The snapped displacement vector, in bricks: `(rint(x / bw), rint(y / bh))`. */
  function SnappedBricks(v: Pos, surface: Surface): Pos
    requires surface.brickWidth > 0 && surface.brickHeight > 0
  {
    Pos(Rint(v.x as real / surface.brickWidth as real), Rint(v.y as real / surface.brickHeight as real))
  }

  /** The position the pivot moves to before it is sent to the nearest
      mortar: `previous + (direction * x, y)` with the snapped displacement
      vector, for the chosen direction `which`. */
  function PivotTarget(previous: Pos, surface: Surface, direction: int, which: nat, kw: int, kh: int, t: real): Pos
    requires which < 3 && surface.brickWidth > 0 && surface.brickHeight > 0 && kw >= 1 && kh >= 1 && 0.0 <= t <= 1.0
  {
    var ux := kw * surface.brickWidth;
    var uy := kh * surface.brickHeight;
    var v := DisplacementVector(Displacement(TriangleEnds(which, ux, uy), t), ux, uy);
    Pos(previous.x + direction * Snap(v.x, surface.brickWidth), previous.y + Snap(v.y, surface.brickHeight))
  }

  /** The pivot moves by whole bricks, sideways by at most `kw` bricks in the
      pivot direction and downwards by at most `kh` bricks. */
  lemma PivotTargetInUnit(previous: Pos, surface: Surface, direction: int, which: nat, kw: int, kh: int, t: real)
    requires which < 3 && surface.brickWidth > 0 && surface.brickHeight > 0 && kw >= 1 && kh >= 1 && 0.0 <= t <= 1.0
    ensures var p := PivotTarget(previous, surface, direction, which, kw, kh, t);
      exists bricks: Pos ::
        0 <= bricks.x <= kw && 0 <= bricks.y <= kh
        && p == Pos(previous.x + direction * (bricks.x * surface.brickWidth), previous.y + bricks.y * surface.brickHeight)
  {
    var ux := kw * surface.brickWidth;
    var uy := kh * surface.brickHeight;
    var d := Displacement(TriangleEnds(which, ux, uy), t);
    var v := DisplacementVector(d, ux, uy);
    DisplacementVectorInUnit(d, ux, uy);
    SnapBounds(v.x, surface.brickWidth, kw);
    SnapBounds(v.y, surface.brickHeight, kh);
    var bricks := SnappedBricks(v, surface);
    assert PivotTarget(previous, surface, direction, which, kw, kh, t)
        == Pos(previous.x + direction * (bricks.x * surface.brickWidth), previous.y + bricks.y * surface.brickHeight);
  }

  /** `generate_pivot_point`. None when the chances, after the optional
      redistribution, are not a probability distribution. */
  function GeneratePivotPoint(previous: Pos, surface: Surface, params: TrajectoryParameters, direction: int,
                              forceInwards: bool, kw: int, kh: int, u: real, t: real,
                              moveToNearestMortar: Pos -> Pos): (r: Option<Pos>)
    requires surface.brickWidth > 0 && surface.brickHeight > 0
    requires 1 <= kw < params.maxPivotBrickWidths && 1 <= kh < params.maxPivotBrickHeights
    requires 0.0 <= u < 1.0 && 0.0 <= t <= 1.0
    ensures r.Some? <==> Choose(Probabilities(params, previous, forceInwards), u).Some?
    ensures r.Some? ==> exists which: nat ::
      which < 3 && r.value == moveToNearestMortar(PivotTarget(previous, surface, direction, which, kw, kh, t))
  {
    match Choose(Probabilities(params, previous, forceInwards), u)
    case None => None
    case Some(which) => Some(moveToNearestMortar(PivotTarget(previous, surface, direction, which, kw, kh, t)))
  }

  /** With `forceInwards` on the roof the pivot never runs along the side,
      and elsewhere never along the bottom. */
  lemma ForceInwardsNeverLeaves(previous: Pos, params: TrajectoryParameters, u: real)
    requires 0.0 <= u < 1.0
    ensures previous.y == 0 ==> Choose(Probabilities(params, previous, true), u) != Some(2)
    ensures previous.y != 0 ==> Choose(Probabilities(params, previous, true), u) != Some(0)
  {
    var probs := Probabilities(params, previous, true);
    if previous.y == 0 {
      ChooseAvoidsZero(probs, u, 2);
    } else {
      ChooseAvoidsZero(probs, u, 0);
    }
  }

  // ---- determine_start_point -------------------------------------------

  /** The half-open search space `(min_width, max_width, max_height)`; the
      minimum height is 0. A direction other than left or right leaves the
      width bounds unbound (None). */
  function SearchSpace(surface: Surface, params: TrajectoryParameters, direction: int): (r: Option<(int, int, int)>)
    ensures r.Some? <==> direction == PIVOT_DIRECTION_LEFT || direction == PIVOT_DIRECTION_RIGHT
    ensures direction == PIVOT_DIRECTION_LEFT ==> r.value.1 == surface.Width() - 1
    ensures direction == PIVOT_DIRECTION_RIGHT ==> r.value.0 == 0
  {
    var height := surface.Height() as real;
    var width := surface.Width() as real;
    var maxHeight := Rint(height * (1.0 - params.rowSearchSpacePercent));
    if direction == PIVOT_DIRECTION_LEFT then
      Some((Rint(width * (1.0 - params.columnSearchSpacePercent)), surface.Width() - 1, maxHeight))
    else if direction == PIVOT_DIRECTION_RIGHT then
      Some((0, Rint(width * params.columnSearchSpacePercent), maxHeight))
    else None
  }

  /** The candidate starts: the side column (x = `sideX`) for rows
      0 .. max_height - 1, then the top row for columns min_width .. max_width - 1.
      Python repeats and ranges of negative length are empty. */
  function Candidates(minWidth: int, maxWidth: int, maxHeight: int, sideX: int): (cs: seq<Pos>)
    ensures |cs| == MaxInt(maxHeight, 0) + MaxInt(maxWidth - minWidth, 0)
    ensures forall i :: 0 <= i < MaxInt(maxHeight, 0) ==> cs[i] == Pos(sideX, i)
    ensures forall j :: MaxInt(maxHeight, 0) <= j < |cs| ==> cs[j] == Pos(minWidth + (j - MaxInt(maxHeight, 0)), 0)
  {
    var side := seq(MaxInt(maxHeight, 0), i requires 0 <= i < MaxInt(maxHeight, 0) => Pos(sideX, i));
    var top := seq(MaxInt(maxWidth - minWidth, 0), i requires 0 <= i < MaxInt(maxWidth - minWidth, 0) => Pos(minWidth + i, 0));
    side + top
  }

  /** A candidate with its depth, the distance transform there. */
  type Keyed = (Pos, real)

  predicate SortedDeepestFirst(s: seq<Keyed>)
  {
    forall i, j :: 0 <= i < j < |s| ==> s[i].1 >= s[j].1
  }

  /** Inserts `x` before the first entry that is not deeper than it. */
  function InsertByDepth(x: Keyed, s: seq<Keyed>): (r: seq<Keyed>)
    requires SortedDeepestFirst(s)
    ensures SortedDeepestFirst(r)
    ensures multiset(r) == multiset(s) + multiset{x}
    ensures forall e :: e in r ==> e == x || e in s
  {
    if |s| == 0 then [x]
    else if s[0].1 > x.1 then
      var rest := InsertByDepth(x, s[1..]);
      InsertBehindFirst(x, s, rest);
      [s[0]] + rest
    else
      [x] + s
  }

  /** An entry deeper than `x` stays in front of the insertion into the
      rest. */
  lemma InsertBehindFirst(x: Keyed, s: seq<Keyed>, rest: seq<Keyed>)
    requires SortedDeepestFirst(s) && |s| > 0 && s[0].1 > x.1
    requires SortedDeepestFirst(rest) && multiset(rest) == multiset(s[1..]) + multiset{x}
    requires forall e :: e in rest ==> e == x || e in s[1..]
    ensures SortedDeepestFirst([s[0]] + rest)
    ensures multiset([s[0]] + rest) == multiset(s) + multiset{x}
  {
    forall e | e in rest ensures s[0].1 >= e.1 {
      if e != x {
        FirstIsDeepest(s, e);
      }
    }
    assert s == [s[0]] + s[1..];
    ConsSorted(s[0], rest);
  }

  lemma ConsSorted(h: Keyed, s: seq<Keyed>)
    requires SortedDeepestFirst(s) && forall e :: e in s ==> h.1 >= e.1
    ensures SortedDeepestFirst([h] + s)
  {
    forall i, j | 0 <= i < j < |s| + 1 ensures ([h] + s)[i].1 >= ([h] + s)[j].1 {
      if i == 0 {
        assert s[j - 1] in s;
      }
    }
  }

  lemma FirstIsDeepest(s: seq<Keyed>, e: Keyed)
    requires SortedDeepestFirst(s) && |s| > 0 && e in s[1..]
    ensures s[0].1 >= e.1
  {
    var k :| 0 <= k < |s[1..]| && s[1..][k] == e;
    assert s[k + 1] == e;
  }

  /** The entries of depth `d`, in the order they appear. */
  function AtDepth(s: seq<Keyed>, d: real): seq<Keyed>
  {
    if |s| == 0 then []
    else (if s[0].1 == d then [s[0]] else []) + AtDepth(s[1..], d)
  }

  /** Insertion puts `x` in front of every entry of its own depth and keeps
      the order of the others. */
  lemma {:induction false} InsertKeepsOrderAtDepth(x: Keyed, s: seq<Keyed>, d: real)
    requires SortedDeepestFirst(s)
    ensures AtDepth(InsertByDepth(x, s), d) == (if x.1 == d then [x] else []) + AtDepth(s, d)
    decreases |s|
  {
    if |s| > 0 && s[0].1 > x.1 {
      var rest := InsertByDepth(x, s[1..]);
      assert InsertByDepth(x, s) == [s[0]] + rest;
      AtDepthCons(s[0], rest, d);
      InsertKeepsOrderAtDepth(x, s[1..], d);
      AtDepthCons(s[0], s[1..], d);
      assert s == [s[0]] + s[1..];
    } else {
      assert InsertByDepth(x, s) == [x] + s;
      AtDepthCons(x, s, d);
    }
  }

  lemma AtDepthCons(h: Keyed, t: seq<Keyed>, d: real)
    ensures AtDepth([h] + t, d) == (if h.1 == d then [h] else []) + AtDepth(t, d)
  {
    assert ([h] + t)[1..] == t;
  }

  /** `all_points.sort(key=lambda point: -distance_transform[point])`: a
      sort by decreasing depth, as an insertion sort. Python's sort is
      stable, and so is this one: the entries of each depth keep their
      order. */
  function SortByDepth(s: seq<Keyed>): (r: seq<Keyed>)
    ensures SortedDeepestFirst(r)
    ensures multiset(r) == multiset(s)
    ensures forall d :: AtDepth(r, d) == AtDepth(s, d)
  {
    if |s| == 0 then []
    else
      assert s == [s[0]] + s[1..];
      var t := SortByDepth(s[1..]);
      assert forall d :: AtDepth(InsertByDepth(s[0], t), d) == AtDepth(s, d) by {
        forall d ensures AtDepth(InsertByDepth(s[0], t), d) == AtDepth(s, d) {
          InsertKeepsOrderAtDepth(s[0], t, d);
        }
      }
      InsertByDepth(s[0], t)
  }

  /** Each candidate with its depth; None when one of them is not a valid
      index into the distance transform (IndexError while computing keys). */
  function WithDepths(cs: seq<Pos>, surface: Surface): (r: Option<seq<Keyed>>)
    requires surface.Wf()
    ensures r.Some? <==> forall i :: 0 <= i < |cs| ==> surface.distanceTransform.Lookup(cs[i]).Some?
    ensures r.Some? ==> |r.value| == |cs| && forall i :: 0 <= i < |cs| ==>
      r.value[i] == (cs[i], surface.distanceTransform.Lookup(cs[i]).value)
    decreases |cs|
  {
    if |cs| == 0 then Some([])
    else match (surface.distanceTransform.Lookup(cs[0]), WithDepths(cs[1..], surface))
      case (Some(d), Some(rest)) => Some([(cs[0], d)] + rest)
      case (None, _) => None
      case (_, None) =>
        assert forall i :: 1 <= i < |cs| ==> cs[1..][i - 1] == cs[i];
        None
  }

  /** `int(len(all_points) * 0.2)`: how many of the deepest candidates may
      be chosen. */
  function ChoiceBound(count: nat): nat
  {
    (count as real * 0.2).Floor
  }

  /** The chosen index `np.random.randint(bound)` for a uniform draw. */
  function ChoiceIndex(bound: nat, pick: real): (k: nat)
    requires bound > 0 && 0.0 <= pick < 1.0
    ensures k < bound
  {
    var x := pick * bound as real;
    assert x < bound as real by {
      assert pick * bound as real < 1.0 * bound as real;
    }
    x.Floor
  }

  /** The start angle: along the top row the crack heads down (pi/2),
      elsewhere horizontally into the surface (0 to the right, pi to the left). */
  function StartAngle(center: Pos, direction: int): real
  {
    if center.y > 0 then (if direction == PIVOT_DIRECTION_RIGHT then 0.0 else PI) else PI / 2.0
  }

  /** `determine_start_point`. None for a direction that is neither left nor
      right, for a candidate outside the distance transform, and when fewer
      than five candidates leave nothing to choose from (randint(0) raises). */
  function DetermineStartPoint(surface: Surface, params: TrajectoryParameters, direction: int,
                               initialWidth: real, pick: real): (r: Option<Point>)
    requires surface.Wf() && 0.0 <= pick < 1.0
    ensures direction != PIVOT_DIRECTION_LEFT && direction != PIVOT_DIRECTION_RIGHT ==> r.None?
    ensures r.Some? ==> r.value.width <= initialWidth && r.value.angle == StartAngle(r.value.center, direction)
  {
    match SearchSpace(surface, params, direction)
    case None => None
    case Some((minWidth, maxWidth, maxHeight)) =>
      var sideX := if direction == PIVOT_DIRECTION_RIGHT then minWidth else maxWidth;
      var cs := Candidates(minWidth, maxWidth, maxHeight, sideX);
      match WithDepths(cs, surface)
      case None => None
      case Some(keyed) =>
        var sorted := SortByDepth(keyed);
        var bound := ChoiceBound(|sorted|);
        if bound == 0 then None
        else
          var chosen := sorted[ChoiceIndex(bound, pick)];
          Some(Point(StartAngle(chosen.0, direction), Min(initialWidth, chosen.1), chosen.0))
  }

  /** The start is one of the candidates, at least as deep as every candidate
      outside the deepest fifth, with the width capped at its depth and the
      angle given by where it lies. */
  lemma StartPointIsAmongTheDeepest(surface: Surface, params: TrajectoryParameters, direction: int,
                                    initialWidth: real, pick: real)
    requires surface.Wf() && 0.0 <= pick < 1.0
    requires DetermineStartPoint(surface, params, direction, initialWidth, pick).Some?
    ensures var p := DetermineStartPoint(surface, params, direction, initialWidth, pick).value;
      var space := SearchSpace(surface, params, direction).value;
      var sideX := if direction == PIVOT_DIRECTION_RIGHT then space.0 else space.1;
      var cs := Candidates(space.0, space.1, space.2, sideX);
      p.center in cs
      && surface.distanceTransform.Lookup(p.center).Some?
      && p.width == Min(initialWidth, surface.distanceTransform.Lookup(p.center).value)
      && p.angle == StartAngle(p.center, direction)
      && |cs| >= 5
      && |set c | c in cs && surface.distanceTransform.Lookup(c).value > surface.distanceTransform.Lookup(p.center).value|
         < ChoiceBound(|cs|)
  {
    var space := SearchSpace(surface, params, direction).value;
    var sideX := if direction == PIVOT_DIRECTION_RIGHT then space.0 else space.1;
    var cs := Candidates(space.0, space.1, space.2, sideX);
    var keyed := WithDepths(cs, surface).value;
    var sorted := SortByDepth(keyed);
    var bound := ChoiceBound(|sorted|);
    var k := ChoiceIndex(bound, pick);
    var chosen := sorted[k];
    assert |sorted| == |keyed| by {
      assert |multiset(sorted)| == |multiset(keyed)|;
    }
    assert chosen in multiset(keyed);
    var i :| 0 <= i < |keyed| && keyed[i] == chosen;
    assert chosen.0 == cs[i];
    assert |cs| as real * 0.2 >= 1.0;
    DeeperAreBefore(sorted, keyed, cs, surface, k);
  }

  /** In the sorted candidates, those strictly deeper than entry `k` all sit
      before it, so there are at most `k` of them. */
  lemma DeeperAreBefore(sorted: seq<Keyed>, keyed: seq<Keyed>, cs: seq<Pos>, surface: Surface, k: nat)
    requires surface.Wf() && SortedDeepestFirst(sorted) && multiset(sorted) == multiset(keyed) && k < |sorted|
    requires |keyed| == |cs| && forall i :: 0 <= i < |cs| ==>
      surface.distanceTransform.Lookup(cs[i]).Some? && keyed[i] == (cs[i], surface.distanceTransform.Lookup(cs[i]).value)
    ensures |set c | c in cs && surface.distanceTransform.Lookup(c).value > sorted[k].1| <= k
  {
    var deeper := set c | c in cs && surface.distanceTransform.Lookup(c).value > sorted[k].1;
    var before := set j | 0 <= j < k :: sorted[j].0;
    forall c | c in deeper ensures c in before {
      var i :| 0 <= i < |cs| && cs[i] == c;
      assert keyed[i] in multiset(sorted);
      var j :| 0 <= j < |sorted| && sorted[j] == keyed[i];
      assert j < k;
    }
    assert deeper <= before;
    SetCardinalityLe(deeper, before);
    ImageCardinality(sorted, k);
  }

  lemma SetCardinalityLe<T>(a: set<T>, b: set<T>)
    requires a <= b
    ensures |a| <= |b|
  {
    assert b == a + (b - a);
  }

  /** The first `k` entries contribute at most `k` distinct candidates. */
  lemma {:induction false} ImageCardinality(sorted: seq<Keyed>, k: nat)
    requires k <= |sorted|
    ensures |set j | 0 <= j < k :: sorted[j].0| <= k
  {
    if k > 0 {
      ImageCardinality(sorted, k - 1);
      var s := set j | 0 <= j < k - 1 :: sorted[j].0;
      assert (set j | 0 <= j < k :: sorted[j].0) == s + {sorted[k - 1].0};
    }
  }
}
