/** `crack_generation/crack_path_generator.py`: the walk of the `operations`
    generation, which builds the top and bottom lines of a crack directly,
    and the tapering of both tips of those lines.

    The random draws are the sequence `draws`, each in [0, 1): per step one
    for the breakthrough chance (only when not already breaking through) and
    one for `increment_by_chance`. The walk stops when fewer than two draws
    are left, which bounds the otherwise unbounded loop. */
module CrackPathGenerator {
  import opened Numeric
  import opened Geometry
  import opened CrackModel
  import CollisionChecker
  import Ops = OperationsPathFunctions
  import PathPoint

  const MIN_DISTANCE: real := 5.0
  const MIN_WIDTH: real := 1.0
  const MAX_WIDTH_GROW_FACTOR: real := 0.05
  const MAX_WIDTH_GROW: real := 0.2

  // ---- determine_width_points -------------------------------------------

  /** The exact offset `R(angle) . (0, width) / 2` of the top point from the
      centre. */
  function HalfOffset(width: real, angle: real, trig: Trig): RVec
  {
    var o := Ops.Apply(Ops.GetRotationMatrix(angle, trig), RVec(0.0, width));
    RVec(o.x / 2.0, o.y / 2.0)
  }

  /** `determine_width_points`: the top point `rint(center + offset)` and the
      bottom point `rint(center - offset)`. Each is within half a cell of its
      exact side point, so the pair is mirrored about the centre up to one
      cell, and exactly when the centre is a cell. */
  function DetermineWidthPoints(center: RVec, width: real, angle: real, trig: Trig): (r: (Pos, Pos))
    ensures var o := HalfOffset(width, angle, trig);
      Abs(r.0.x as real - (center.x + o.x)) <= 0.5 && Abs(r.0.y as real - (center.y + o.y)) <= 0.5
      && Abs(r.1.x as real - (center.x - o.x)) <= 0.5 && Abs(r.1.y as real - (center.y - o.y)) <= 0.5
    ensures Abs((r.0.x + r.1.x) as real - 2.0 * center.x) <= 1.0 && Abs((r.0.y + r.1.y) as real - 2.0 * center.y) <= 1.0
    ensures center == ToReal(RintPos(center)) ==>
      r.0.x + r.1.x == 2 * RintPos(center).x && r.0.y + r.1.y == 2 * RintPos(center).y
  {
    var o := HalfOffset(width, angle, trig);
    var c := RintPos(center);
    RintSymmetricPair(c.x, o.x);
    RintSymmetricPair(c.y, o.y);
    (Pos(Rint(center.x + o.x), Rint(center.y + o.y)), Pos(Rint(center.x - o.x), Rint(center.y - o.y)))
  }

  /** On a cell centre this is the `point_to_coords` of the `path_functions`
      generation: both generations put the side points in the same cells. */
  lemma WidthPointsMatchPointToCoords(p: Point, trig: Trig)
    ensures DetermineWidthPoints(ToReal(p.center), p.width, p.angle, trig) == PathPoint.PointToCoords(p, trig)
  {
    WidthPointsRounded(p, trig);
    PointToCoordsRounded(p, trig);
  }

  /** The side points `rint(c + o)` and `rint(c - o)`. */
  function RoundedSides(c: RVec, o: RVec): (Pos, Pos)
  {
    (Pos(Rint(c.x + o.x), Rint(c.y + o.y)), Pos(Rint(c.x - o.x), Rint(c.y - o.y)))
  }

  lemma WidthPointsRounded(p: Point, trig: Trig)
    ensures DetermineWidthPoints(ToReal(p.center), p.width, p.angle, trig)
      == RoundedSides(ToReal(p.center), PathPoint.Offset(p, trig))
  {
    WidthPointsAreRounded(ToReal(p.center), p.width, p.angle, trig);
    HalfOffsetIsOffset(p, trig);
  }

  lemma WidthPointsAreRounded(center: RVec, width: real, angle: real, trig: Trig)
    ensures DetermineWidthPoints(center, width, angle, trig) == RoundedSides(center, HalfOffset(width, angle, trig))
  {
  }

  /** The half offset of this generation is the offset of `point_to_coords`. */
  lemma HalfOffsetIsOffset(p: Point, trig: Trig)
    ensures HalfOffset(p.width, p.angle, trig) == PathPoint.Offset(p, trig)
  {
    HalfOffsetComponents(p.width, p.angle, trig);
  }

  lemma PointToCoordsRounded(p: Point, trig: Trig)
    ensures PathPoint.PointToCoords(p, trig) == RoundedSides(ToReal(p.center), PathPoint.Offset(p, trig))
  {
  }

  /** The half offset is `width / 2 * (-sin angle, cos angle)`. */
  lemma HalfOffsetComponents(width: real, angle: real, trig: Trig)
    ensures HalfOffset(width, angle, trig) == RVec(-trig.sin(angle) * (width / 2.0), trig.cos(angle) * (width / 2.0))
  {
  }

  /** With `cos^2 + sin^2 = 1` the exact side points are `width` apart. */
  lemma WidthPointsSpan(width: real, angle: real, trig: Trig)
    requires trig.cos(angle) * trig.cos(angle) + trig.sin(angle) * trig.sin(angle) == 1.0
    ensures var o := HalfOffset(width, angle, trig);
      (2.0 * o.x) * (2.0 * o.x) + (2.0 * o.y) * (2.0 * o.y) == width * width
  {
    Ops.RotationPreservesLength(angle, RVec(0.0, width), trig);
  }

  // ---- generate_path --------------------------------------------------

  /** The loop guard: wide enough, strictly inside the mask, and farther than
      `MIN_DISTANCE` from the end. */
  predicate KeepsWalking(center: RVec, width: real, endPosition: Pos, checker: CollisionChecker.CollisionChecker)
  {
    width >= MIN_WIDTH && checker.WithinBoundsReal(center)
    && NormExceeds(RVec(endPosition.x as real - center.x, endPosition.y as real - center.y), MIN_DISTANCE)
  }

  /** The unit vector from `center` towards the end position. */
  function EndPointVector(center: RVec, endPosition: Pos, trig: Trig): RVec
  {
    var a := trig.atan2(endPosition.y as real - center.y, endPosition.x as real - center.x);
    RVec(trig.cos(a), trig.sin(a))
  }

  /** One iteration of the walk: from `from` with width `widthBefore` and
      the breakthrough flag `breaking` to `to`, heading `angle`, with width
      `widthAfter` afterwards. */
  datatype WalkStep = WalkStep(from: RVec, widthBefore: real, breaking: bool, to: RVec, angle: real, widthAfter: real)

  /** Where the walk is after `steps`, starting at `center` with `width`. */
  function EndCenter(center: RVec, steps: seq<WalkStep>): RVec
  {
    if |steps| == 0 then center else steps[|steps| - 1].to
  }

  function EndWidth(width: real, steps: seq<WalkStep>): real
  {
    if |steps| == 0 then width else steps[|steps| - 1].widthAfter
  }

  /** Each step starts where the previous one ended, with the width that
      one left. */
  ghost predicate Chained(center: RVec, width: real, steps: seq<WalkStep>)
    decreases |steps|
  {
    |steps| == 0
    || (var prior := steps[..|steps| - 1];
        Chained(center, width, prior)
        && steps[|steps| - 1].from == EndCenter(center, prior)
        && steps[|steps| - 1].widthBefore == EndWidth(width, prior))
  }

  /** What one step satisfies: it starts at a point that passes the guard,
      breaks through whenever its start cell is in an object, heads straight
      for the end while breaking through, adds the row of side points for its
      new centre at the old width, and changes the width by exactly 0, +0.2
      or -0.2 — growing only where half the width is below the distance
      transform at the new cell. */
  ghost predicate StepOK(st: WalkStep, topRow: Pos, botRow: Pos, endPosition: Pos, sm: SurfaceMap,
                         params: CrackParameters, trig: Trig)
    requires sm.Wf()
  {
    var checker := CollisionChecker.Create(sm.mask);
    KeepsWalking(st.from, st.widthBefore, endPosition, checker)
    && (checker.InObject(RintPos(st.from)) ==> st.breaking)
    && (st.breaking ==> st.to == StepTo(st.from, Normalised(EndPointVector(st.from, endPosition, trig), trig), params))
    && (topRow, botRow) == DetermineWidthPoints(st.to, st.widthBefore, st.angle, trig)
    && (st.widthAfter == st.widthBefore || st.widthAfter == st.widthBefore + MAX_WIDTH_GROW
        || st.widthAfter == st.widthBefore - MAX_WIDTH_GROW)
    && (st.widthAfter > st.widthBefore ==>
          exists d :: sm.distanceTransform.Lookup(RintPos(st.to)) == Some(d) && st.widthBefore / 2.0 < d)
  }

  function StepTo(from: RVec, direction: RVec, params: CrackParameters): RVec
  {
    RVec(from.x + params.stepSize * direction.x, from.y + params.stepSize * direction.y)
  }

  /** How the walk ended: the guard failed, the draws ran out, or the
      distance transform was read at a cell outside the map. */
  datatype WalkEnd = Stopped | OutOfDraws | IndexError

  /** `generate_path`. The lines hold the row of the initial position
      followed by one row per completed step; `steps` (ghost) records the
      steps. */
  method GeneratePath(initial: Pos, endPosition: Pos, sm: SurfaceMap, angle: real, width: real,
                      params: CrackParameters, trig: Trig, draws: seq<real>)
    returns (top: seq<Pos>, bot: seq<Pos>, stop: WalkEnd, ghost steps: seq<WalkStep>)
    requires sm.Wf()
    requires forall k :: 0 <= k < |draws| ==> 0.0 <= draws[k] < 1.0
    ensures |top| == |bot| == |steps| + 1
    ensures (top[0], bot[0]) == DetermineWidthPoints(ToReal(initial), width, angle, trig)
    ensures Chained(ToReal(initial), width, steps)
    ensures forall i {:trigger steps[i]} :: 0 <= i < |steps| ==>
      StepOK(steps[i], top[i + 1], bot[i + 1], endPosition, sm, params, trig)
    ensures !KeepsWalking(ToReal(initial), width, endPosition, CollisionChecker.Create(sm.mask)) ==>
      |steps| == 0 && stop == Stopped
    ensures stop == Stopped ==>
      !KeepsWalking(EndCenter(ToReal(initial), steps), EndWidth(width, steps), endPosition, CollisionChecker.Create(sm.mask))
    ensures stop == IndexError ==>
      KeepsWalking(EndCenter(ToReal(initial), steps), EndWidth(width, steps), endPosition, CollisionChecker.Create(sm.mask))
  {
    var checker := CollisionChecker.Create(sm.mask);
    var center := ToReal(initial);
    var centerInt := initial;
    RintOfInt(initial.x);
    RintOfInt(initial.y);
    var w := width;
    var topPoint, botPoint := DetermineWidthPoints(center, w, angle, trig).0, DetermineWidthPoints(center, w, angle, trig).1;
    top, bot := [topPoint], [botPoint];
    steps := [];
    var breaking := checker.InObject(centerInt);
    var k := 0;
    stop := Stopped;
    while KeepsWalking(center, w, endPosition, checker)
      invariant 0 <= k <= |draws|
      invariant |top| == |bot| == |steps| + 1
      invariant (top[0], bot[0]) == DetermineWidthPoints(ToReal(initial), width, angle, trig)
      invariant Chained(ToReal(initial), width, steps)
      invariant forall i {:trigger steps[i]} :: 0 <= i < |steps| ==>
        StepOK(steps[i], top[i + 1], bot[i + 1], endPosition, sm, params, trig)
      invariant center == EndCenter(ToReal(initial), steps) && w == EndWidth(width, steps)
      invariant centerInt == RintPos(center)
      invariant checker.InObject(centerInt) ==> breaking
      invariant !KeepsWalking(ToReal(initial), width, endPosition, checker) ==> |steps| == 0
      decreases |draws| - k
    {
      if |draws| - k < 2 {
        stop := OutOfDraws;
        return;
      }
      CollisionChecker.WithinBoundsRealAgrees(checker, centerInt, center);
      var st, topRow, botRow, failed, next := WalkOnce(center, w, breaking, endPosition, sm, params, trig, draws, k);
      if failed {
        stop := IndexError;
        return;
      }
      WalkExtends(ToReal(initial), width, steps, top, bot, st, topRow, botRow, endPosition, sm, params, trig);
      steps := steps + [st];
      top, bot := top + [topRow], bot + [botRow];
      center, w := st.to, st.widthAfter;
      centerInt := RintPos(center);
      breaking := checker.InObject(centerInt);
      k := next;
    }
  }

  /** A step that starts where the walk ended and satisfies `StepOK`
      extends the walk, its row appended to the lines. */
  lemma WalkExtends(initial: RVec, width: real, steps: seq<WalkStep>, top: seq<Pos>, bot: seq<Pos>,
                    st: WalkStep, topRow: Pos, botRow: Pos, endPosition: Pos, sm: SurfaceMap,
                    params: CrackParameters, trig: Trig)
    requires sm.Wf() && |top| == |bot| == |steps| + 1 && Chained(initial, width, steps)
    requires forall i {:trigger steps[i]} :: 0 <= i < |steps| ==>
      StepOK(steps[i], top[i + 1], bot[i + 1], endPosition, sm, params, trig)
    requires st.from == EndCenter(initial, steps) && st.widthBefore == EndWidth(width, steps)
    requires StepOK(st, topRow, botRow, endPosition, sm, params, trig)
    ensures Chained(initial, width, steps + [st])
    ensures var steps', top', bot' := steps + [st], top + [topRow], bot + [botRow];
      forall i {:trigger steps'[i]} :: 0 <= i < |steps'| ==>
        StepOK(steps'[i], top'[i + 1], bot'[i + 1], endPosition, sm, params, trig)
  {
    var steps', top', bot' := steps + [st], top + [topRow], bot + [botRow];
    assert steps'[..|steps'| - 1] == steps;
    forall i | 0 <= i < |steps'|
      ensures StepOK(steps'[i], top'[i + 1], bot'[i + 1], endPosition, sm, params, trig)
    {
      if i < |steps| {
        assert steps'[i] == steps[i] && top'[i + 1] == top[i + 1] && bot'[i + 1] == bot[i + 1];
      }
    }
  }

  /** The body of the loop of `generate_path`, from `center` with width `w`
      and using the draws from index `k` on. `failed` reports the
      IndexError of reading the distance transform outside the map. */
  method WalkOnce(center: RVec, w: real, breaking: bool, endPosition: Pos, sm: SurfaceMap,
                  params: CrackParameters, trig: Trig, draws: seq<real>, k: nat)
    returns (st: WalkStep, topRow: Pos, botRow: Pos, failed: bool, next: nat)
    requires sm.Wf() && k + 2 <= |draws|
    requires KeepsWalking(center, w, endPosition, CollisionChecker.Create(sm.mask))
    requires CollisionChecker.Create(sm.mask).InObject(RintPos(center)) ==> breaking
    requires sm.mask.Contains(RintPos(center))
    ensures k < next <= k + 2
    ensures st.from == center && st.widthBefore == w
    ensures !failed ==> StepOK(st, topRow, botRow, endPosition, sm, params, trig)
  {
    var centerInt := RintPos(center);
    var gradientAngle := sm.gradientAngles.At(centerInt);
    var gradientVector := RVec(trig.cos(gradientAngle), trig.sin(gradientAngle));
    var endPointVector := EndPointVector(center, endPosition, trig);

    // a small chance to ignore the gradient
    var i := k;
    var stepBreaking := breaking;
    if !stepBreaking {
      if draws[i] < params.breakthroughChance {
        stepBreaking := true;
      }
      i := i + 1;
    }
    var factor := if !stepBreaking then params.gradientInfluence else 0.0;
    var direction := Normalised(RVec(factor * gradientVector.x + (1.0 - factor) * endPointVector.x,
                                     factor * gradientVector.y + (1.0 - factor) * endPointVector.y), trig);

    var newCenter := StepTo(center, direction, params);
    var newAngle := trig.atan2(direction.y, direction.x);
    var points := DetermineWidthPoints(newCenter, w, newAngle, trig);
    topRow, botRow := points.0, points.1;
    next := i + 1;
    st := WalkStep(center, w, stepBreaking, newCenter, newAngle, w);
    failed := false;
    match sm.distanceTransform.Lookup(RintPos(newCenter))
    case None =>
      failed := true;
    case Some(d) =>
      var increment := if w / 2.0 < d then MAX_WIDTH_GROW else -MAX_WIDTH_GROW;
      st := st.(widthAfter := Ops.IncrementByChance(w, increment, params.widthUpdateChance, draws[i]));
  }

  /** Over `n` chained steps the width drifts by at most `0.2 n` either way. */
  lemma {:induction false} WidthDrift(center: RVec, width: real, steps: seq<WalkStep>, top: seq<Pos>, bot: seq<Pos>,
                                      endPosition: Pos, sm: SurfaceMap, params: CrackParameters, trig: Trig)
    requires sm.Wf() && Chained(center, width, steps) && |top| == |bot| == |steps| + 1
    requires forall i {:trigger steps[i]} :: 0 <= i < |steps| ==>
      StepOK(steps[i], top[i + 1], bot[i + 1], endPosition, sm, params, trig)
    ensures width - MAX_WIDTH_GROW * |steps| as real <= EndWidth(width, steps) <= width + MAX_WIDTH_GROW * |steps| as real
    decreases |steps|
  {
    if |steps| > 0 {
      var n := |steps|;
      var prior := steps[..n - 1];
      assert StepOK(steps[n - 1], top[n], bot[n], endPosition, sm, params, trig);
      forall i {:trigger prior[i]} | 0 <= i < |prior|
        ensures StepOK(prior[i], top[..n][i + 1], bot[..n][i + 1], endPosition, sm, params, trig)
      {
        assert prior[i] == steps[i];
      }
      WidthDrift(center, width, prior, top[..n], bot[..n], endPosition, sm, params, trig);
    }
  }

  // ---- the tapering in CrackPathGenerator.__call__ -----------------------

  /** `max(MAX_WIDTH_GROW, MAX_WIDTH_GROW_FACTOR * width)`: never below 0.2,
      and 5% of the width for widths of at least 4. */
  function WidthGrowIncrements(width: real): (r: real)
    ensures r >= MAX_WIDTH_GROW && r >= MAX_WIDTH_GROW_FACTOR * width
    ensures r == MAX_WIDTH_GROW || r == MAX_WIDTH_GROW_FACTOR * width
  {
    Max(MAX_WIDTH_GROW, MAX_WIDTH_GROW_FACTOR * width)
  }

  /** The width a tapered row gets: its current side distance less the
      reduction, but never below `MIN_WIDTH`. */
  function TaperWidth(distance: real, reduction: real): (w: real)
    ensures w >= MIN_WIDTH && w >= distance - reduction
    ensures distance - reduction >= MIN_WIDTH ==> w == distance - reduction
  {
    Max(distance - reduction, MIN_WIDTH)
  }

  /** Which tip a taper loop works on. At the start tip row `idx` loses
      `(start_pointiness - idx)` increments, at the end tip `idx`
      increments, `idx` being the loop index as written (negative when the
      end taper wraps around). */
  datatype Tip = StartTip(startSteps: int) | EndTip

  function Reduction(tip: Tip, idx: int, increment: real): real
  {
    match tip
    case StartTip(s) => (s - idx) as real * increment
    case EndTip => idx as real * increment
  }

  /** The side vector `top - bot` of a row, its length, its angle and the
      row's centre. */
  function SideVector(t: Pos, b: Pos): RVec { RVec((t.x - b.x) as real, (t.y - b.y) as real) }

  function SideLength(t: Pos, b: Pos, trig: Trig): real
  {
    trig.sqrt(SideVector(t, b).x * SideVector(t, b).x + SideVector(t, b).y * SideVector(t, b).y)
  }

  function SideAngle(t: Pos, b: Pos, trig: Trig): real
  {
    trig.atan2(SideVector(t, b).y, SideVector(t, b).x)
  }

  function RowCenter(t: Pos, b: Pos): RVec { RVec((t.x + b.x) as real / 2.0, (t.y + b.y) as real / 2.0) }

  function Dot(u: RVec, v: RVec): real { u.x * v.x + u.y * v.y }

  /** `arctan2` and `sqrt` agree with `cos` and `sin` on a non-zero side
      vector: `(cos a, sin a) * r` is the vector. */
  ghost predicate PolarAgrees(t: Pos, b: Pos, trig: Trig)
  {
    var a := SideAngle(t, b, trig);
    t != b && SideLength(t, b, trig) > 0.0
    && trig.cos(a) * SideLength(t, b, trig) == SideVector(t, b).x
    && trig.sin(a) * SideLength(t, b, trig) == SideVector(t, b).y
  }

  /** A tapered row as the loop writes it: the side points recomputed with
      `determine_width_points` at the angle of the side vector itself. */
  function TaperRowAsWritten(t: Pos, b: Pos, reduction: real, trig: Trig): (Pos, Pos)
  {
    DetermineWidthPoints(RowCenter(t, b), TaperWidth(SideLength(t, b, trig), reduction), SideAngle(t, b, trig), trig)
  }

  /** `determine_width_points` puts the side points perpendicular to the
      angle it is given, while the side vector already is perpendicular to
      the heading: as written, the exact new side vector is perpendicular
      to the old one, so the tapered sides are turned by a quarter turn. */
  lemma AsWrittenTaperTurnsSides(t: Pos, b: Pos, reduction: real, trig: Trig)
    requires PolarAgrees(t, b, trig)
    ensures Dot(HalfOffset(TaperWidth(SideLength(t, b, trig), reduction), SideAngle(t, b, trig), trig), SideVector(t, b)) == 0.0
  {
    var a := SideAngle(t, b, trig);
    var w := TaperWidth(SideLength(t, b, trig), reduction);
    assert HalfOffset(w, a, trig) == RVec(-trig.sin(a) * (w / 2.0), trig.cos(a) * (w / 2.0));
    Perpendicular(trig.cos(a), trig.sin(a), SideLength(t, b, trig), SideVector(t, b).x, SideVector(t, b).y, w / 2.0);
  }

  /** `h (-sin, cos)` is perpendicular to `r (cos, sin)` for `r > 0`. */
  lemma Perpendicular(c: real, s: real, r: real, dx: real, dy: real, h: real)
    requires r > 0.0 && c * r == dx && s * r == dy
    ensures (-s * h) * dx + (c * h) * dy == 0.0
  {
    assert ((-s * h) * dx + (c * h) * dy) * r == h * (-(s * r) * dx + (c * r) * dy);
  }

  /** `h (cos, sin)` is parallel to, and for `h > 0` points the same way as,
      `r (cos, sin)` with `r > 0`. */
  lemma Parallel(c: real, s: real, r: real, dx: real, dy: real, h: real)
    requires r > 0.0 && c * r == dx && s * r == dy && h > 0.0 && (dx != 0.0 || dy != 0.0)
    ensures (c * h) * dy - (s * h) * dx == 0.0
    ensures (c * h) * dx + (s * h) * dy > 0.0
  {
    assert ((c * h) * dy - (s * h) * dx) * r == h * ((c * r) * dy - (s * r) * dx);
    assert ((c * h) * dx + (s * h) * dy) * r == h * ((c * r) * dx + (s * r) * dy);
    assert (c * r) * dx + (s * r) * dy == dx * dx + dy * dy;
    assert dx * dx + dy * dy > 0.0 by {
      if dx != 0.0 {
        assert dx * dx > 0.0;
      } else {
        assert dy * dy > 0.0;
      }
    }
  }

  /** A vertical row of width 2 on a horizontal crack is turned horizontal. */
  lemma AsWrittenTaperExample(trig: Trig)
    requires trig.sqrt(4.0) == 2.0
    requires trig.cos(trig.atan2(2.0, 0.0)) == 0.0 && trig.sin(trig.atan2(2.0, 0.0)) == 1.0
    ensures TaperRowAsWritten(Pos(0, 2), Pos(0, 0), 0.0, trig) == (Pos(-1, 1), Pos(1, 1))
  {
    var t, b := Pos(0, 2), Pos(0, 0);
    var a := trig.atan2(2.0, 0.0);
    assert TaperRowAsWritten(t, b, 0.0, trig) == DetermineWidthPoints(RVec(0.0, 1.0), 2.0, a, trig) by {
      assert SideVector(t, b) == RVec(0.0, 2.0);
      assert TaperWidth(SideLength(t, b, trig), 0.0) == 2.0;
      assert RowCenter(t, b) == RVec(0.0, 1.0);
    }
    HalfOffsetComponents(2.0, a, trig);
    HorizontalRow(a, trig);
  }

  lemma HorizontalRow(a: real, trig: Trig)
    requires HalfOffset(2.0, a, trig) == RVec(-1.0, 0.0)
    ensures DetermineWidthPoints(RVec(0.0, 1.0), 2.0, a, trig) == (Pos(-1, 1), Pos(1, 1))
  {
    WidthPointsAreRounded(RVec(0.0, 1.0), 2.0, a, trig);
    RintOfInt(-1);
    RintOfInt(1);
  }

  /** A tapered row as intended: the side points recomputed along the side
      vector, that is at the side vector's angle less a quarter turn. */
  function TaperRow(t: Pos, b: Pos, reduction: real, trig: Trig): (Pos, Pos)
  {
    DetermineWidthPoints(RowCenter(t, b), TaperWidth(SideLength(t, b, trig), reduction), SideAngle(t, b, trig) - PI / 2.0, trig)
  }

  /** The intended taper keeps the sides where they were: the exact new side
      vector points the same way as the old one. */
  lemma TaperRowKeepsSides(t: Pos, b: Pos, reduction: real, trig: Trig)
    requires PolarAgrees(t, b, trig)
    requires trig.cos(SideAngle(t, b, trig) - PI / 2.0) == trig.sin(SideAngle(t, b, trig))
    requires trig.sin(SideAngle(t, b, trig) - PI / 2.0) == -trig.cos(SideAngle(t, b, trig))
    ensures var o := HalfOffset(TaperWidth(SideLength(t, b, trig), reduction), SideAngle(t, b, trig) - PI / 2.0, trig);
      o.x * SideVector(t, b).y - o.y * SideVector(t, b).x == 0.0 && Dot(o, SideVector(t, b)) > 0.0
  {
    var a := SideAngle(t, b, trig);
    var w := TaperWidth(SideLength(t, b, trig), reduction);
    assert HalfOffset(w, a - PI / 2.0, trig) == RVec(trig.cos(a) * (w / 2.0), trig.sin(a) * (w / 2.0));
    Parallel(trig.cos(a), trig.sin(a), SideLength(t, b, trig), SideVector(t, b).x, SideVector(t, b).y, w / 2.0);
  }

  /** The intended taper leaves the same vertical row vertical. */
  lemma TaperRowExample(trig: Trig)
    requires trig.sqrt(4.0) == 2.0
    requires trig.cos(trig.atan2(2.0, 0.0) - PI / 2.0) == 1.0 && trig.sin(trig.atan2(2.0, 0.0) - PI / 2.0) == 0.0
    ensures TaperRow(Pos(0, 2), Pos(0, 0), 0.0, trig) == (Pos(0, 2), Pos(0, 0))
  {
    var t, b := Pos(0, 2), Pos(0, 0);
    assert SideVector(t, b) == RVec(0.0, 2.0);
    assert SideLength(t, b, trig) == 2.0;
    assert SideAngle(t, b, trig) == trig.atan2(2.0, 0.0);
    var w := TaperWidth(SideLength(t, b, trig), 0.0);
    assert w == 2.0;
    assert RowCenter(t, b) == RVec(0.0, 1.0);
    var a := SideAngle(t, b, trig) - PI / 2.0;
    assert HalfOffset(w, a, trig) == RVec(0.0, 1.0);
    VerticalRow(a, trig);
  }

  lemma VerticalRow(a: real, trig: Trig)
    requires HalfOffset(2.0, a, trig) == RVec(0.0, 1.0)
    ensures DetermineWidthPoints(RVec(0.0, 1.0), 2.0, a, trig) == (Pos(0, 2), Pos(0, 0))
  {
    WidthPointsAreRounded(RVec(0.0, 1.0), 2.0, a, trig);
    RintOfInt(0);
    RintOfInt(2);
  }

  /** How a taper loop recomputes one row from its top point, bottom point
      and reduction (`TaperRowAsWritten` in `Generate`). */
  type RowRewrite = (Pos, Pos, real) -> (Pos, Pos)

  function Rewrite(trig: Trig): RowRewrite
  {
    (t: Pos, b: Pos, reduction: real) => TaperRowAsWritten(t, b, reduction, trig)
  }

  /** The rows after a taper loop running `idx` up to `stop`, with whether it
      finished: a row index outside the lines raises IndexError, leaving
      the rows rewritten so far. */
  function TaperRows(top: seq<Pos>, bot: seq<Pos>, idx: int, stop: int, tip: Tip, increment: real, rewrite: RowRewrite)
    : (r: (seq<Pos>, seq<Pos>, bool))
    requires |top| == |bot|
    ensures |r.0| == |r.1| == |top|
    decreases stop - idx
  {
    if idx >= stop then (top, bot, true)
    else match PyIndex(idx, |top|)
      case None => (top, bot, false)
      case Some(j) =>
        var row := rewrite(top[j], bot[j], Reduction(tip, idx, increment));
        TaperRows(top[j := row.0], bot[j := row.1], idx + 1, stop, tip, increment, rewrite)
  }

  /** A loop from a non-negative index rewrites each row of `idx .. stop - 1`
      once, from its old value, and no other row; it fails exactly when it
      runs past the last row. */
  lemma {:induction false} TaperForward(top: seq<Pos>, bot: seq<Pos>, idx: int, stop: int, tip: Tip,
                                        increment: real, rewrite: RowRewrite)
    requires |top| == |bot| && 0 <= idx
    ensures var r := TaperRows(top, bot, idx, stop, tip, increment, rewrite);
      (r.2 <==> stop <= idx || stop <= |top|)
      && forall i :: 0 <= i < |top| ==>
           (r.0[i], r.1[i]) == (if idx <= i < stop then rewrite(top[i], bot[i], Reduction(tip, i, increment))
                                else (top[i], bot[i]))
    decreases stop - idx
  {
    if idx < stop && idx < |top| {
      var row := rewrite(top[idx], bot[idx], Reduction(tip, idx, increment));
      TaperForward(top[idx := row.0], bot[idx := row.1], idx + 1, stop, tip, increment, rewrite);
    }
  }

  /** The end taper with `end_pointiness` beyond twice the length starts
      below `-n`: it raises IndexError before changing anything. */
  lemma EndTaperOutOfRange(top: seq<Pos>, bot: seq<Pos>, endSteps: int, increment: real, rewrite: RowRewrite)
    requires |top| == |bot| && endSteps > 2 * |top|
    ensures TaperRows(top, bot, |top| - endSteps, |top|, EndTip, increment, rewrite) == (top, bot, false)
  {
  }

  /** With `n < end_pointiness <= 2n` the start index is negative and wraps
      around: the loop runs over the last rows and then over all of them,
      and finishes without error. */
  lemma {:induction false} EndTaperWraps(top: seq<Pos>, bot: seq<Pos>, idx: int, increment: real, rewrite: RowRewrite)
    requires |top| == |bot| && -(|top| as int) <= idx
    ensures TaperRows(top, bot, idx, |top|, EndTip, increment, rewrite).2
    decreases |top| - idx
  {
    if idx < 0 {
      var j := idx + |top|;
      var row := rewrite(top[j], bot[j], Reduction(EndTip, idx, increment));
      EndTaperWraps(top[j := row.0], bot[j := row.1], idx + 1, increment, rewrite);
    } else {
      TaperForward(top, bot, idx, |top|, EndTip, increment, rewrite);
    }
  }

  /** One taper `while` loop over the rows of the two line arrays, in place. */
  method TaperLoop(top: array<Pos>, bot: array<Pos>, from: int, stop: int, tip: Tip, increment: real, rewrite: RowRewrite)
    returns (ok: bool)
    requires top != bot && top.Length == bot.Length
    modifies top, bot
    ensures (top[..], bot[..], ok) == TaperRows(old(top[..]), old(bot[..]), from, stop, tip, increment, rewrite)
  {
    var idx := from;
    while idx < stop
      invariant TaperRows(top[..], bot[..], idx, stop, tip, increment, rewrite)
             == TaperRows(old(top[..]), old(bot[..]), from, stop, tip, increment, rewrite)
      decreases stop - idx
    {
      match PyIndex(idx, top.Length)
      case None =>
        return false;
      case Some(j) =>
        ghost var before := (top[..], bot[..]);
        RewriteRow(top, bot, j, Reduction(tip, idx, increment), rewrite);
        assert TaperRows(before.0, before.1, idx, stop, tip, increment, rewrite)
            == TaperRows(top[..], bot[..], idx + 1, stop, tip, increment, rewrite);
      idx := idx + 1;
    }
    ok := true;
  }

  /** One row rewritten in place. */
  method RewriteRow(top: array<Pos>, bot: array<Pos>, j: nat, reduction: real, rewrite: RowRewrite)
    requires top != bot && j < top.Length == bot.Length
    modifies top, bot
    ensures var row := rewrite(old(top[j]), old(bot[j]), reduction);
      top[..] == old(top[..])[j := row.0] && bot[..] == old(bot[..])[j := row.1]
  {
    var row := rewrite(top[j], bot[j], reduction);
    top[j] := row.0;
    bot[j] := row.1;
  }

  /** Both tapers on the lines of a walk: the first `start_pointiness` rows,
      then the last `end_pointiness`; None when either raises IndexError. */
  function Tapered(top: seq<Pos>, bot: seq<Pos>, cp: CrackParameters, increment: real, trig: Trig)
    : (r: Option<CrackPath>)
    requires |top| == |bot|
    ensures r.Some? ==> |r.value.topLine| == |r.value.botLine| == |top|
  {
    var s := TaperRows(top, bot, 0, cp.startPointiness, StartTip(cp.startPointiness), increment, Rewrite(trig));
    if !s.2 then None
    else
      var e := TaperRows(s.0, s.1, |top| - cp.endPointiness, |top|, EndTip, increment, Rewrite(trig));
      if !e.2 then None else Some(CrackPath(e.0, e.1))
  }

  /** The tapers keep the line length; with both pointiness values within
      the length they succeed, and the rows between the two tips are the
      rows of the walk. */
  lemma TaperedKeepsMiddle(top: seq<Pos>, bot: seq<Pos>, cp: CrackParameters, increment: real, trig: Trig)
    requires |top| == |bot|
    requires 0 <= cp.startPointiness <= |top| && 0 <= cp.endPointiness <= |top|
    ensures var r := Tapered(top, bot, cp, increment, trig);
      r.Some? && |r.value.topLine| == |r.value.botLine| == |top|
      && forall i :: cp.startPointiness <= i < |top| - cp.endPointiness ==>
           r.value.topLine[i] == top[i] && r.value.botLine[i] == bot[i]
  {
    var s := TaperRows(top, bot, 0, cp.startPointiness, StartTip(cp.startPointiness), increment, Rewrite(trig));
    TaperForward(top, bot, 0, cp.startPointiness, StartTip(cp.startPointiness), increment, Rewrite(trig));
    var e := TaperRows(s.0, s.1, |top| - cp.endPointiness, |top|, EndTip, increment, Rewrite(trig));
    TaperForward(s.0, s.1, |top| - cp.endPointiness, |top|, EndTip, increment, Rewrite(trig));
    assert s.2 && e.2;
    assert Tapered(top, bot, cp, increment, trig) == Some(CrackPath(e.0, e.1));
    forall i | cp.startPointiness <= i < |top| - cp.endPointiness
      ensures e.0[i] == top[i] && e.1[i] == bot[i]
    {
      assert (s.0[i], s.1[i]) == (top[i], bot[i]);
    }
  }

  /** A start taper longer than the lines raises IndexError. */
  lemma TaperedStartTooLong(top: seq<Pos>, bot: seq<Pos>, cp: CrackParameters, increment: real, trig: Trig)
    requires |top| == |bot| && cp.startPointiness > |top|
    ensures Tapered(top, bot, cp, increment, trig).None?
  {
    TaperForward(top, bot, 0, cp.startPointiness, StartTip(cp.startPointiness), increment, Rewrite(trig));
  }

  /** The two taper loops of `__call__`, run in place on array copies of
      the walk's lines. */
  method TaperLines(lineTop: seq<Pos>, lineBot: seq<Pos>, cp: CrackParameters, increment: real, trig: Trig)
    returns (r: Option<CrackPath>)
    requires |lineTop| == |lineBot|
    ensures r == Tapered(lineTop, lineBot, cp, increment, trig)
  {
    var n := |lineTop|;
    var top := new Pos[n](i requires 0 <= i < n => lineTop[i]);
    var bot := new Pos[n](i requires 0 <= i < n => lineBot[i]);
    assert top[..] == lineTop && bot[..] == lineBot;
    var ok := TaperLoop(top, bot, 0, cp.startPointiness, StartTip(cp.startPointiness), increment, Rewrite(trig));
    if !ok {
      return None;
    }
    ok := TaperLoop(top, bot, n - cp.endPointiness, n, EndTip, increment, Rewrite(trig));
    if !ok {
      return None;
    }
    r := Some(CrackPath(top[..], bot[..]));
  }

  /** `CrackPathGenerator.__call__` after the point chooser: the walk from
      the chosen start, end, width and angle, then both tapers. None stands
      for an IndexError in the walk or in a taper. */
  method Generate(start: Pos, endPosition: Pos, width: real, angle: real, cp: CrackParameters,
                  sm: SurfaceMap, trig: Trig, draws: seq<real>)
    returns (r: Option<CrackPath>, ghost walkTop: seq<Pos>, ghost walkBot: seq<Pos>, ghost stop: WalkEnd,
             ghost steps: seq<WalkStep>)
    requires sm.Wf()
    requires forall k :: 0 <= k < |draws| ==> 0.0 <= draws[k] < 1.0
    ensures |walkTop| == |walkBot| == |steps| + 1
    ensures (walkTop[0], walkBot[0]) == DetermineWidthPoints(ToReal(start), width, angle, trig)
    ensures Chained(ToReal(start), width, steps)
    ensures forall i {:trigger steps[i]} :: 0 <= i < |steps| ==>
      StepOK(steps[i], walkTop[i + 1], walkBot[i + 1], endPosition, sm, cp, trig)
    ensures !KeepsWalking(ToReal(start), width, endPosition, CollisionChecker.Create(sm.mask)) ==>
      |steps| == 0 && stop == Stopped
    ensures stop == Stopped ==>
      !KeepsWalking(EndCenter(ToReal(start), steps), EndWidth(width, steps), endPosition, CollisionChecker.Create(sm.mask))
    ensures stop == IndexError ==>
      KeepsWalking(EndCenter(ToReal(start), steps), EndWidth(width, steps), endPosition, CollisionChecker.Create(sm.mask))
    ensures r == if stop == IndexError then None
                 else Tapered(walkTop, walkBot, cp, WidthGrowIncrements(width), trig)
    ensures r.Some? ==> |r.value.topLine| == |r.value.botLine| == |walkTop|
  {
    var lineTop, lineBot, walkStop;
    lineTop, lineBot, walkStop, steps := GeneratePath(start, endPosition, sm, angle, width, cp, trig, draws);
    walkTop, walkBot, stop := lineTop, lineBot, walkStop;
    if walkStop == IndexError {
      return None, walkTop, walkBot, stop, steps;
    }
    r := TaperLines(lineTop, lineBot, cp, WidthGrowIncrements(width), trig);
  }
}
