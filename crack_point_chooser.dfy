/** `crack_generation/operations/crack_point_chooser.py`: the start point,
    end point, initial width and initial angle of a crack chosen between two
    points.

    Draws are inputs: `gw` and `gh` are the two `np.random.normal` grid
    sizes and `startDraws` the successive `randint` start positions. `fuel`
    bounds each run of `move_to_mortar`, which in the source loops until it
    leaves the bricks. */
module CrackPointChooser {
  import opened Numeric
  import opened Geometry
  import opened CrackModel
  import CollisionChecker
  import Ops = OperationsPathFunctions
  import CrackTrajectoryGenerator

  /** The direction `move_to_mortar` steps in at `p`: the first column of
      the rotation by the inverse gradient angle, that is `(cos a, sin a)`. */
  function Heading(p: Pos, s: SurfaceMap, trig: Trig): RVec
    requires s.Wf() && s.mask.Contains(p)
  {
    Ops.Apply(Ops.GetRotationMatrix(s.inverseGradientAngles.At(p), trig), RVec(1.0, 0.0))
  }

  /** One step as written: the heading cast with `astype(int)`. */
  function StepAsWritten(p: Pos, s: SurfaceMap, trig: Trig): (r: Pos)
    requires s.Wf() && s.mask.Contains(p)
    ensures r == p <==> -1.0 < Heading(p, s, trig).x < 1.0 && -1.0 < Heading(p, s, trig).y < 1.0
  {
    Pos(p.x + Trunc(Heading(p, s, trig).x), p.y + Trunc(Heading(p, s, trig).y))
  }

  /** When neither component of the heading is a whole 1 or -1 (any angle
      that is not a multiple of a right angle), both truncate to 0 and the
      step leaves the position where it is. */
  lemma StepAsWrittenStandsStill(p: Pos, s: SurfaceMap, trig: Trig)
    requires s.Wf() && s.mask.Contains(p)
    requires -1.0 < trig.cos(s.inverseGradientAngles.At(p)) < 1.0
    requires -1.0 < trig.sin(s.inverseGradientAngles.At(p)) < 1.0
    ensures StepAsWritten(p, s, trig) == p
  {
  }

  /** So a position on a brick at such an angle never reaches the mortar,
      whatever the number of steps: the source's loop does not end. */
  lemma {:induction false} MoveToMortarAsWrittenStalls(p: Pos, s: SurfaceMap, trig: Trig, fuel: nat)
    requires s.Wf() && CollisionChecker.Create(s.mask).InObject(p)
    requires -1.0 < trig.cos(s.inverseGradientAngles.At(p)) < 1.0
    requires -1.0 < trig.sin(s.inverseGradientAngles.At(p)) < 1.0
    ensures MovedToMortar(p, s, trig, fuel) == None
    decreases fuel
  {
    if fuel > 0 {
      StepAsWrittenStandsStill(p, s, trig);
      MoveToMortarAsWrittenStalls(p, s, trig, fuel - 1);
    }
  }

  /** One step with the heading rounded to the nearest cell, as the point
      decollider rounds its own step. */
  function Step(p: Pos, s: SurfaceMap, trig: Trig): (r: Pos)
    requires s.Wf() && s.mask.Contains(p)
    ensures r == p <==> -0.5 <= Heading(p, s, trig).x <= 0.5 && -0.5 <= Heading(p, s, trig).y <= 0.5
  {
    Pos(p.x + Rint(Heading(p, s, trig).x), p.y + Rint(Heading(p, s, trig).y))
  }

  /** The rounded step always moves: a unit heading has a component of
      magnitude above one half, which rounds away from 0. */
  lemma StepMoves(p: Pos, s: SurfaceMap, trig: Trig)
    requires s.Wf() && s.mask.Contains(p)
    requires trig.cos(s.inverseGradientAngles.At(p)) * trig.cos(s.inverseGradientAngles.At(p))
           + trig.sin(s.inverseGradientAngles.At(p)) * trig.sin(s.inverseGradientAngles.At(p)) == 1.0
    ensures Step(p, s, trig) != p
  {
    var c := trig.cos(s.inverseGradientAngles.At(p));
    var n := trig.sin(s.inverseGradientAngles.At(p));
    assert Heading(p, s, trig) == RVec(c, n);
    if Rint(c) == 0 && Rint(n) == 0 {
      SquareOfSmall(c);
      SquareOfSmall(n);
      assert false;
    }
  }

  lemma SquareOfSmall(x: real)
    requires -0.5 <= x <= 0.5
    ensures x * x <= 0.25
  {
    if x >= 0.0 {
      assert x * x <= 0.5 * x;
    } else {
      assert x * x <= -0.5 * x;
    }
  }

  /** `move_to_mortar` as written (truncated step), for at most `fuel` steps. A
      result is never on a brick, and a position off the bricks is returned
      as it is. */
  function MovedToMortar(p: Pos, s: SurfaceMap, trig: Trig, fuel: nat): (r: Option<Pos>)
    requires s.Wf()
    ensures r.Some? ==> !CollisionChecker.Create(s.mask).InObject(r.value)
    ensures !CollisionChecker.Create(s.mask).InObject(p) ==> r == Some(p)
    decreases fuel
  {
    var checker := CollisionChecker.Create(s.mask);
    if !(checker.WithinBounds(p) && checker.InObject(p)) then Some(p)
    else if fuel == 0 then None
    else MovedToMortar(StepAsWritten(p, s, trig), s, trig, fuel - 1)
  }

  /** `move_to_mortar`: steps a copy of `position` along the inverse
      gradient while it is on a brick. */
  method MoveToMortar(position: Pos, s: SurfaceMap, trig: Trig, fuel: nat) returns (r: Option<Pos>)
    requires s.Wf()
    ensures r == MovedToMortar(position, s, trig, fuel)
  {
    var checker := CollisionChecker.Create(s.mask);
    var newPosition := position;
    var steps := 0;
    while checker.WithinBounds(newPosition) && checker.InObject(newPosition)
      invariant 0 <= steps <= fuel
      invariant MovedToMortar(position, s, trig, fuel) == MovedToMortar(newPosition, s, trig, fuel - steps)
      decreases fuel - steps
    {
      if steps == fuel {
        return None;
      }
      newPosition := StepAsWritten(newPosition, s, trig);
      steps := steps + 1;
    }
    r := Some(newPosition);
  }

  /** The position the retry loop of `determine_start_point` ends on: the
      first draw that, moved to the mortar, is within bounds. None when the
      draws run out or a move runs out of fuel. */
  function FirstStart(draws: seq<Pos>, s: SurfaceMap, trig: Trig, fuel: nat): (r: Option<Pos>)
    requires s.Wf()
    ensures r.Some? ==> CrackTrajectoryGenerator.Accepted(r.value, s)
    decreases |draws|
  {
    if |draws| == 0 then None
    else
      var m := MovedToMortar(draws[0], s, trig, fuel);
      if m.None? then None
      else if CrackTrajectoryGenerator.Accepted(m.value, s) then m
      else FirstStart(draws[1..], s, trig, fuel)
  }

  /** The start found is some draw moved to the mortar, and every draw
      before it was moved to a position out of bounds. */
  lemma {:induction false} FirstStartIsFirstAccepted(draws: seq<Pos>, s: SurfaceMap, trig: Trig, fuel: nat)
    requires s.Wf() && FirstStart(draws, s, trig, fuel).Some?
    ensures exists k ::
      0 <= k < |draws| && MovedToMortar(draws[k], s, trig, fuel) == FirstStart(draws, s, trig, fuel)
      && forall j :: 0 <= j < k ==> Rejected(draws[j], s, trig, fuel)
    decreases |draws|
  {
    var m := MovedToMortar(draws[0], s, trig, fuel);
    if CrackTrajectoryGenerator.Accepted(m.value, s) {
      assert MovedToMortar(draws[0], s, trig, fuel) == FirstStart(draws, s, trig, fuel);
    } else {
      FirstStartIsFirstAccepted(draws[1..], s, trig, fuel);
      var k :| 0 <= k < |draws[1..]| && MovedToMortar(draws[1..][k], s, trig, fuel) == FirstStart(draws[1..], s, trig, fuel)
        && forall j :: 0 <= j < k ==> Rejected(draws[1..][j], s, trig, fuel);
      assert MovedToMortar(draws[k + 1], s, trig, fuel) == FirstStart(draws, s, trig, fuel);
      forall j | 0 <= j < k + 1
        ensures Rejected(draws[j], s, trig, fuel)
      {
        if j > 0 {
          assert draws[j] == draws[1..][j - 1];
        }
      }
    }
  }

  /** A draw the loop retries after: moved in time but out of bounds. */
  predicate Rejected(p: Pos, s: SurfaceMap, trig: Trig, fuel: nat)
    requires s.Wf()
  {
    MovedToMortar(p, s, trig, fuel).Some? && !CrackTrajectoryGenerator.Accepted(MovedToMortar(p, s, trig, fuel).value, s)
  }

  /** The draws of `determine_start_point`: `randint` truncates its float
      bounds, so columns lie in `[trunc(gw), trunc(cols - gw))` and rows in
      `[trunc(gh), trunc(rows - gh))`. */
  predicate InSearchRange(p: Pos, gw: real, gh: real, s: SurfaceMap)
  {
    Trunc(gw) <= p.x < Trunc(s.surface.cols as real - gw) && Trunc(gh) <= p.y < Trunc(s.surface.rows as real - gh)
  }

  /** `determine_start_point`: starting from (-1, -1), which is out of
      bounds, draw a position, move it to the mortar, and repeat until the
      result is within bounds and off the bricks. */
  method DetermineStartPoint(gw: real, gh: real, s: SurfaceMap, draws: seq<Pos>, trig: Trig, fuel: nat)
    returns (r: Option<Pos>)
    requires s.Wf()
    requires forall k :: 0 <= k < |draws| ==> InSearchRange(draws[k], gw, gh, s)
    ensures r == FirstStart(draws, s, trig, fuel)
  {
    var checker := CollisionChecker.Create(s.mask);
    var position := Pos(-1, -1);
    var i := 0;
    while !checker.WithinBounds(position) || checker.InObject(position)
      invariant 0 <= i <= |draws|
      invariant !CrackTrajectoryGenerator.Accepted(position, s) ==>
        FirstStart(draws, s, trig, fuel) == FirstStart(draws[i..], s, trig, fuel)
      invariant CrackTrajectoryGenerator.Accepted(position, s) ==> FirstStart(draws, s, trig, fuel) == Some(position)
      decreases |draws| - i
    {
      if i == |draws| {
        return None;
      }
      var moved := MoveToMortar(draws[i], s, trig, fuel);
      if moved.None? {
        return None;
      }
      position := moved.value;
      assert draws[i..][1..] == draws[i + 1..];
      i := i + 1;
    }
    r := Some(position);
  }

  /** `np.rint(start + (gw, gh))`: the end position before it is moved to
      the mortar. */
  function RawEnd(start: Pos, gw: real, gh: real): Pos
  {
    Pos(Rint(start.x as real + gw), Rint(start.y as real + gh))
  }

  /** `astype(int)(R(angle) (width / 2, 0))`: half the width along the
      angle, truncated to whole cells. */
  function ShiftOffset(angle: real, width: real, trig: Trig): Pos
  {
    RotatedShift(angle, width / 2.0, trig)
  }

  /** `(h, 0)` rotated by `angle`, truncated to whole cells. */
  function RotatedShift(angle: real, h: real, trig: Trig): Pos
  {
    var v := Ops.Apply(Ops.GetRotationMatrix(angle, trig), RVec(h, 0.0));
    Pos(Trunc(v.x), Trunc(v.y))
  }

  function ShiftedStart(start: Pos, angle: real, width: real, trig: Trig): Pos
  {
    Pos(start.x + ShiftOffset(angle, width, trig).x, start.y + ShiftOffset(angle, width, trig).y)
  }

  /** The shift moves each coordinate by at most half the width. */
  lemma ShiftWithinHalfWidth(angle: real, width: real, trig: Trig)
    requires width >= 0.0
    requires -1.0 <= trig.cos(angle) <= 1.0 && -1.0 <= trig.sin(angle) <= 1.0
    ensures AbsInt(ShiftOffset(angle, width, trig).x) as real <= width / 2.0
    ensures AbsInt(ShiftOffset(angle, width, trig).y) as real <= width / 2.0
  {
    RotatedShiftWithin(angle, width / 2.0, trig);
  }

  lemma RotatedShiftWithin(angle: real, h: real, trig: Trig)
    requires h >= 0.0
    requires -1.0 <= trig.cos(angle) <= 1.0 && -1.0 <= trig.sin(angle) <= 1.0
    ensures AbsInt(RotatedShift(angle, h, trig).x) as real <= h
    ensures AbsInt(RotatedShift(angle, h, trig).y) as real <= h
  {
    var v := Ops.Apply(Ops.GetRotationMatrix(angle, trig), RVec(h, 0.0));
    RotatedHorizontal(angle, h, trig);
    TruncOfScaled(v.x, trig.cos(angle), h);
    TruncOfScaled(v.y, trig.sin(angle), h);
  }

  /** A component `x` equal to `c * h` for a unit factor `c` truncates to
      within `h` of zero. */
  lemma TruncOfScaled(x: real, c: real, h: real)
    requires x == c * h && -1.0 <= c <= 1.0 && h >= 0.0
    ensures AbsInt(Trunc(x)) as real <= h
  {
    ScaledWithin(c, h);
  }

  lemma RotatedHorizontal(angle: real, h: real, trig: Trig)
    ensures Ops.Apply(Ops.GetRotationMatrix(angle, trig), RVec(h, 0.0)) == RVec(trig.cos(angle) * h, trig.sin(angle) * h)
  {
  }

  /** A truncated product of `h` and a unit factor lies within `h` of
      zero. */
  lemma ScaledWithin(c: real, h: real)
    requires -1.0 <= c <= 1.0 && h >= 0.0
    ensures AbsInt(Trunc(c * h)) as real <= h
  {
    ScaledUnit(h, c);
    TruncWithin(c * h, h);
  }

  lemma TruncWithin(x: real, h: real)
    requires -h <= x <= h
    ensures AbsInt(Trunc(x)) as real <= h
  {
  }

  /** `CrackPointChooser.__call__`. `ok` is false when the start search or
      the move of the end to the mortar fails. Otherwise the start found is
      `FirstStart` of the draws, the end is the point `(gw, gh)` away from
      it moved to the mortar (so off the bricks), the angle is the mean of
      the gradient angle at the start and the angle towards the end, the
      width follows from the angle, and the returned start is shifted by
      half the width along the angle exactly when the width exceeds the
      distance transform at the start found. */
  method Choose(crack: CrackParameters, surface: SurfaceParameters, gw: real, gh: real, startDraws: seq<Pos>,
                trig: Trig, fuel: nat)
    returns (ok: bool, start: Pos, end: Pos, width: real, angle: real)
    requires surface.surfaceMap.Wf()
    requires forall k :: 0 <= k < |startDraws| ==> InSearchRange(startDraws[k], gw, gh, surface.surfaceMap)
    ensures ok ==> FirstStart(startDraws, surface.surfaceMap, trig, fuel).Some?
    ensures FirstStart(startDraws, surface.surfaceMap, trig, fuel).Some? ==>
      (ok <==> MovedToMortar(RawEnd(FirstStart(startDraws, surface.surfaceMap, trig, fuel).value, gw, gh),
                             surface.surfaceMap, trig, fuel).Some?)
    ensures ok ==> Some(end) == MovedToMortar(RawEnd(FirstStart(startDraws, surface.surfaceMap, trig, fuel).value, gw, gh),
                                              surface.surfaceMap, trig, fuel)
    ensures ok ==> !CollisionChecker.Create(surface.surfaceMap.mask).InObject(end)
    ensures ok ==> surface.surfaceMap.gradientAngles.Contains(FirstStart(startDraws, surface.surfaceMap, trig, fuel).value)
    ensures ok ==> angle == CrackTrajectoryGenerator.StartAngle(surface.surfaceMap, trig,
                                                                FirstStart(startDraws, surface.surfaceMap, trig, fuel).value, end)
    ensures ok ==> width == CrackTrajectoryGenerator.DetermineWidth(angle, surface, crack)
    ensures ok ==> surface.surfaceMap.distanceTransform.Contains(FirstStart(startDraws, surface.surfaceMap, trig, fuel).value)
    ensures ok ==> start == if width > surface.surfaceMap.distanceTransform.At(FirstStart(startDraws, surface.surfaceMap, trig, fuel).value)
                           then ShiftedStart(FirstStart(startDraws, surface.surfaceMap, trig, fuel).value, angle, width, trig)
                           else FirstStart(startDraws, surface.surfaceMap, trig, fuel).value
  {
    var found := DetermineStartPoint(gw, gh, surface.surfaceMap, startDraws, trig, fuel);
    if found.None? {
      return false, Pos(0, 0), Pos(0, 0), 0.0, 0.0;
    }
    var moved := MoveToMortar(RawEnd(found.value, gw, gh), surface.surfaceMap, trig, fuel);
    if moved.None? {
      return false, Pos(0, 0), Pos(0, 0), 0.0, 0.0;
    }
    ok, start, end := true, found.value, moved.value;
    angle := CrackTrajectoryGenerator.StartAngle(surface.surfaceMap, trig, start, end);
    width := CrackTrajectoryGenerator.DetermineWidth(angle, surface, crack);
    if width > surface.surfaceMap.distanceTransform.At(start) {
      start := ShiftedStart(start, angle, width, trig);
    }
  }
}
