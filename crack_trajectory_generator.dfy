/** `crack_generation/crack_trajectory_generator.py`: the start, the pivot
    points, the initial width and the initial angle of a crack in the
    `operations` generation.

    Draws are inputs: `dirDraw` in [0, 1) picks the direction, `startDraws`
    are the successive `randint` positions of the start search, and
    `numPivotPoints` is the `randint(1, MAX_PIVOT_POINTS)` draw. The source
    calls the pivot point generator with five arguments while it takes four,
    so the model takes it as the parameter `nextPivot`, indexed by the
    number of the call since each call draws afresh. `fuel` bounds each
    run of the point decollider. */
module CrackTrajectoryGenerator {
  import opened Numeric
  import opened Geometry
  import opened CrackModel
  import CollisionChecker
  import PointDecollider
  import Trajectory

  const DIRECTION_LEFT_TO_RIGHT: int := 1
  const DIRECTION_RIGHT_TO_LEFT: int := -1
  const MAX_PIVOT_POINTS: int := 6
  const ROW_SEARCH_SPACE_PERCENTILE: real := 0.2
  const COLUMN_SEARCH_SPACE_PERCENTILE: real := 0.2

  /** The angles for which the width is bounded by the mortar width rather
      than the mortar height. */
  predicate Steep(angle: real)
  {
    (0.25 * PI < angle < 0.75 * PI) || (-0.75 * PI < angle < -0.25 * PI)
  }

  /** The widest crack the mortar takes at this angle, in pixels. */
  function MaxWidth(angle: real, surface: SurfaceParameters): real
  {
    (if Steep(angle) then surface.mortarWidth else surface.mortarHeight) * surface.surfaceMap.gridFactor
  }

  /** `determine_width`: one less than the smaller of the mortar bound and
      the requested width. */
  function DetermineWidth(angle: real, surface: SurfaceParameters, crack: CrackParameters): (w: real)
    ensures w + 1.0 <= crack.width && w + 1.0 <= MaxWidth(angle, surface)
    ensures w + 1.0 == crack.width || w + 1.0 == MaxWidth(angle, surface)
  {
    Min(MaxWidth(angle, surface), crack.width) - 1.0
  }

  /** The rectangle the start draws come from: columns in
      `[colStart, colEnd)`, rows in `[0, rowEnd)`. */
  datatype SearchBox = SearchBox(colStart: real, colEnd: real, rowEnd: real)

  /** The search box as `determine_start_point` writes it: the end column
      of the left-to-right box is a fraction of the number of rows. */
  function SearchBoxAsWritten(direction: int, rows: nat, cols: nat): SearchBox
  {
    SearchBox(
      if direction == DIRECTION_LEFT_TO_RIGHT then 0.0 else (1.0 - COLUMN_SEARCH_SPACE_PERCENTILE) * cols as real,
      if direction == DIRECTION_LEFT_TO_RIGHT then COLUMN_SEARCH_SPACE_PERCENTILE * rows as real else cols as real,
      rows as real * ROW_SEARCH_SPACE_PERCENTILE)
  }

  /** The search box with the fraction of the number of columns on both
      sides: a band of 20% of the columns at the side the crack starts
      from, over the top 20% of the rows. */
  function StartSearchBox(direction: int, rows: nat, cols: nat): SearchBox
  {
    SearchBox(
      if direction == DIRECTION_LEFT_TO_RIGHT then 0.0 else (1.0 - COLUMN_SEARCH_SPACE_PERCENTILE) * cols as real,
      if direction == DIRECTION_LEFT_TO_RIGHT then COLUMN_SEARCH_SPACE_PERCENTILE * cols as real else cols as real,
      rows as real * ROW_SEARCH_SPACE_PERCENTILE)
  }

  predicate Mirrored(left: SearchBox, right: SearchBox, cols: nat)
  {
    left.colStart == cols as real - right.colEnd && left.colEnd == cols as real - right.colStart
    && left.rowEnd == right.rowEnd
  }

  /** The two start boxes are mirror images of each other, each a band of
      `0.2 * cols` columns. */
  lemma StartSearchBoxesMirror(rows: nat, cols: nat)
    ensures Mirrored(StartSearchBox(DIRECTION_LEFT_TO_RIGHT, rows, cols),
                     StartSearchBox(DIRECTION_RIGHT_TO_LEFT, rows, cols), cols)
    ensures StartSearchBox(DIRECTION_LEFT_TO_RIGHT, rows, cols).colEnd
          - StartSearchBox(DIRECTION_LEFT_TO_RIGHT, rows, cols).colStart == 0.2 * cols as real
    ensures StartSearchBox(DIRECTION_RIGHT_TO_LEFT, rows, cols).colEnd
          - StartSearchBox(DIRECTION_RIGHT_TO_LEFT, rows, cols).colStart == 0.2 * cols as real
  {
  }

  /** As written, the two boxes mirror each other only on a square map:
      on 100 rows by 1000 columns the left box spans columns [0, 20) and
      the right one [800, 1000). */
  lemma SearchBoxAsWrittenMirrorsOnlySquares(rows: nat, cols: nat)
    ensures rows == cols <==> Mirrored(SearchBoxAsWritten(DIRECTION_LEFT_TO_RIGHT, rows, cols),
                                       SearchBoxAsWritten(DIRECTION_RIGHT_TO_LEFT, rows, cols), cols)
    ensures SearchBoxAsWritten(DIRECTION_LEFT_TO_RIGHT, 100, 1000) == SearchBox(0.0, 20.0, 20.0)
    ensures SearchBoxAsWritten(DIRECTION_RIGHT_TO_LEFT, 100, 1000) == SearchBox(800.0, 1000.0, 20.0)
  {
  }

  /** A position `np.random.randint` can draw from the box. `randint`
      casts its float bounds to integers by truncation, so the columns lie
      in `[trunc(colStart), trunc(colEnd))` and the rows in
      `[0, trunc(rowEnd))`. */
  predicate InBox(p: Pos, b: SearchBox)
  {
    Trunc(b.colStart) <= p.x < Trunc(b.colEnd) && 0 <= p.y < Trunc(b.rowEnd)
  }

  /** A position the start search accepts: within bounds and off the bricks. */
  predicate Accepted(p: Pos, s: SurfaceMap)
    requires s.Wf()
  {
    CollisionChecker.Create(s.mask).WithinBounds(p) && !CollisionChecker.Create(s.mask).InObject(p)
  }

  /** The decollided draw that the retry loop of `determine_start_point`
      ends on: the first draw whose decollision is accepted. None when the
      draws run out or a decollision runs out of fuel (where the source
      would loop forever). */
  function FirstStart(draws: seq<Pos>, s: SurfaceMap, trig: Trig, fuel: nat): (r: Option<Pos>)
    requires s.Wf()
    ensures r.Some? ==> Accepted(r.value, s)
    decreases |draws|
  {
    if |draws| == 0 then None
    else
      var d := PointDecollider.Decollided(draws[0], s, trig, fuel);
      if d.None? then None
      else if Accepted(d.value, s) then d
      else FirstStart(draws[1..], s, trig, fuel)
  }

  /** The start found is the decollision of some draw, and every draw
      before that one was decollided to a position out of bounds. */
  lemma {:induction false} FirstStartIsFirstAccepted(draws: seq<Pos>, s: SurfaceMap, trig: Trig, fuel: nat)
    requires s.Wf() && FirstStart(draws, s, trig, fuel).Some?
    ensures exists k ::
      0 <= k < |draws| && PointDecollider.Decollided(draws[k], s, trig, fuel) == FirstStart(draws, s, trig, fuel)
      && forall j :: 0 <= j < k ==> Rejected(draws[j], s, trig, fuel)
    decreases |draws|
  {
    var d := PointDecollider.Decollided(draws[0], s, trig, fuel);
    if Accepted(d.value, s) {
      assert PointDecollider.Decollided(draws[0], s, trig, fuel) == FirstStart(draws, s, trig, fuel);
    } else {
      FirstStartIsFirstAccepted(draws[1..], s, trig, fuel);
      var k :| 0 <= k < |draws[1..]| && PointDecollider.Decollided(draws[1..][k], s, trig, fuel) == FirstStart(draws[1..], s, trig, fuel)
        && forall j :: 0 <= j < k ==> Rejected(draws[1..][j], s, trig, fuel);
      assert PointDecollider.Decollided(draws[k + 1], s, trig, fuel) == FirstStart(draws, s, trig, fuel);
      forall j | 0 <= j < k + 1
        ensures Rejected(draws[j], s, trig, fuel)
      {
        if j > 0 {
          assert draws[j] == draws[1..][j - 1];
        }
      }
    }
  }

  /** A draw the loop retries after: decollided in time but out of bounds. */
  predicate Rejected(p: Pos, s: SurfaceMap, trig: Trig, fuel: nat)
    requires s.Wf()
  {
    PointDecollider.Decollided(p, s, trig, fuel).Some? && !Accepted(PointDecollider.Decollided(p, s, trig, fuel).value, s)
  }

  /** A decollided position is off the bricks, so the loop accepts it
      exactly when it is within bounds. */
  lemma AcceptedIffWithinBounds(p: Pos, s: SurfaceMap, trig: Trig, fuel: nat)
    requires s.Wf() && PointDecollider.Decollided(p, s, trig, fuel).Some?
    ensures Accepted(PointDecollider.Decollided(p, s, trig, fuel).value, s)
        <==> CollisionChecker.Create(s.mask).WithinBounds(PointDecollider.Decollided(p, s, trig, fuel).value)
  {
  }

  /** `determine_start_point`: starting from (-1, -1), which is out of
      bounds, draw a position, decollide it in place, and repeat until the
      result is within bounds and off the bricks. */
  method DetermineStartPoint(s: SurfaceMap, direction: int, draws: seq<Pos>, trig: Trig, fuel: nat)
    returns (r: Option<Pos>)
    requires s.Wf()
    requires forall k :: 0 <= k < |draws| ==> InBox(draws[k], SearchBoxAsWritten(direction, s.surface.rows, s.surface.cols))
    ensures r == FirstStart(draws, s, trig, fuel)
  {
    var checker := CollisionChecker.Create(s.mask);
    var position := Pos(-1, -1);
    var i := 0;
    while !checker.WithinBounds(position) || checker.InObject(position)
      invariant 0 <= i <= |draws|
      invariant !Accepted(position, s) ==> FirstStart(draws, s, trig, fuel) == FirstStart(draws[i..], s, trig, fuel)
      invariant Accepted(position, s) ==> FirstStart(draws, s, trig, fuel) == Some(position)
      decreases |draws| - i
    {
      if i == |draws| {
        return None;
      }
      var cell := new int[2];
      cell[0], cell[1] := draws[i].x, draws[i].y;
      var done := PointDecollider.Decollide(cell, s, trig, fuel);
      if !done {
        return None;
      }
      position := Pos(cell[0], cell[1]);
      assert draws[i..][1..] == draws[i + 1..];
      i := i + 1;
    }
    r := Some(position);
  }

  /** The mean of the gradient angle at `p0` and the angle from `p0` to `p1`. */
  function StartAngle(s: SurfaceMap, trig: Trig, p0: Pos, p1: Pos): real
    requires s.Wf() && s.gradientAngles.Contains(p0)
  {
    (s.gradientAngles.At(p0) + trig.atan2((p1.y - p0.y) as real, (p1.x - p0.x) as real)) / 2.0
  }

  /** `CrackTrajectoryGenerator.__call__`. `ok` is false when the start
      search fails. Otherwise the pivots begin with the start; every later
      pivot is the generator's image of the one before and within bounds;
      a list shorter than `numPivotPoints + 1` stops at the first pivot
      that would have left the bounds. The angle is the mean of the
      gradient angle at the start and the angle towards pivot 1, which is
      the uninitialised second row of the pivot array when no pivot was
      accepted; the width follows from the angle. */
  method Generate(crack: CrackParameters, surface: SurfaceParameters, dirDraw: real, startDraws: seq<Pos>,
                  trig: Trig, fuel: nat, numPivotPoints: int, nextPivot: (nat, Pos) -> Pos, uninitialised: Pos)
    returns (ok: bool, pivots: seq<Pos>, width: real, angle: real)
    requires surface.surfaceMap.Wf() && 0.0 <= dirDraw < 1.0
    requires 1 <= numPivotPoints < MAX_PIVOT_POINTS
    requires forall k :: 0 <= k < |startDraws| ==>
      InBox(startDraws[k], SearchBoxAsWritten(if dirDraw < 0.5 then DIRECTION_LEFT_TO_RIGHT else DIRECTION_RIGHT_TO_LEFT,
                                          surface.surfaceMap.surface.rows, surface.surfaceMap.surface.cols))
    ensures ok <==> FirstStart(startDraws, surface.surfaceMap, trig, fuel).Some?
    ensures ok ==> 1 <= |pivots| <= numPivotPoints + 1
    ensures ok ==> Some(pivots[0]) == FirstStart(startDraws, surface.surfaceMap, trig, fuel)
    ensures ok ==> pivots[1..] == Trajectory.Orbit(nextPivot, pivots[0], |pivots| - 1)
    ensures ok ==> forall i :: 0 <= i < |pivots| ==> CollisionChecker.Create(surface.surfaceMap.mask).WithinBounds(pivots[i])
    ensures ok && |pivots| <= numPivotPoints ==>
      !CollisionChecker.Create(surface.surfaceMap.mask).WithinBounds(nextPivot(|pivots| - 1, pivots[|pivots| - 1]))
    ensures ok ==> surface.surfaceMap.gradientAngles.Contains(pivots[0])
    ensures ok ==> angle == StartAngle(surface.surfaceMap, trig, pivots[0], if |pivots| > 1 then pivots[1] else uninitialised)
    ensures ok ==> width == DetermineWidth(angle, surface, crack)
  {
    var direction := if dirDraw < 0.5 then DIRECTION_LEFT_TO_RIGHT else DIRECTION_RIGHT_TO_LEFT;
    var checker := CollisionChecker.Create(surface.surfaceMap.mask);
    var start := DetermineStartPoint(surface.surfaceMap, direction, startDraws, trig, fuel);
    if start.None? {
      return false, [], 0.0, 0.0;
    }
    ok := true;
    var p0 := start.value;
    var second;
    pivots, second := PivotList(p0, numPivotPoints, checker, nextPivot, uninitialised);
    angle := StartAngle(surface.surfaceMap, trig, p0, second);
    width := DetermineWidth(angle, surface, crack);
  }

  /** The pivot array of `__call__`, `numPivotPoints + 1` rows initialised
      to `uninitialised`, filled from the start `p0`: the rows stored, and
      row 1 as it stands afterwards. */
  method PivotList(p0: Pos, numPivotPoints: int, checker: CollisionChecker.CollisionChecker, nextPivot: (nat, Pos) -> Pos,
                   uninitialised: Pos)
    returns (pivots: seq<Pos>, second: Pos)
    requires 1 <= numPivotPoints
    ensures 1 <= |pivots| <= numPivotPoints + 1 && pivots[0] == p0
    ensures pivots[1..] == Trajectory.Orbit(nextPivot, p0, |pivots| - 1)
    ensures forall i :: 1 <= i < |pivots| ==> checker.WithinBounds(pivots[i])
    ensures |pivots| <= numPivotPoints ==> !checker.WithinBounds(nextPivot(|pivots| - 1, pivots[|pivots| - 1]))
    ensures second == if |pivots| > 1 then pivots[1] else uninitialised
  {
    var pivotPoints := new Pos[numPivotPoints + 1](_ => uninitialised);
    pivotPoints[0] := p0;
    var idx := FollowPivots(pivotPoints, checker, nextPivot, uninitialised);
    second := pivotPoints[1];
    pivots := pivotPoints[..idx + 1];
    assert pivots[1..] == pivotPoints[1..idx + 1];
  }

  /** The pivot loop of `__call__`: from the start in row 0, store the
      generator's image of the last stored pivot in the next row while it is
      within bounds, and return the index of the last row stored. Rows
      after it keep their initial contents. */
  method FollowPivots(pivotPoints: array<Pos>, checker: CollisionChecker.CollisionChecker, nextPivot: (nat, Pos) -> Pos,
                      uninitialised: Pos)
    returns (idx: nat)
    requires pivotPoints.Length >= 2
    modifies pivotPoints
    ensures idx < pivotPoints.Length && pivotPoints[0] == old(pivotPoints[0])
    ensures pivotPoints[1..idx + 1] == Trajectory.Orbit(nextPivot, pivotPoints[0], idx)
    ensures forall i :: 1 <= i <= idx ==> checker.WithinBounds(pivotPoints[i])
    ensures idx < pivotPoints.Length - 1 ==> !checker.WithinBounds(nextPivot(idx, pivotPoints[idx]))
    ensures forall i :: idx < i < pivotPoints.Length ==> pivotPoints[i] == old(pivotPoints[i])
  {
    idx := 0;
    while idx < pivotPoints.Length - 1
      invariant idx < pivotPoints.Length && pivotPoints[0] == old(pivotPoints[0])
      invariant pivotPoints[1..idx + 1] == Trajectory.Orbit(nextPivot, pivotPoints[0], idx)
      invariant forall i :: 1 <= i <= idx ==> checker.WithinBounds(pivotPoints[i])
      invariant forall i :: idx < i < pivotPoints.Length ==> pivotPoints[i] == old(pivotPoints[i])
    {
      var next := nextPivot(idx, pivotPoints[idx]);
      if !checker.WithinBounds(next) {
        return;
      }
      assert idx > 0 ==> pivotPoints[idx] == Trajectory.Orbit(nextPivot, pivotPoints[0], idx)[idx - 1];
      idx := idx + 1;
      pivotPoints[idx] := next;
      assert pivotPoints[1..idx + 1] == pivotPoints[1..idx] + [next];
    }
  }
}
