/** `crack_generation/crack_generator.py`: the stages of the `path_functions`
    generation chained into a crack.

    The stages keep the inputs their own modules take: the trajectory draws
    (`dirDraw`, `pick`, `numPivotPoints`, the pivot generator `nextPivot`),
    one draw stream per path segment, and the draws of the end shrinking.
    The Gaussian smoother and the height map builder run SciPy and OpenCV
    code, so they are the parameters `gaussian` and `heightMap`. Where the
    source raises (an empty path, a smoothing below 1) or a stage runs out
    of draws, the result is None. */
module CrackGenerator {
  import opened Numeric
  import opened Geometry
  import opened CrackModel
  import opened Collision
  import Trajectory
  import PathWalker
  import Postprocess

  /** The smoothing the `smoothing_type` string selects. */
  datatype Smoothing = GaussianSmoothing | MovingAverageSmoothing | NoSmoothing

  function SmoothingOf(smoothingType: string): (r: Smoothing)
    ensures r == GaussianSmoothing <==> smoothingType == "gaussian"
    ensures r == MovingAverageSmoothing <==> smoothingType == "moving_average"
  {
    if smoothingType == "gaussian" then GaussianSmoothing
    else if smoothingType == "moving_average" then MovingAverageSmoothing
    else NoSmoothing
  }

  /** The segments one after the other. */
  function Concat(segments: seq<seq<Point>>): (r: seq<Point>)
  {
    if |segments| == 0 then [] else Concat(segments[..|segments| - 1]) + segments[|segments| - 1]
  }

  /** Every point of the concatenation comes from one of the segments. */
  lemma {:induction false} ConcatMembers(segments: seq<seq<Point>>, p: Point)
    requires p in Concat(segments)
    ensures exists i :: 0 <= i < |segments| && p in segments[i]
  {
    if |segments| > 0 {
      var n := |segments| - 1;
      if p in Concat(segments[..n]) {
        ConcatMembers(segments[..n], p);
        var i :| 0 <= i < |segments[..n]| && p in segments[..n][i];
        assert segments[i] == segments[..n][i];
      } else {
        assert p in segments[n];
      }
    }
  }

  /** `shrink_path_end` runs only on a last point off the edge and wider
      than the minimum width. */
  predicate Shrinks(last: Point, surface: Surface, params: PathParameters)
  {
    !OnEdge(last, surface) && last.width > params.minWidth
  }

  /** `path` is `smoothed` with the end shrunk: the same length, centres and
      angles, and the last width at the minimum width. */
  ghost predicate ShrunkFrom(path: seq<Point>, smoothed: seq<Point>, minWidth: real)
  {
    |path| == |smoothed| > 0
    && path[|smoothed| - 1].width == minWidth
    && forall i :: 0 <= i < |smoothed| ==> path[i].center == smoothed[i].center && path[i].angle == smoothed[i].angle
  }

  /** What the post-processing promises of a crack's `path` and height
      map `hm`: the filtered points are smoothed exactly as the
      `smoothing_type` selects, the end is shrunk exactly when `Shrinks`
      holds of the smoothed last point, and the height map is built from the
      final path. */
  ghost predicate Processed(path: seq<Point>, hm: Grid<real>, filtered: seq<Point>, smoothed: seq<Point>,
                            surface: Surface, params: PathParameters,
                            gaussian: (seq<Point>, int) -> seq<Point>, heightMap: seq<Point> -> Grid<real>)
  {
    |filtered| > 0 && |smoothed| > 0
    && (SmoothingOf(params.smoothingType) == GaussianSmoothing ==> smoothed == gaussian(filtered, params.smoothing))
    && (SmoothingOf(params.smoothingType) == NoSmoothing ==> smoothed == filtered)
    && (SmoothingOf(params.smoothingType) == MovingAverageSmoothing ==> Postprocess.MovingAveraged(smoothed, filtered, params.smoothing))
    && (!Shrinks(smoothed[|smoothed| - 1], surface, params) ==> path == smoothed)
    && (Shrinks(smoothed[|smoothed| - 1], surface, params) ==> ShrunkFrom(path, smoothed, params.minWidth))
    && hm == heightMap(path)
  }

  /** `CrackGenerator.__call__`. On success: the crack's trajectory is the
      pivot list, which is the orbit of the start centre; the path before
      post-processing is the start followed by one segment per pivot, each
      a walk of `generate_path` from the point reached so far towards its
      pivot on its own draw stream (`Walked`); the filter keeps what `remove_non_increasing_points`
      keeps; exactly the selected smoothing is applied; the end is shrunk
      exactly when `Shrinks` holds of the smoothed last point, which changes
      only widths; and the height map is built from the final path. */
  method Generate(surface: Surface, params: GenerationParameters, trig: Trig, dirDraw: real, pick: real,
                  numPivotPoints: int, nextPivot: (nat, Pos) -> Pos, inObject: Point -> bool,
                  segmentDraws: seq<seq<real>>, shrinkDraws: seq<real>,
                  gaussian: (seq<Point>, int) -> seq<Point>, heightMap: seq<Point> -> Grid<real>)
    returns (r: Option<Crack>, ghost start: Point, ghost segments: seq<seq<Point>>,
             ghost filtered: seq<Point>, ghost smoothed: seq<Point>)
    requires surface.Wf() && 0.0 <= dirDraw < 1.0 && 0.0 <= pick < 1.0
    requires 1 <= numPivotPoints < params.trajectoryParameters.maxPivotPoints
    requires |segmentDraws| >= numPivotPoints
    requires forall i, k :: 0 <= i < |segmentDraws| && 0 <= k < |segmentDraws[i]| ==> 0.0 <= segmentDraws[i][k] < 1.0
    requires forall k :: 0 <= k < |shrinkDraws| ==> 0.5 <= shrinkDraws[k] < 1.0
    ensures r.Some? ==> 1 <= |r.value.trajectory| <= numPivotPoints
    ensures r.Some? ==> r.value.trajectory == Trajectory.Orbit(nextPivot, start.center, |r.value.trajectory|)
    ensures r.Some? ==> |segments| == |r.value.trajectory|
    ensures r.Some? ==> Walked(start, r.value.trajectory, segments, surface, params.pathParameters, trig, inObject,
                               segmentDraws)
    ensures r.Some? ==> filtered == Postprocess.RemoveNonIncreasingPoints([start] + Concat(segments),
                                                                         params.pathParameters.distanceImprovementThreshold, trig)
    ensures r.Some? ==> Processed(r.value.path, r.value.heightMap, filtered, smoothed, surface, params.pathParameters,
                                  gaussian, heightMap)
  {
    segments, filtered, smoothed, r := [], [], [], None;
    var ok, first, pivots := Trajectory.GeneratePivotTrajectory(surface, params, dirDraw, pick, numPivotPoints, nextPivot);
    start := first;
    if ok {
      var walked, allPoints;
      walked, allPoints, segments := WalkSegments(first, pivots, surface, params.pathParameters, trig, inObject, segmentDraws);
      if walked {
        r, filtered, smoothed := Finish(allPoints, pivots, surface, params.pathParameters, trig, shrinkDraws, gaussian, heightMap);
      }
    }
  }

  /** The post-processing of `__call__` on the walked points: filter,
      smooth, shrink the end, and build the crack around `pivots`. */
  method Finish(allPoints: seq<Point>, pivots: seq<Pos>, surface: Surface, params: PathParameters, trig: Trig,
                shrinkDraws: seq<real>, gaussian: (seq<Point>, int) -> seq<Point>, heightMap: seq<Point> -> Grid<real>)
    returns (r: Option<Crack>, ghost filtered: seq<Point>, ghost smoothed: seq<Point>)
    requires forall k :: 0 <= k < |shrinkDraws| ==> 0.5 <= shrinkDraws[k] < 1.0
    ensures filtered == Postprocess.RemoveNonIncreasingPoints(allPoints, params.distanceImprovementThreshold, trig)
    ensures r.Some? ==> r.value.trajectory == pivots
    ensures r.Some? ==> Processed(r.value.path, r.value.heightMap, filtered, smoothed, surface, params, gaussian, heightMap)
  {
    filtered, smoothed := Postprocess.RemoveNonIncreasingPoints(allPoints, params.distanceImprovementThreshold, trig), [];
    var kept := Postprocess.RemoveNonIncreasingPoints(allPoints, params.distanceImprovementThreshold, trig);
    var smoothedOk, points := Smooth(kept, params, gaussian);
    smoothed := points;
    if !smoothedOk || |kept| == 0 || |points| == 0 {
      return None, filtered, smoothed;
    }
    if Shrinks(points[|points| - 1], surface, params) {
      var shrunkOk;
      shrunkOk, points := ShrinkEnd(points, params, shrinkDraws);
      if !shrunkOk {
        return None, filtered, smoothed;
      }
    }
    r := Some(Crack(points, pivots, heightMap(points)));
  }

  /** `shrink_path_end` on a copy of `points`: false when it runs out of
      draws; otherwise only widths change and the last one is at most the
      minimum width. */
  method ShrinkEnd(points: seq<Point>, params: PathParameters, shrinkDraws: seq<real>)
    returns (ok: bool, shrunk: seq<Point>)
    requires |points| > 0
    requires forall k :: 0 <= k < |shrinkDraws| ==> 0.5 <= shrinkDraws[k] < 1.0
    ensures ok ==> |shrunk| == |points|
    ensures ok ==> shrunk[|points| - 1].width == Min(points[|points| - 1].width, params.minWidth)
    ensures ok ==> forall i :: 0 <= i < |points| ==> shrunk[i].center == points[i].center && shrunk[i].angle == points[i].angle
  {
    var path := new Point[|points|](j requires 0 <= j < |points| => points[j]);
    assert path[..] == points;
    var _, _, outOfDraws := Postprocess.ShrinkPathEnd(path, params.minWidth, params.maxWidthGrow, shrinkDraws);
    ok, shrunk := !outOfDraws, path[..];
  }

  /** The walk so far, one segment per pivot from the first ones, built
      segment by segment: each segment is what `generate_path` yields,
      without running out of draws, from the last point before it towards
      its pivot on its own draw stream. `WalkedMeans` spells out what that
      gives for all segments at once. */
  ghost predicate Walked(first: Point, pivots: seq<Pos>, segments: seq<seq<Point>>, surface: Surface,
                         params: PathParameters, trig: Trig, inObject: Point -> bool, segmentDraws: seq<seq<real>>)
    requires surface.Wf()
    decreases |segments|
  {
    |segments| <= |pivots| && |segments| <= |segmentDraws|
    && (|segments| == 0
        || var n := |segments| - 1;
           Walked(first, pivots, segments[..n], surface, params, trig, inObject, segmentDraws)
           && PathWalker.WalkFrom(PathWalker.Last(first, Concat(segments[..n])), pivots[n], segments[n], false,
                                  surface, params, trig, inObject, segmentDraws[n]))
  }

  /** The loop over the pivots: a segment from the last point so far to
      each pivot in turn, appended to the points. `ok` is false when a
      segment runs out of draws. */
  method WalkSegments(first: Point, pivots: seq<Pos>, surface: Surface, params: PathParameters, trig: Trig,
                      inObject: Point -> bool, segmentDraws: seq<seq<real>>)
    returns (ok: bool, allPoints: seq<Point>, ghost segments: seq<seq<Point>>)
    requires surface.Wf() && |segmentDraws| >= |pivots|
    requires forall i, k :: 0 <= i < |segmentDraws| && 0 <= k < |segmentDraws[i]| ==> 0.0 <= segmentDraws[i][k] < 1.0
    ensures ok ==> |segments| == |pivots| && allPoints == [first] + Concat(segments)
    ensures ok ==> Walked(first, pivots, segments, surface, params, trig, inObject, segmentDraws)
  {
    segments := [];
    allPoints := [first];
    var i := 0;
    while i < |pivots|
      invariant 0 <= i <= |pivots| && |segments| == i
      invariant allPoints == [first] + Concat(segments)
      invariant Walked(first, pivots, segments, surface, params, trig, inObject, segmentDraws)
    {
      var last := allPoints[|allPoints| - 1];
      assert last == PathWalker.Last(first, Concat(segments));
      var segment, outOfDraws := WalkSegment(last, pivots[i], surface, params, trig, inObject, segmentDraws[i]);
      if outOfDraws {
        return false, allPoints, segments;
      }
      ConcatAppend(first, segments, segment);
      WalkedExtend(first, pivots, segments, segment, surface, params, trig, inObject, segmentDraws);
      allPoints := allPoints + segment;
      segments := segments + [segment];
      i := i + 1;
    }
    ok := true;
  }

  /** One iteration of the loop: `generate_path` from `start` towards
      `pivot`. The segment is a walk of `generate_path`; in particular a
      start that fails the guard gives no points, and every point it gives
      lies on the surface. */
  method WalkSegment(start: Point, pivot: Pos, surface: Surface, params: PathParameters, trig: Trig,
                     inObject: Point -> bool, draws: seq<real>)
    returns (segment: seq<Point>, outOfDraws: bool)
    requires surface.Wf()
    requires forall k :: 0 <= k < |draws| ==> 0.0 <= draws[k] < 1.0
    ensures PathWalker.WalkFrom(start, pivot, segment, outOfDraws, surface, params, trig, inObject, draws)
    ensures !PathWalker.KeepsWalking(start, pivot, surface, params) ==> segment == [] && !outOfDraws
    ensures forall p :: p in segment ==> PathWalker.InRange(p.center, surface)
  {
    ghost var froms, finalEnd, breakingAt, clippedAt, updateDraw;
    segment, outOfDraws, froms, finalEnd, breakingAt, clippedAt, updateDraw :=
      PathWalker.GeneratePath(start, pivot, surface, params, trig, inObject, draws);
    StepsInRange(froms, segment, breakingAt, updateDraw, draws, surface, params);
  }

  /** The points of a walk whose every step is sound lie on the surface. */
  lemma StepsInRange(froms: seq<Point>, segment: seq<Point>, breakingAt: seq<bool>, updateDraw: seq<nat>,
                     draws: seq<real>, surface: Surface, params: PathParameters)
    requires surface.Wf()
    requires |froms| == |breakingAt| == |updateDraw| == |segment|
    requires forall k {:trigger updateDraw[k]} :: 0 <= k < |segment| ==>
      PathWalker.StepOK(froms[k], segment[k], breakingAt[k], updateDraw[k], draws, surface, params)
    ensures forall p :: p in segment ==> PathWalker.InRange(p.center, surface)
  {
    forall p | p in segment
      ensures PathWalker.InRange(p.center, surface)
    {
      var k :| 0 <= k < |segment| && segment[k] == p;
      assert PathWalker.StepOK(froms[k], segment[k], breakingAt[k], updateDraw[k], draws, surface, params);
    }
  }

  /** What any walk of `generate_path` gives: nothing when its start fails
      the guard, and points on the surface. */
  lemma WalkFromMeans(start: Point, pivot: Pos, segment: seq<Point>, outOfDraws: bool, surface: Surface,
                      params: PathParameters, trig: Trig, inObject: Point -> bool, draws: seq<real>)
    requires surface.Wf()
    requires PathWalker.WalkFrom(start, pivot, segment, outOfDraws, surface, params, trig, inObject, draws)
    ensures !PathWalker.KeepsWalking(start, pivot, surface, params) ==> segment == [] && !outOfDraws
    ensures forall p :: p in segment ==> PathWalker.InRange(p.center, surface)
  {
    var froms, finalEnd, breakingAt, clippedAt, updateDraw :|
      PathWalker.Walk(start, pivot, surface, params, trig, inObject, draws, segment, outOfDraws,
                      froms, finalEnd, breakingAt, clippedAt, updateDraw);
    StepsInRange(froms, segment, breakingAt, updateDraw, draws, surface, params);
  }

  /** Appending a segment appends its points. */
  lemma ConcatAppend(first: Point, prev: seq<seq<Point>>, segment: seq<Point>)
    ensures Concat(prev + [segment]) == Concat(prev) + segment
    ensures [first] + Concat(prev) + segment == [first] + Concat(prev + [segment])
  {
    assert (prev + [segment])[..|prev|] == prev;
  }

  /** One more segment, walked from the last point so far towards the next
      pivot on the next draw stream, keeps `Walked`. */
  lemma WalkedExtend(first: Point, pivots: seq<Pos>, prev: seq<seq<Point>>, segment: seq<Point>,
                     surface: Surface, params: PathParameters, trig: Trig, inObject: Point -> bool,
                     segmentDraws: seq<seq<real>>)
    requires surface.Wf() && |prev| < |pivots| && |prev| < |segmentDraws|
    requires Walked(first, pivots, prev, surface, params, trig, inObject, segmentDraws)
    requires PathWalker.WalkFrom(PathWalker.Last(first, Concat(prev)), pivots[|prev|], segment, false,
                                 surface, params, trig, inObject, segmentDraws[|prev|])
    ensures Walked(first, pivots, prev + [segment], surface, params, trig, inObject, segmentDraws)
  {
    assert (prev + [segment])[..|prev|] == prev;
  }

  /** What a walk promises of every segment: it is a walk of
      `generate_path` from the point reached before it towards its pivot, so
      it is empty when that point fails the guard, and its points lie on the
      surface; hence every walked point lies on the surface. */
  lemma {:induction false} WalkedMeans(first: Point, pivots: seq<Pos>, segments: seq<seq<Point>>, surface: Surface,
                                       params: PathParameters, trig: Trig, inObject: Point -> bool,
                                       segmentDraws: seq<seq<real>>)
    requires surface.Wf()
    requires Walked(first, pivots, segments, surface, params, trig, inObject, segmentDraws)
    ensures |segments| <= |pivots| && |segments| <= |segmentDraws|
    ensures forall j :: 0 <= j < |segments| ==>
      PathWalker.WalkFrom(PathWalker.Last(first, Concat(segments[..j])), pivots[j], segments[j], false,
                          surface, params, trig, inObject, segmentDraws[j])
    ensures forall j :: 0 <= j < |segments| ==>
      (!PathWalker.KeepsWalking(PathWalker.Last(first, Concat(segments[..j])), pivots[j], surface, params)
       ==> segments[j] == [])
    ensures forall j, p :: 0 <= j < |segments| && p in segments[j] ==> PathWalker.InRange(p.center, surface)
    ensures forall p :: p in Concat(segments) ==> PathWalker.InRange(p.center, surface)
    decreases |segments|
  {
    if |segments| > 0 {
      var n := |segments| - 1;
      var prev := segments[..n];
      WalkedMeans(first, pivots, prev, surface, params, trig, inObject, segmentDraws);
      forall j | 0 <= j < |segments|
        ensures PathWalker.WalkFrom(PathWalker.Last(first, Concat(segments[..j])), pivots[j], segments[j], false,
                                    surface, params, trig, inObject, segmentDraws[j])
        ensures !PathWalker.KeepsWalking(PathWalker.Last(first, Concat(segments[..j])), pivots[j], surface, params)
                ==> segments[j] == []
        ensures forall p :: p in segments[j] ==> PathWalker.InRange(p.center, surface)
      {
        if j < n {
          assert segments[..j] == prev[..j] && segments[j] == prev[j];
        }
        WalkFromMeans(PathWalker.Last(first, Concat(segments[..j])), pivots[j], segments[j], false,
                      surface, params, trig, inObject, segmentDraws[j]);
      }
    }
    forall p | p in Concat(segments)
      ensures PathWalker.InRange(p.center, surface)
    {
      ConcatMembers(segments, p);
    }
  }

  /** The smoothing dispatch: Gaussian for "gaussian", the moving average
      for "moving_average" (false where it raises), nothing otherwise. */
  method Smooth(kept: seq<Point>, params: PathParameters, gaussian: (seq<Point>, int) -> seq<Point>)
    returns (ok: bool, points: seq<Point>)
    ensures SmoothingOf(params.smoothingType) == GaussianSmoothing ==> ok && points == gaussian(kept, params.smoothing)
    ensures SmoothingOf(params.smoothingType) == NoSmoothing ==> ok && points == kept
    ensures SmoothingOf(params.smoothingType) == MovingAverageSmoothing ==>
      (ok <==> |kept| > 0 && params.smoothing >= 1)
      && (ok ==> |points| == |kept| && Postprocess.MovingAveraged(points, kept, params.smoothing))
  {
    ok, points := true, kept;
    match SmoothingOf(params.smoothingType)
    case GaussianSmoothing =>
      points := gaussian(kept, params.smoothing);
    case MovingAverageSmoothing =>
      var path := new Point[|kept|](j requires 0 <= j < |kept| => kept[j]);
      assert path[..] == kept;
      ok := Postprocess.SmoothPathMovingAverage(path, params.smoothing);
      points := path[..];
      assert forall i :: 0 <= i < |points| ==> points[i] == path[i];
    case NoSmoothing =>
  }
}
