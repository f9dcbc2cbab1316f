/** `crack_generation/path_functions/path.py`: the step loop that walks a
    crack from its initial point towards an end position over the surface of
    the `path_functions` generation.

    The random draws are the sequence `draws`, each in [0, 1): per step one
    for the breakthrough chance (only when not already breaking through), one
    for the width increment and one for the width update chance. The loop
    stops when fewer than three draws are left, which bounds the otherwise
    unbounded walk. `in_object`, which the source imports from a module that
    does not define it, is the parameter `inObject`. */
module PathWalker {
  import opened Numeric
  import opened Geometry
  import opened CrackModel
  import opened Collision

  /** The loop guard: wide enough, on the surface, and farther than
      `min_distance` from the end. */
  predicate KeepsWalking(p: Point, endPosition: Pos, s: Surface, params: PathParameters)
  {
    p.width >= params.minWidth && WithinSurface(p, s)
    && NormExceeds(RVec((endPosition.x - p.center.x) as real, (endPosition.y - p.center.y) as real), params.minDistance)
  }

  predicate InRange(c: Pos, s: Surface)
  {
    0 <= c.x < s.Width() && 0 <= c.y < s.Height()
  }

  /** What one step does to the width: it stays put unless the update draw
      succeeds, grows by less than `max_width_grow`, and cannot grow while not
      breaking through at a width at least the distance transform at the new
      centre (which is on the surface). */
  predicate WidthStep(prev: Point, p: Point, breaking: bool, updateDraw: real, s: Surface, params: PathParameters)
    requires s.Wf()
  {
    InRange(p.center, s)
    && (updateDraw >= params.widthUpdateChance ==> p.width == prev.width)
    && (params.maxWidthGrow > 0.0 ==> p.width - prev.width < params.maxWidthGrow)
    && (!breaking && prev.width >= s.distanceTransform.At(p.center) ==> p.width <= prev.width)
  }

  lemma IncrementBelowGrow(u: real, m: real)
    requires 0.0 <= u < 1.0 && m > 0.0
    ensures (-1.0 + 2.0 * u) * m < m
  {
    assert u * m < 1.0 * m;
  }

  /** A step of the walk from `from` to `to`: taken from a point that
      passed the width and surface parts of the guard, with the width
      update decided by draw number `u`. */
  predicate StepOK(from: Point, to: Point, breaking: bool, u: nat, draws: seq<real>, s: Surface, params: PathParameters)
    requires s.Wf()
  {
    from.width >= params.minWidth && WithinSurface(from, s) && u < |draws|
    && WidthStep(from, to, breaking, draws[u], s, params)
  }

  /** The point the walk is at after `path`. */
  function Last(initial: Point, path: seq<Point>): Point
  {
    if |path| == 0 then initial else path[|path| - 1]
  }

  /** The end position the guard of `generate_path` measures against after
      the given steps: the centre of the last clipped step, or the original
      end when no step was clipped. */
  function GuardEnd(endPosition: Pos, path: seq<Point>, clippedAt: seq<bool>): Pos
    requires |path| == |clippedAt|
  {
    if |path| == 0 then endPosition
    else if clippedAt[|path| - 1] then path[|path| - 1].center
    else GuardEnd(endPosition, path[..|path| - 1], clippedAt[..|path| - 1])
  }

  /** How each step of a walk moved: as `Moved` says, heading for the
      original end position (the heading reads the end coordinates taken
      before the loop, which a clipped step does not change). */
  ghost predicate Steered(froms: seq<Point>, path: seq<Point>, breakingAt: seq<bool>, clippedAt: seq<bool>,
                          endPosition: Pos, s: Surface, params: PathParameters, trig: Trig)
    requires s.Wf()
  {
    |froms| == |breakingAt| == |clippedAt| == |path|
    && forall i {:trigger clippedAt[i]} :: 0 <= i < |path| ==>
         Moved(froms[i], path[i], breakingAt[i], clippedAt[i], endPosition, s, params, trig)
  }

  /** How the breakthrough flag of each step after the first was refreshed:
      after a step from a point that is not in an object, the next step
      breaks through exactly when its breakthrough draw (two before its
      width update draw) is below `breakthrough_chance`. */
  ghost predicate Refreshed(froms: seq<Point>, breakingAt: seq<bool>, updateDraw: seq<nat>, draws: seq<real>,
                            params: PathParameters, inObject: Point -> bool)
  {
    |froms| == |breakingAt| == |updateDraw|
    && forall i {:trigger breakingAt[i]} :: 1 <= i < |breakingAt| && !inObject(froms[i - 1]) ==>
         2 <= updateDraw[i] < |draws| && (breakingAt[i] <==> draws[updateDraw[i] - 2] < params.breakthroughChance)
  }

  /** Everything `generate_path` promises of a walk from `initial` towards
      `endPosition`: the path (which excludes the initial point), whether it
      stopped for want of draws, and, as ghost witnesses, the point each step
      started from, the end position it finished with, the breakthrough flag
      each step used, whether the step was clipped, and which draw decided
      its width update. */
  ghost predicate Walk(initial: Point, endPosition: Pos, s: Surface, params: PathParameters, trig: Trig,
                       inObject: Point -> bool, draws: seq<real>, path: seq<Point>, outOfDraws: bool,
                       froms: seq<Point>, finalEnd: Pos, breakingAt: seq<bool>, clippedAt: seq<bool>,
                       updateDraw: seq<nat>)
    requires s.Wf()
  {
    |froms| == |breakingAt| == |clippedAt| == |updateDraw| == |path|
    // step i starts where step i - 1 ended, the first at the initial point
    && (|path| > 0 ==> froms[0] == initial)
    && (forall i {:trigger froms[i]} :: 1 <= i < |path| ==> froms[i] == path[i - 1])
    // a start that fails the guard yields no points
    && (!KeepsWalking(initial, endPosition, s, params) ==> path == [] && !outOfDraws)
    // unless the draws ran out, the loop ended because the guard failed
    && (!outOfDraws ==> !KeepsWalking(Last(initial, path), finalEnd, s, params))
    // the end the guard measures against moves to the centre of each
    // clipped step, and a clipped step is the last one when min_distance >= 0
    && finalEnd == GuardEnd(endPosition, path, clippedAt)
    && (params.minDistance >= 0.0 ==> forall i :: 0 <= i < |path| - 1 ==> !clippedAt[i])
    // every step starts from a point that passed the guard and ends on the
    // surface; its width changes only on a successful update draw, grows by
    // less than max_width_grow, and never grows while not breaking through
    // at a width at least the distance transform
    && (forall i {:trigger updateDraw[i]} :: 0 <= i < |path| ==>
          StepOK(froms[i], path[i], breakingAt[i], updateDraw[i], draws, s, params))
    && (forall i, j :: 0 <= i < j < |path| ==> updateDraw[i] < updateDraw[j])
    // the first step breaks through; a later one does whenever the point its
    // previous step started from is in an object, and otherwise exactly on
    // a successful breakthrough draw; each step moves along its heading
    && (|path| > 0 ==> breakingAt[0])
    && (forall i {:trigger breakingAt[i]} :: 1 <= i < |path| && inObject(froms[i - 1]) ==> breakingAt[i])
    && Refreshed(froms, breakingAt, updateDraw, draws, params, inObject)
    && Steered(froms, path, breakingAt, clippedAt, endPosition, s, params, trig)
  }

  /** `path` is what a run of `generate_path` from `initial` towards
      `endPosition` on `draws` yields (with `outOfDraws` telling whether it
      stopped for want of draws): some ghost witnesses make it a `Walk`. */
  ghost predicate WalkFrom(initial: Point, endPosition: Pos, path: seq<Point>, outOfDraws: bool, s: Surface,
                           params: PathParameters, trig: Trig, inObject: Point -> bool, draws: seq<real>)
    requires s.Wf()
  {
    exists froms, finalEnd, breakingAt, clippedAt, updateDraw ::
      Walk(initial, endPosition, s, params, trig, inObject, draws, path, outOfDraws,
           froms, finalEnd, breakingAt, clippedAt, updateDraw)
  }

  /** `generate_path`, with the ghost witnesses of `Walk`. */
  method GeneratePath(initial: Point, endPosition: Pos, s: Surface, params: PathParameters,
                      trig: Trig, inObject: Point -> bool, draws: seq<real>)
    returns (path: seq<Point>, outOfDraws: bool, ghost froms: seq<Point>, ghost finalEnd: Pos,
             ghost breakingAt: seq<bool>, ghost clippedAt: seq<bool>, ghost updateDraw: seq<nat>)
    requires s.Wf()
    requires forall k :: 0 <= k < |draws| ==> 0.0 <= draws[k] < 1.0
    ensures Walk(initial, endPosition, s, params, trig, inObject, draws, path, outOfDraws,
                 froms, finalEnd, breakingAt, clippedAt, updateDraw)
  {
    path, outOfDraws := [], false;
    froms, breakingAt, clippedAt, updateDraw := [], [], [], [];
    var current := initial;
    var endPos := endPosition;
    var breaking := true;
    var k := 0;
    while KeepsWalking(current, endPos, s, params)
      invariant Walking(initial, endPosition, s, params, trig, inObject, draws, k, path, froms, breakingAt, clippedAt,
                        updateDraw, current, endPos, breaking)
      decreases |draws| - k
    {
      if |draws| - k < 3 {
        outOfDraws := true;
        break;
      }
      var newPoint, clipped, stepBreaking, used, next := Step(current, endPosition, breaking, s, params, trig, draws, k);
      WalkingStep(initial, endPosition, s, params, trig, inObject, draws, k, path, froms, breakingAt, clippedAt,
                  updateDraw, current, endPos, breaking, newPoint, clipped, stepBreaking, used, next);
      froms, breakingAt, clippedAt, updateDraw := froms + [current], breakingAt + [stepBreaking], clippedAt + [clipped], updateDraw + [used];
      breaking := inObject(current);
      if clipped {
        // the guard now measures the distance to the clipped centre
        endPos := newPoint.center;
      }
      k := next;
      current := newPoint;
      path := path + [newPoint];
    }
    finalEnd := endPos;
    WalkingDone(initial, endPosition, s, params, trig, inObject, draws, k, path, froms, breakingAt, clippedAt,
                updateDraw, current, endPos, breaking, outOfDraws);
  }

  /** The state of `generate_path` after some steps: the walk so far, the
      point it is at, the end it aims at, the flag for the next step and the
      next unused draw `k`. */
  ghost predicate Walking(initial: Point, endPosition: Pos, s: Surface, params: PathParameters, trig: Trig,
                          inObject: Point -> bool, draws: seq<real>, k: nat, path: seq<Point>, froms: seq<Point>,
                          breakingAt: seq<bool>, clippedAt: seq<bool>, updateDraw: seq<nat>,
                          current: Point, endPos: Pos, breaking: bool)
    requires s.Wf()
  {
    k <= |draws| && |clippedAt| == |path|
    && Trace(froms, path, breakingAt, updateDraw, k, draws, s, params, inObject)
    && Refreshed(froms, breakingAt, updateDraw, draws, params, inObject)
    && Steered(froms, path, breakingAt, clippedAt, endPosition, s, params, trig)
    && Placed(initial, endPosition, s, params, inObject, path, froms, clippedAt, current, endPos, breaking)
  }

  /** Where the walk of `generate_path` stands: the point it is at, the end
      the guard measures against, and the flag for the next step. */
  ghost predicate Placed(initial: Point, endPosition: Pos, s: Surface, params: PathParameters,
                         inObject: Point -> bool, path: seq<Point>, froms: seq<Point>, clippedAt: seq<bool>,
                         current: Point, endPos: Pos, breaking: bool)
  {
    |froms| == |clippedAt| == |path|
    && (|path| > 0 ==> froms[0] == initial)
    && current == Last(initial, path)
    && (!KeepsWalking(initial, endPosition, s, params) ==> path == [])
    && endPos == GuardEnd(endPosition, path, clippedAt)
    && (|path| == 0 ==> breaking)
    && (|path| > 0 ==> breaking == inObject(froms[|path| - 1]))
    && (params.minDistance >= 0.0 ==> forall i :: 0 <= i < |path| - 1 ==> !clippedAt[i])
  }

  /** A step from where the walk stands, while the guard holds, moves it. */
  lemma PlacedStep(initial: Point, endPosition: Pos, s: Surface, params: PathParameters, inObject: Point -> bool,
                   path: seq<Point>, froms: seq<Point>, clippedAt: seq<bool>, current: Point, endPos: Pos,
                   breaking: bool, newPoint: Point, clipped: bool)
    requires Placed(initial, endPosition, s, params, inObject, path, froms, clippedAt, current, endPos, breaking)
    requires KeepsWalking(current, endPos, s, params)
    ensures Placed(initial, endPosition, s, params, inObject, path + [newPoint], froms + [current], clippedAt + [clipped],
                   newPoint, if clipped then newPoint.center else endPos, inObject(current))
  {
    GuardEndSnoc(endPosition, path, clippedAt, newPoint, clipped);
    var froms', path' := froms + [current], path + [newPoint];
    assert |path| == 0 ==> current == initial;
    assert froms'[0] == if |froms| > 0 then froms[0] else initial;
    assert froms'[|path'| - 1] == current;
    ClipEndsWalk(initial, endPosition, s, params, path, clippedAt, current, endPos, newPoint, clipped);
  }

  /** One turn of the loop of `generate_path` keeps `Walking`. */
  lemma WalkingStep(initial: Point, endPosition: Pos, s: Surface, params: PathParameters, trig: Trig,
                    inObject: Point -> bool, draws: seq<real>, k: nat, path: seq<Point>, froms: seq<Point>,
                    breakingAt: seq<bool>, clippedAt: seq<bool>, updateDraw: seq<nat>,
                    current: Point, endPos: Pos, breaking: bool,
                    newPoint: Point, clipped: bool, stepBreaking: bool, used: nat, next: nat)
    requires s.Wf()
    requires Walking(initial, endPosition, s, params, trig, inObject, draws, k, path, froms, breakingAt, clippedAt,
                     updateDraw, current, endPos, breaking)
    requires KeepsWalking(current, endPos, s, params) && k + 3 <= |draws|
    requires breaking ==> stepBreaking
    requires !breaking ==> (stepBreaking <==> draws[k] < params.breakthroughChance)
    requires used == (if breaking then k + 1 else k + 2) && next == used + 1
    requires Moved(current, newPoint, stepBreaking, clipped, endPosition, s, params, trig)
    requires WidthStep(current, newPoint, stepBreaking, draws[used], s, params)
    ensures Walking(initial, endPosition, s, params, trig, inObject, draws, next, path + [newPoint], froms + [current],
                    breakingAt + [stepBreaking], clippedAt + [clipped], updateDraw + [used], newPoint,
                    if clipped then newPoint.center else endPos, inObject(current))
  {
    TraceExtend(froms, path, breakingAt, updateDraw, k, draws, s, params, inObject, current, newPoint, stepBreaking, used, next);
    RefreshedExtend(froms, breakingAt, updateDraw, draws, params, inObject, current, stepBreaking, used);
    SteeredExtend(froms, path, breakingAt, clippedAt, endPosition, s, params, trig, current, newPoint, stepBreaking, clipped);
    PlacedStep(initial, endPosition, s, params, inObject, path, froms, clippedAt, current, endPos, breaking,
               newPoint, clipped);
  }

  /** A clipped step ends the walk when `min_distance >= 0`: the end it
      leaves is its own centre, at distance 0. */
  lemma ClipEndsWalk(initial: Point, endPosition: Pos, s: Surface, params: PathParameters, path: seq<Point>,
                     clippedAt: seq<bool>, current: Point, endPos: Pos, newPoint: Point, clipped: bool)
    requires |clippedAt| == |path| && current == Last(initial, path)
    requires endPos == GuardEnd(endPosition, path, clippedAt)
    requires KeepsWalking(current, endPos, s, params)
    requires params.minDistance >= 0.0 ==> forall i :: 0 <= i < |path| - 1 ==> !clippedAt[i]
    ensures params.minDistance >= 0.0 ==> forall i :: 0 <= i < |path| ==> !(clippedAt + [clipped])[i]
  {
    if params.minDistance >= 0.0 && |path| > 0 && clippedAt[|path| - 1] {
      assert false;
    }
  }

  /** When the loop of `generate_path` ends, the walk it leaves is a `Walk`. */
  lemma WalkingDone(initial: Point, endPosition: Pos, s: Surface, params: PathParameters, trig: Trig,
                    inObject: Point -> bool, draws: seq<real>, k: nat, path: seq<Point>, froms: seq<Point>,
                    breakingAt: seq<bool>, clippedAt: seq<bool>, updateDraw: seq<nat>,
                    current: Point, endPos: Pos, breaking: bool, outOfDraws: bool)
    requires s.Wf()
    requires Walking(initial, endPosition, s, params, trig, inObject, draws, k, path, froms, breakingAt, clippedAt,
                     updateDraw, current, endPos, breaking)
    requires outOfDraws <==> KeepsWalking(current, endPos, s, params)
    ensures Walk(initial, endPosition, s, params, trig, inObject, draws, path, outOfDraws,
                 froms, endPos, breakingAt, clippedAt, updateDraw)
  {
    TraceFacts(froms, path, breakingAt, updateDraw, k, draws, s, params, inObject);
  }

  lemma GuardEndSnoc(endPosition: Pos, path: seq<Point>, clippedAt: seq<bool>, p: Point, c: bool)
    requires |path| == |clippedAt|
    ensures GuardEnd(endPosition, path + [p], clippedAt + [c]) == if c then p.center else GuardEnd(endPosition, path, clippedAt)
  {
    assert (path + [p])[..|path|] == path;
    assert (clippedAt + [c])[..|path|] == clippedAt;
  }

  /** A step that moved as `Step` promises extends the steering of the
      steps before it. */
  lemma SteeredExtend(froms: seq<Point>, path: seq<Point>, breakingAt: seq<bool>, clippedAt: seq<bool>,
                      endPosition: Pos, s: Surface, params: PathParameters, trig: Trig,
                      from: Point, p: Point, b: bool, c: bool)
    requires s.Wf()
    requires Steered(froms, path, breakingAt, clippedAt, endPosition, s, params, trig)
    requires Moved(from, p, b, c, endPosition, s, params, trig)
    ensures Steered(froms + [from], path + [p], breakingAt + [b], clippedAt + [c], endPosition, s, params, trig)
  {
    var froms', path', breakingAt', clippedAt' := froms + [from], path + [p], breakingAt + [b], clippedAt + [c];
    forall i | 0 <= i < |path|
      ensures Moved(froms'[i], path'[i], breakingAt'[i], clippedAt'[i], endPosition, s, params, trig)
    {
      assert froms'[i] == froms[i] && path'[i] == path[i] && breakingAt'[i] == breakingAt[i] && clippedAt'[i] == clippedAt[i];
    }
  }

  /** A step whose flag was refreshed as `Step` promises extends the
      refreshing of the steps before it. */
  lemma RefreshedExtend(froms: seq<Point>, breakingAt: seq<bool>, updateDraw: seq<nat>, draws: seq<real>,
                        params: PathParameters, inObject: Point -> bool, from: Point, b: bool, u: nat)
    requires Refreshed(froms, breakingAt, updateDraw, draws, params, inObject)
    requires |froms| > 0 && !inObject(froms[|froms| - 1]) ==>
      2 <= u < |draws| && (b <==> draws[u - 2] < params.breakthroughChance)
    ensures Refreshed(froms + [from], breakingAt + [b], updateDraw + [u], draws, params, inObject)
  {
    var froms', breakingAt', updateDraw' := froms + [from], breakingAt + [b], updateDraw + [u];
    forall i | 1 <= i < |breakingAt'| && !inObject(froms'[i - 1])
      ensures 2 <= updateDraw'[i] < |draws| && (breakingAt'[i] <==> draws[updateDraw'[i] - 2] < params.breakthroughChance)
    {
      assert froms'[i - 1] == froms[i - 1];
      if i < |breakingAt| {
        assert breakingAt'[i] == breakingAt[i] && updateDraw'[i] == updateDraw[i];
      }
    }
  }

  /** What the steps taken so far satisfy: step `i` goes from `froms[i]` to
      `path[i]`. The triggers keep the shifted indices from feeding each
      other. */
  ghost predicate Trace(froms: seq<Point>, path: seq<Point>, breakingAt: seq<bool>, updateDraw: seq<nat>, k: nat,
                        draws: seq<real>, s: Surface, params: PathParameters, inObject: Point -> bool)
    requires s.Wf()
  {
    |froms| == |breakingAt| == |updateDraw| == |path|
    && (forall i {:trigger froms[i]} :: 1 <= i < |path| ==> froms[i] == path[i - 1])
    && (forall i {:trigger updateDraw[i]} :: 0 <= i < |path| ==>
          updateDraw[i] < k && StepOK(froms[i], path[i], breakingAt[i], updateDraw[i], draws, s, params))
    && (|path| > 0 ==> breakingAt[0])
    && (forall i {:trigger breakingAt[i]} :: 1 <= i < |path| && inObject(froms[i - 1]) ==> breakingAt[i])
    && (forall i, j :: 0 <= i < j < |path| ==> updateDraw[i] < updateDraw[j])
  }

  /** The per-step facts a trace holds, spelled out. */
  lemma TraceFacts(froms: seq<Point>, path: seq<Point>, breakingAt: seq<bool>, updateDraw: seq<nat>, k: nat,
                   draws: seq<real>, s: Surface, params: PathParameters, inObject: Point -> bool)
    requires s.Wf() && Trace(froms, path, breakingAt, updateDraw, k, draws, s, params, inObject)
    ensures forall i {:trigger froms[i]} :: 1 <= i < |path| ==> froms[i] == path[i - 1]
    ensures forall i {:trigger updateDraw[i]} :: 0 <= i < |path| ==>
      StepOK(froms[i], path[i], breakingAt[i], updateDraw[i], draws, s, params)
    ensures forall i {:trigger breakingAt[i]} :: 1 <= i < |path| && inObject(froms[i - 1]) ==> breakingAt[i]
  {
  }

  /** A sound step drawn at `u` extends the sound steps of a trace whose
      draws all precede `k`. */
  lemma StepsExtend(froms: seq<Point>, path: seq<Point>, breakingAt: seq<bool>, updateDraw: seq<nat>, k: nat,
                    draws: seq<real>, s: Surface, params: PathParameters,
                    from: Point, p: Point, b: bool, u: nat, k2: nat)
    requires s.Wf() && |froms| == |breakingAt| == |updateDraw| == |path|
    requires forall i {:trigger updateDraw[i]} :: 0 <= i < |path| ==>
      updateDraw[i] < k && StepOK(froms[i], path[i], breakingAt[i], updateDraw[i], draws, s, params)
    requires from.width >= params.minWidth && WithinSurface(from, s)
    requires k <= u < k2 <= |draws| && WidthStep(from, p, b, draws[u], s, params)
    ensures var froms', path', breakingAt', updateDraw' := froms + [from], path + [p], breakingAt + [b], updateDraw + [u];
      forall i {:trigger updateDraw'[i]} :: 0 <= i < |path'| ==>
        updateDraw'[i] < k2 && StepOK(froms'[i], path'[i], breakingAt'[i], updateDraw'[i], draws, s, params)
  {
    var froms', path', breakingAt', updateDraw' := froms + [from], path + [p], breakingAt + [b], updateDraw + [u];
    forall i | 0 <= i < |path'|
      ensures updateDraw'[i] < k2 && StepOK(froms'[i], path'[i], breakingAt'[i], updateDraw'[i], draws, s, params)
    {
      if i < |path| {
        assert updateDraw[i] == updateDraw'[i];
      }
    }
  }

  /** A step from the point the walk is at extends the trace. */
  lemma TraceExtend(froms: seq<Point>, path: seq<Point>, breakingAt: seq<bool>, updateDraw: seq<nat>, k: nat,
                    draws: seq<real>, s: Surface, params: PathParameters, inObject: Point -> bool,
                    from: Point, p: Point, b: bool, u: nat, k2: nat)
    requires s.Wf() && Trace(froms, path, breakingAt, updateDraw, k, draws, s, params, inObject)
    requires |path| > 0 ==> from == path[|path| - 1]
    requires from.width >= params.minWidth && WithinSurface(from, s)
    requires k <= u < k2 <= |draws|
    requires WidthStep(from, p, b, draws[u], s, params)
    requires |path| == 0 ==> b
    requires |path| > 0 && inObject(froms[|path| - 1]) ==> b
    ensures Trace(froms + [from], path + [p], breakingAt + [b], updateDraw + [u], k2, draws, s, params, inObject)
  {
    var froms', path', breakingAt', updateDraw' := froms + [from], path + [p], breakingAt + [b], updateDraw + [u];
    forall i | 1 <= i < |path'|
      ensures froms'[i] == path'[i - 1]
    {
      if i < |path| {
        assert froms[i] == path[i - 1];
      }
    }
    StepsExtend(froms, path, breakingAt, updateDraw, k, draws, s, params, from, p, b, u, k2);
    forall i, j | 0 <= i < j < |path'|
      ensures updateDraw'[i] < updateDraw'[j]
    {
      if j == |path| {
        assert updateDraw'[i] == updateDraw[i] < k;
      }
    }
    forall i | 1 <= i < |path'| && inObject(froms'[i - 1])
      ensures breakingAt'[i]
    {
      if i < |path| {
        assert breakingAt[i] == breakingAt'[i];
      }
    }
  }

  /** The body of the loop of `generate_path`: one step from `current`
      heading for `endPosition`, using the draws from index `k` on. It
      returns the new point, whether the step was clipped, the breakthrough
      flag the step used, the index of the width update draw and the index
      of the next unused draw. */
  method Step(current: Point, endPosition: Pos, breaking: bool, s: Surface, params: PathParameters,
              trig: Trig, draws: seq<real>, k: nat)
    returns (newPoint: Point, clipped: bool, stepBreaking: bool, used: nat, next: nat)
    requires s.Wf() && InRange(current.center, s) && k + 3 <= |draws|
    requires forall j :: 0 <= j < |draws| ==> 0.0 <= draws[j] < 1.0
    ensures breaking ==> stepBreaking
    ensures !breaking ==> (stepBreaking <==> draws[k] < params.breakthroughChance)
    ensures used == (if breaking then k + 1 else k + 2) && next == used + 1
    ensures Moved(current, newPoint, stepBreaking, clipped, endPosition, s, params, trig)
    ensures WidthStep(current, newPoint, stepBreaking, draws[used], s, params)
  {
    var i := k;
    stepBreaking := breaking;
    // a small chance to ignore the gradient
    if !stepBreaking {
      if draws[i] < params.breakthroughChance {
        stepBreaking := true;
      }
      i := i + 1;
    }
    var direction := Heading(current, endPosition, stepBreaking, s, params, trig);

    // the next centre, clipped to the surface
    var target := StepTarget(current, direction, params);
    clipped := !InRange(target, s);
    var center := if clipped then ClipToSurface(target, s) else target;

    var angle := trig.atan2(direction.y, direction.x);
    var width := NextWidth(current.width, s.distanceTransform.At(center), stepBreaking, draws[i], draws[i + 1], params);
    used, next := i + 1, i + 2;
    newPoint := Point(angle, width, center);
  }

  /** The unit vector of the gradient angle at the current centre. */
  function GradientVector(current: Point, s: Surface, trig: Trig): RVec
    requires s.Wf() && InRange(current.center, s)
  {
    var gradientAngle := s.gradientAngles.At(current.center);
    RVec(trig.cos(gradientAngle), trig.sin(gradientAngle))
  }

  /** `factor * g + (1 - factor) * e`. */
  function Blend(factor: real, g: RVec, e: RVec): RVec
  {
    RVec(factor * g.x + (1.0 - factor) * e.x, factor * g.y + (1.0 - factor) * e.y)
  }

  /** The heading of a step: the blend factor is 0 while breaking through
      and `gradient_influence` otherwise, so a step breaking through heads
      straight for the end and any other step blends in the gradient. */
  function Heading(current: Point, endPos: Pos, breaking: bool, s: Surface, params: PathParameters, trig: Trig)
    : (h: RVec)
    requires s.Wf() && InRange(current.center, s)
    ensures breaking ==> h == Normalised(EndPointVector(current, endPos, trig), trig)
    ensures !breaking ==> h == Normalised(Blend(params.gradientInfluence, GradientVector(current, s, trig),
                                                EndPointVector(current, endPos, trig)), trig)
  {
    var factor := if !breaking then params.gradientInfluence else 0.0;
    var e := EndPointVector(current, endPos, trig);
    assert breaking ==> Blend(factor, GradientVector(current, s, trig), e) == e;
    Normalised(Blend(factor, GradientVector(current, s, trig), e), trig)
  }

  /** `(center + step_size * heading).astype(int32)`. */
  function StepTarget(current: Point, h: RVec, params: PathParameters): Pos
  {
    Pos(Trunc(current.center.x as real + params.stepSize * h.x), Trunc(current.center.y as real + params.stepSize * h.y))
  }

  /** `np.clip` of both coordinates to the surface. */
  function ClipToSurface(c: Pos, s: Surface): (r: Pos)
    requires s.Width() > 0 && s.Height() > 0
    ensures InRange(r, s)
    ensures InRange(c, s) ==> r == c
  {
    Pos(Clip(c.x, 0, s.Width() - 1), Clip(c.y, 0, s.Height() - 1))
  }

  /** One step moved as `generate_path` moves: from a centre on the
      surface, `step_size` along the heading its flag selects, truncated to
      a cell, clipped to the surface exactly when that cell is off it, and
      turned to the angle of the heading. */
  predicate Moved(from: Point, to: Point, breaking: bool, clipped: bool, endPos: Pos, s: Surface,
                  params: PathParameters, trig: Trig)
    requires s.Wf()
  {
    InRange(from.center, s)
    && var h := Heading(from, endPos, breaking, s, params, trig);
       var c := StepTarget(from, h, params);
       (clipped <==> !InRange(c, s))
       && to.center == (if clipped then ClipToSurface(c, s) else c)
       && to.angle == trig.atan2(h.y, h.x)
  }

  function EndPointVector(current: Point, endPos: Pos, trig: Trig): RVec
  {
    var endPointAngle := trig.atan2((endPos.y - current.center.y) as real, (endPos.x - current.center.x) as real);
    RVec(trig.cos(endPointAngle), trig.sin(endPointAngle))
  }

  /** The width after a step: `u` draws the increment (uniform in
      [-max_width_grow, max_width_grow) where the crack may grow, in (-1, 0]
      otherwise) and `v` decides whether the width changes at all. */
  method NextWidth(width: real, distance: real, breaking: bool, u: real, v: real, params: PathParameters)
    returns (newWidth: real)
    requires 0.0 <= u < 1.0
    ensures v >= params.widthUpdateChance ==> newWidth == width
    ensures params.maxWidthGrow > 0.0 ==> newWidth - width < params.maxWidthGrow
    ensures !breaking && width >= distance ==> newWidth <= width
  {
    var widthIncrement := if width < distance || breaking then (-1.0 + 2.0 * u) * params.maxWidthGrow else -u;
    if params.maxWidthGrow > 0.0 {
      IncrementBelowGrow(u, params.maxWidthGrow);
    }
    newWidth := if v < params.widthUpdateChance then width + widthIncrement else width;
  }
}
