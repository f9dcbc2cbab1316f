/** `crack_generation/path_functions/trajectory.py`: the pivot points that
    steer a crack, generated one from the other until one falls off the
    surface.

    The source calls `generate_pivot_point` with four of its five arguments;
    the model takes the pivot generator as the parameter `nextPivot`, which
    maps the number of the call (from 0) and a pivot to the next pivot: each
    call makes fresh `randint`, `choice` and `triangular` draws, so the
    same pivot may have a different successor on a later call. The direction draw `dirDraw` picks left below
    one half and right otherwise, `pick` is the draw that chooses the start
    and `numPivotPoints` the `randint(1, max_pivot_points)` draw. */
module Trajectory {
  import opened Numeric
  import opened Geometry
  import opened CrackModel
  import opened Collision
  import PivotPoint

  /** The first `n` points of the orbit of `p` under `f`, without `p`:
      point `i` is the image of the one before it under call `i`. */
  function Orbit(f: (nat, Pos) -> Pos, p: Pos, n: nat): (r: seq<Pos>)
    ensures |r| == n
  {
    if n == 0 then []
    else
      var prev := Orbit(f, p, n - 1);
      prev + [f(n - 1, if n == 1 then p else prev[n - 2])]
  }

  /** A shorter orbit is a prefix of a longer one. */
  lemma {:induction false} OrbitPrefix(f: (nat, Pos) -> Pos, p: Pos, m: nat, n: nat)
    requires m <= n
    ensures Orbit(f, p, n)[..m] == Orbit(f, p, m)
    decreases n
  {
    if m < n {
      OrbitPrefix(f, p, m, n - 1);
      assert Orbit(f, p, n)[..n - 1] == Orbit(f, p, n - 1);
    }
  }

  /** Point `i` of the orbit is call `i` of `f` on the one before, the
      first on `p`. */
  lemma OrbitStep(f: (nat, Pos) -> Pos, p: Pos, n: nat, i: nat)
    requires i < n
    ensures Orbit(f, p, n)[i] == f(i, if i == 0 then p else Orbit(f, p, n)[i - 1])
  {
    OrbitPrefix(f, p, i + 1, n);
    assert Orbit(f, p, n)[i] == Orbit(f, p, i + 1)[i];
    if i > 0 {
      assert Orbit(f, p, n)[i - 1] == Orbit(f, p, i + 1)[i - 1];
    }
  }

  predicate OnSurface(c: Pos, surface: Surface)
  {
    WithinSurface(Point(0.0, 0.0, c), surface)
  }

  /** `generate_pivot_trajectory`. `ok` is false when no start point could
      be determined. Otherwise the pivots, which exclude the start, are the
      orbit of the start's centre: all but the last lie on the surface, and a
      list shorter than `numPivotPoints` ends with the first pivot that left
      it. */
  method GeneratePivotTrajectory(surface: Surface, params: GenerationParameters, dirDraw: real, pick: real,
                                 numPivotPoints: int, nextPivot: (nat, Pos) -> Pos)
    returns (ok: bool, start: Point, pivots: seq<Pos>)
    requires surface.Wf() && 0.0 <= dirDraw < 1.0 && 0.0 <= pick < 1.0
    requires 1 <= numPivotPoints < params.trajectoryParameters.maxPivotPoints
    ensures var direction := if dirDraw < 0.5 then PivotPoint.PIVOT_DIRECTION_LEFT else PivotPoint.PIVOT_DIRECTION_RIGHT;
      var s := PivotPoint.DetermineStartPoint(surface, params.trajectoryParameters, direction,
                                              params.dimensionParameters.width, pick);
      (ok <==> s.Some?) && (ok ==> start == s.value)
    ensures ok ==> 1 <= |pivots| <= numPivotPoints
    ensures ok ==> pivots == Orbit(nextPivot, start.center, |pivots|)
    ensures ok ==> forall i :: 0 <= i < |pivots| - 1 ==> OnSurface(pivots[i], surface)
    ensures ok && |pivots| < numPivotPoints ==> !OnSurface(pivots[|pivots| - 1], surface)
  {
    var direction := if dirDraw < 0.5 then PivotPoint.PIVOT_DIRECTION_LEFT else PivotPoint.PIVOT_DIRECTION_RIGHT;
    var s := PivotPoint.DetermineStartPoint(surface, params.trajectoryParameters, direction,
                                            params.dimensionParameters.width, pick);
    if s.None? {
      return false, Point(0.0, 0.0, Pos(0, 0)), [];
    }
    ok, start := true, s.value;
    pivots := FollowPivots(start.center, numPivotPoints, nextPivot, surface);
  }

  /** The loop of `generate_pivot_trajectory`: up to `numPivotPoints` pivots
      after `first`, stopping right after the first one off the surface. */
  method FollowPivots(first: Pos, numPivotPoints: int, nextPivot: (nat, Pos) -> Pos, surface: Surface)
    returns (pivots: seq<Pos>)
    requires 1 <= numPivotPoints
    ensures 1 <= |pivots| <= numPivotPoints
    ensures pivots == Orbit(nextPivot, first, |pivots|)
    ensures forall i :: 0 <= i < |pivots| - 1 ==> OnSurface(pivots[i], surface)
    ensures |pivots| < numPivotPoints ==> !OnSurface(pivots[|pivots| - 1], surface)
  {
    var all := [first];
    var idx := 1;
    while idx <= numPivotPoints
      invariant 1 <= idx <= numPivotPoints + 1 && |all| == idx
      invariant all == [first] + Orbit(nextPivot, first, idx - 1)
      invariant forall i :: 1 <= i < idx ==> OnSurface(all[i], surface)
    {
      var next := nextPivot(idx - 1, all[idx - 1]);
      assert all[1..] == Orbit(nextPivot, first, idx - 1);
      all := all + [next];
      if !OnSurface(next, surface) {
        idx := idx + 1;
        break;
      }
      idx := idx + 1;
    }
    pivots := all[1..];
  }
}
