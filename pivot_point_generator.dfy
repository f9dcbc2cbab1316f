/** `crack_generation/operations/pivot_point_generator.py`: the next pivot
    point of the `operations` generation. Unlike the `path_functions`
    version it works in real pixel sizes (bricks scaled by the map's grid
    factor), does not round the triangular draw, moves upwards, and sends the
    result through the point decollider.

    The draws are inputs as in `PivotPoint`: `kw` and `kh` for the unit size,
    `u` for the choice of direction and `t` for the relative position of the
    triangular draw. `fuel` bounds the decollider's loop. */
module PivotPointGenerator {
  import opened Numeric
  import opened Geometry
  import opened CrackModel
  import CollisionChecker
  import PointDecollider
  import PivotPoint

  /** The triangular draw at relative position `t` between the ends of the
      chosen distribution: along the bottom [0, uw], along the diagonal
      [0, uw + uh], along the side [uw, uw + uh]. */
  function Displacement(which: nat, uw: real, uh: real, t: real): (d: real)
    requires which < 3 && 0.0 <= uw && 0.0 <= uh && 0.0 <= t <= 1.0
    ensures which == 0 ==> 0.0 <= d <= uw
    ensures which == 1 ==> 0.0 <= d <= uw + uh
    ensures which == 2 ==> uw <= d <= uw + uh
  {
    var left := if which == 2 then uw else 0.0;
    var right := if which == 0 then uw else uw + uh;
    Between(left, right, t);
    var d := left + t * (right - left);
    assert left <= d <= right;
    d
  }

  lemma Between(left: real, right: real, t: real)
    requires left <= right && 0.0 <= t <= 1.0
    ensures left <= left + t * (right - left) <= right
  {
    assert t * (right - left) <= 1.0 * (right - left);
  }

  /** `np.rint(v / brick) * brick` on reals. */
  function Snap(v: real, brick: real): real
    requires brick > 0.0
  {
    Rint(v / brick) as real * brick
  }

  /** A component in [0, k * brick] is snapped to `n * brick` for some whole
      number of bricks `n` in [0, k]. */
  lemma SnapInUnit(v: real, brick: real, k: int)
    requires brick > 0.0 && 0.0 <= v <= k as real * brick
    ensures 0 <= Rint(v / brick) <= k
    ensures 0.0 <= Snap(v, brick) <= k as real * brick
  {
    var q := v / brick;
    assert q * brick == v;
    assert 0.0 <= q <= k as real;
    var n := Rint(q);
    assert -0.5 <= n as real <= k as real + 0.5;
    assert 0 <= n <= k;
    ScaleWithin(n, k, brick);
  }

  /** The whole pixels of a snapped component in [0, k * brick]. */
  lemma TruncSnapInUnit(v: real, brick: real, k: int)
    requires brick > 0.0 && 0.0 <= v <= k as real * brick
    ensures 0 <= Trunc(Snap(v, brick)) && Trunc(Snap(v, brick)) as real <= k as real * brick
  {
    SnapInUnit(v, brick, k);
  }

  lemma ScaleWithin(n: int, k: int, brick: real)
    requires 0 <= n <= k && brick > 0.0
    ensures 0.0 <= n as real * brick <= k as real * brick
  {
  }

  /** `np.rint(displacement_vector / brick_projected_size) *
      brick_projected_size` in whole pixels (`astype(int)`), for bricks of
      `bw` by `bh` pixels and a unit of `kw` by `kh` bricks. */
  function SnappedVector(which: nat, bw: real, bh: real, kw: int, kh: int, t: real): (int, int)
    requires which < 3 && kw >= 1 && kh >= 1 && 0.0 <= t <= 1.0 && bw > 0.0 && bh > 0.0
  {
    var uw := kw as real * bw;
    var uh := kh as real * bh;
    var d := Displacement(which, uw, uh, t);
    (Trunc(Snap(Min(d, uw), bw)), Trunc(Snap(uh - Max(d - uw, 0.0), bh)))
  }

  /** Both components of the snapped vector lie inside the unit. */
  lemma SnappedVectorInUnit(which: nat, bw: real, bh: real, kw: int, kh: int, t: real)
    requires which < 3 && kw >= 1 && kh >= 1 && 0.0 <= t <= 1.0 && bw > 0.0 && bh > 0.0
    ensures 0 <= SnappedVector(which, bw, bh, kw, kh, t).0
    ensures SnappedVector(which, bw, bh, kw, kh, t).0 as real <= kw as real * bw
    ensures 0 <= SnappedVector(which, bw, bh, kw, kh, t).1
    ensures SnappedVector(which, bw, bh, kw, kh, t).1 as real <= kh as real * bh
  {
    var uw := kw as real * bw;
    var uh := kh as real * bh;
    var d := Displacement(which, uw, uh, t);
    TruncSnapInUnit(Min(d, uw), bw, kw);
    TruncSnapInUnit(uh - Max(d - uw, 0.0), bh, kh);
  }

  /** The position before decollision, for bricks of `bw` by `bh` pixels:
      `position + (direction, -1) * trunc(snapped vector)`. */
  function Target(position: Pos, direction: int, which: nat, bw: real, bh: real, kw: int, kh: int, t: real): Pos
    requires which < 3 && kw >= 1 && kh >= 1 && 0.0 <= t <= 1.0 && bw > 0.0 && bh > 0.0
  {
    Moved(position, direction, SnappedVector(which, bw, bh, kw, kh, t))
  }

  function Moved(position: Pos, direction: int, v: (int, int)): Pos
  {
    Pos(position.x + direction * v.0, position.y - v.1)
  }

  /** The pivot moves upwards by at most `kh` bricks and sideways, in the
      pivot direction, by at most `kw` bricks. */
  lemma TargetMovesUpAndAlong(position: Pos, direction: int, which: nat, bw: real, bh: real, kw: int, kh: int, t: real)
    requires which < 3 && kw >= 1 && kh >= 1 && 0.0 <= t <= 1.0 && bw > 0.0 && bh > 0.0
    requires direction == 1 || direction == -1
    ensures 0 <= position.y - Target(position, direction, which, bw, bh, kw, kh, t).y
    ensures (position.y - Target(position, direction, which, bw, bh, kw, kh, t).y) as real <= kh as real * bh
    ensures 0 <= direction * (Target(position, direction, which, bw, bh, kw, kh, t).x - position.x)
    ensures (direction * (Target(position, direction, which, bw, bh, kw, kh, t).x - position.x)) as real <= kw as real * bw
  {
    SnappedVectorInUnit(which, bw, bh, kw, kh, t);
    MovedBy(position, direction, SnappedVector(which, bw, bh, kw, kh, t));
  }

  lemma MovedBy(position: Pos, direction: int, v: (int, int))
    requires direction == 1 || direction == -1
    ensures position.y - Moved(position, direction, v).y == v.1
    ensures direction * (Moved(position, direction, v).x - position.x) == v.0
  {
  }

  /** `Target` with the bricks of `surface` scaled by its map's grid factor. */
  function SurfaceTarget(position: Pos, direction: int, which: nat, surface: SurfaceParameters, kw: int, kh: int, t: real): Pos
    requires which < 3 && kw >= 1 && kh >= 1 && 0.0 <= t <= 1.0
    requires surface.brickWidth * surface.surfaceMap.gridFactor > 0.0
    requires surface.brickHeight * surface.surfaceMap.gridFactor > 0.0
  {
    Target(position, direction, which, surface.brickWidth * surface.surfaceMap.gridFactor,
           surface.brickHeight * surface.surfaceMap.gridFactor, kw, kh, t)
  }

  /** `PivotPointGenerator.__call__`. None when the three chances are not a
      probability distribution or the decollider does not get the target off
      the bricks within `fuel` steps. A result is never on a brick. */
  function Generate(position: Pos, direction: int, params: TrajectoryParameters, surface: SurfaceParameters,
                    trig: Trig, kw: int, kh: int, u: real, t: real, fuel: nat): (r: Option<Pos>)
    requires surface.surfaceMap.Wf()
    requires 1 <= kw < params.maxPivotBrickWidths && 1 <= kh < params.maxPivotBrickHeights
    requires 0.0 <= u < 1.0 && 0.0 <= t <= 1.0
    requires surface.brickWidth * surface.surfaceMap.gridFactor > 0.0
    requires surface.brickHeight * surface.surfaceMap.gridFactor > 0.0
    ensures r.Some? ==> !CollisionChecker.Create(surface.surfaceMap.mask).InObject(r.value)
    ensures r.Some? ==> exists which: nat ::
      which < 3 && PointDecollider.Decollided(SurfaceTarget(position, direction, which, surface, kw, kh, t), surface.surfaceMap, trig, fuel) == r
    ensures PivotPoint.Choose([params.alongBottomChance, params.alongDiagonalChance, params.alongSideChance], u).None? ==> r.None?
  {
    match PivotPoint.Choose([params.alongBottomChance, params.alongDiagonalChance, params.alongSideChance], u)
    case None => None
    case Some(which) =>
      PointDecollider.Decollided(SurfaceTarget(position, direction, which, surface, kw, kh, t), surface.surfaceMap, trig, fuel)
  }
}
