/** `crack_generation/path_functions/collision.py`: is a point on the
    surface, and is it on the surface's outer edge. Both read only the point's
    centre and the height map's shape. */
module Collision {
  import opened Geometry
  import opened CrackModel

  /** `within_surface`: 0 <= x < width and 0 <= y < height. */
  predicate WithinSurface(p: Point, s: Surface)
  {
    0 <= p.center.x < s.Width() && 0 <= p.center.y < s.Height()
  }

  /** `on_edge`: the point lies on one of the four border lines. */
  predicate OnEdge(p: Point, s: Surface)
  {
    p.center.x == 0 || p.center.x == s.Width() - 1 || p.center.y == 0 || p.center.y == s.Height() - 1
  }

  /** The open interior of the surface: off the border lines on both axes. */
  predicate Interior(c: Pos, s: Surface)
  {
    0 < c.x < s.Width() - 1 && 0 < c.y < s.Height() - 1
  }

  /** Inside the surface, being on the edge is exactly not being in the open
      interior. */
  lemma OnEdgeIffNotInterior(p: Point, s: Surface)
    requires WithinSurface(p, s)
    ensures OnEdge(p, s) <==> !Interior(p.center, s)
  {
  }

  /** Outside the surface the two tests are independent: a point can be "on
      the edge" without being on the surface, e.g. (0, -3). */
  lemma OnEdgeDoesNotImplyWithin(s: Surface)
    ensures OnEdge(Point(0.0, 0.0, Pos(0, -3)), s)
    ensures !WithinSurface(Point(0.0, 0.0, Pos(0, -3)), s)
  {
  }

  /** A point in the open interior is on the surface and not on its edge. */
  lemma InteriorIsWithinAndOffEdge(p: Point, s: Surface)
    requires Interior(p.center, s)
    ensures WithinSurface(p, s) && !OnEdge(p, s)
  {
  }
}
