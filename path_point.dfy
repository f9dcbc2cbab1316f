/** `crack_generation/path_functions/point.py`: the two side points of a
    crack point, half a width away from its centre on either side,
    perpendicular to its heading. */
module PathPoint {
  import opened Numeric
  import opened Geometry
  import opened CrackModel

  /** The real offset `width / 2 * (-sin angle, cos angle)`. */
  function Offset(p: Point, trig: Trig): RVec
  {
    RVec(p.width / 2.0 * -trig.sin(p.angle), p.width / 2.0 * trig.cos(p.angle))
  }

  /** `point_to_coords`: the top point `rint(center + offset)` and the bottom
      point `rint(center - offset)`. Each lies within half a cell of the exact
      side point on both axes, and the two are mirrored exactly around the
      centre: rounding half to even never breaks the symmetry. */
  function PointToCoords(p: Point, trig: Trig): (r: (Pos, Pos))
    ensures var o := Offset(p, trig);
      Abs(r.0.x as real - (p.center.x as real + o.x)) <= 0.5 && Abs(r.0.y as real - (p.center.y as real + o.y)) <= 0.5
      && Abs(r.1.x as real - (p.center.x as real - o.x)) <= 0.5 && Abs(r.1.y as real - (p.center.y as real - o.y)) <= 0.5
    ensures r.0.x + r.1.x == 2 * p.center.x && r.0.y + r.1.y == 2 * p.center.y
  {
    SidePair(p.center, Offset(p, trig))
  }

  /** The centre `c` plus and minus the offset `o`, each rounded. */
  function SidePair(c: Pos, o: RVec): (r: (Pos, Pos))
    ensures Abs(r.0.x as real - (c.x as real + o.x)) <= 0.5 && Abs(r.0.y as real - (c.y as real + o.y)) <= 0.5
      && Abs(r.1.x as real - (c.x as real - o.x)) <= 0.5 && Abs(r.1.y as real - (c.y as real - o.y)) <= 0.5
    ensures r.0.x + r.1.x == 2 * c.x && r.0.y + r.1.y == 2 * c.y
  {
    RintSymmetricPair(c.x, o.x);
    RintSymmetricPair(c.y, o.y);
    (Pos(Rint(c.x as real + o.x), Rint(c.y as real + o.y)),
     Pos(Rint(c.x as real - o.x), Rint(c.y as real - o.y)))
  }

  /** A point of zero width has both side points on its centre. */
  lemma ZeroWidthCollapses(p: Point, trig: Trig)
    requires p.width == 0.0
    ensures PointToCoords(p, trig) == (p.center, p.center)
  {
    RintOfInt(p.center.x);
    RintOfInt(p.center.y);
  }

  /** For bounded trig functions a side point is never more than
      `width / 2 + 0.5` cells from the centre along either axis. */
  lemma SidePointsNearCenter(p: Point, trig: Trig)
    requires trig.Bounded() && p.width >= 0.0
    ensures var r := PointToCoords(p, trig);
      Abs((r.0.x - p.center.x) as real) <= p.width / 2.0 + 0.5 && Abs((r.0.y - p.center.y) as real) <= p.width / 2.0 + 0.5
  {
    var o := Offset(p, trig);
    var h := p.width / 2.0;
    OffsetWithinHalfWidth(p, trig);
    var r := PointToCoords(p, trig);
    assert r.0 == Pos(Rint(p.center.x as real + o.x), Rint(p.center.y as real + o.y));
    RoundedNear(p.center.x, o.x, h);
    RoundedNear(p.center.y, o.y, h);
  }

  /** Each component of the offset lies within half a width of zero. */
  lemma OffsetWithinHalfWidth(p: Point, trig: Trig)
    requires trig.Bounded() && p.width >= 0.0
    ensures var o, h := Offset(p, trig), p.width / 2.0;
      -h <= o.x <= h && -h <= o.y <= h
  {
    var s, c, h := trig.sin(p.angle), trig.cos(p.angle), p.width / 2.0;
    assert -1.0 <= s <= 1.0 && -1.0 <= c <= 1.0;
    assert Offset(p, trig) == RVec(h * -s, h * c);
    ScaledUnit(h, -s);
    ScaledUnit(h, c);
  }

  /** Rounding `c + o` for an integer `c` and `o` in `[-h, h]` lands within
      `h + 0.5` of `c`. */
  lemma RoundedNear(c: int, o: real, h: real)
    requires -h <= o <= h
    ensures Abs((Rint(c as real + o) - c) as real) <= h + 0.5
  {
  }
}
