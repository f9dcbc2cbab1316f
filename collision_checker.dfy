/** `crack_generation/operations/collision_checker.py`: the collision checker
    keeps the object mask it was built with and answers two queries on it.
    It never changes the mask, so it is a value here. */
module CollisionChecker {
  import opened Geometry
  import Collision
  import CrackModel

  datatype CollisionChecker = CollisionChecker(mask: Grid<bool>)
  {
    /** `within_bounds`: strictly inside, the one-cell border excluded. */
    predicate WithinBounds(p: Pos)
    {
      0 < p.x < mask.cols - 1 && 0 < p.y < mask.rows - 1
    }

    /** `within_bounds` on a real position (the walk of
        `crack_path_generator.py` calls it on its unrounded centre). */
    predicate WithinBoundsReal(v: RVec)
    {
      0.0 < v.x < (mask.cols - 1) as real && 0.0 < v.y < (mask.rows - 1) as real
    }

    /** `in_object`: within bounds and on a brick cell. The bounds test comes
        first, so the mask is only read at a valid index (the call to `At`
        below is checked for that). */
    predicate InObject(p: Pos)
      requires mask.Wf()
    {
      WithinBounds(p) && mask.At(p)
    }
  }

  /** `CollisionChecker(surface)` keeps the mask it is given, unchanged. */
  function Create(mask: Grid<bool>): (c: CollisionChecker)
    ensures c.mask == mask
  {
    CollisionChecker(mask)
  }

  lemma InObjectImpliesWithinBounds(c: CollisionChecker, p: Pos)
    requires c.mask.Wf() && c.InObject(p)
    ensures c.WithinBounds(p) && c.mask.Contains(p)
  {
  }

  /** A position is in an object exactly when it is within bounds and its
      mask cell is set. */
  lemma InObjectIff(c: CollisionChecker, p: Pos)
    requires c.mask.Wf()
    ensures c.InObject(p) <==> c.WithinBounds(p) && c.mask.cells[p.y][p.x]
  {
  }

  /** On an integer position both forms of `within_bounds` agree, and a
      real position within bounds rounds to a cell of the mask. */
  lemma WithinBoundsRealAgrees(c: CollisionChecker, p: Pos, v: RVec)
    ensures c.WithinBoundsReal(ToReal(p)) <==> c.WithinBounds(p)
    ensures c.WithinBoundsReal(v) ==> c.mask.Contains(RintPos(v))
  {
  }

  /** A mask with fewer than three rows or columns has no position within
      bounds at all. */
  lemma NarrowGridHasNoBounds(c: CollisionChecker, p: Pos)
    requires c.mask.rows < 3 || c.mask.cols < 3
    ensures !c.WithinBounds(p)
  {
  }

  /** The checker's bounds are the open interior of the surface of
      `path_functions/collision.py` when both have the same shape. */
  lemma WithinBoundsIsInterior(c: CollisionChecker, s: CrackModel.Surface, p: Pos)
    requires c.mask.rows == s.Height() && c.mask.cols == s.Width()
    ensures c.WithinBounds(p) <==> Collision.Interior(p, s)
    ensures c.WithinBounds(p) <==>
      Collision.WithinSurface(CrackModel.Point(0.0, 0.0, p), s) && !Collision.OnEdge(CrackModel.Point(0.0, 0.0, p), s)
  {
  }
}
