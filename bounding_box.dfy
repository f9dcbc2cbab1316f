/** `src/dataset_generation/models/bounding_box.py`: an axis-aligned box
    given by its two corners, with its extent along x (width), z (height)
    and y (depth). */
module BoundingBox {
  import opened Numeric

  datatype Vec3 = Vec3(x: real, y: real, z: real)

  datatype Box = Box(minVertex: Vec3, maxVertex: Vec3, width: real, height: real, depth: real)

  /** The box's extents agree with its corners. */
  predicate Consistent(b: Box)
  {
    b.width == b.maxVertex.x - b.minVertex.x
    && b.height == b.maxVertex.z - b.minVertex.z
    && b.depth == b.maxVertex.y - b.minVertex.y
  }

  predicate Contains(b: Box, p: Vec3)
  {
    b.minVertex.x <= p.x <= b.maxVertex.x
    && b.minVertex.y <= p.y <= b.maxVertex.y
    && b.minVertex.z <= p.z <= b.maxVertex.z
  }

  /** The box spanned by two corners, its extents taken from their
      difference: width along x, height along z, depth along y. */
  function FromCorners(lo: Vec3, hi: Vec3): (r: Box)
    ensures Consistent(r) && r.minVertex == lo && r.maxVertex == hi
  {
    Box(lo, hi, hi.x - lo.x, hi.z - lo.z, hi.y - lo.y)
  }

  function MinVec(u: Vec3, v: Vec3): Vec3
  {
    Vec3(Min(u.x, v.x), Min(u.y, v.y), Min(u.z, v.z))
  }

  function MaxVec(u: Vec3, v: Vec3): Vec3
  {
    Vec3(Max(u.x, v.x), Max(u.y, v.y), Max(u.z, v.z))
  }

  /** `u` is at most `v` in every component. */
  predicate Below(u: Vec3, v: Vec3)
  {
    u.x <= v.x && u.y <= v.y && u.z <= v.z
  }

  /** Each component of `u` is the same component of `v` or of `w`. */
  predicate OneOf(u: Vec3, v: Vec3, w: Vec3)
  {
    (u.x == v.x || u.x == w.x) && (u.y == v.y || u.y == w.y) && (u.z == v.z || u.z == w.z)
  }

  /** `BoundingBox.combine` as written: the new maximum corner is the
      componentwise minimum of the two maximum corners. */
  function CombineAsWritten(a: Box, b: Box): (r: Box)
    ensures Consistent(r)
    ensures Below(r.minVertex, a.minVertex) && Below(r.minVertex, b.minVertex)
    ensures Below(r.maxVertex, a.maxVertex) && Below(r.maxVertex, b.maxVertex)
    ensures OneOf(r.minVertex, a.minVertex, b.minVertex) && OneOf(r.maxVertex, a.maxVertex, b.maxVertex)
  {
    FromCorners(MinVec(a.minVertex, b.minVertex), MinVec(a.maxVertex, b.maxVertex))
  }

  /** The unit cube combined with the cube of side 2 is the unit cube: the
      larger cube's far corner falls outside the combination. */
  lemma CombineAsWrittenDropsPoint()
    ensures var a := FromCorners(Vec3(0.0, 0.0, 0.0), Vec3(1.0, 1.0, 1.0));
      var b := FromCorners(Vec3(0.0, 0.0, 0.0), Vec3(2.0, 2.0, 2.0));
      Contains(b, Vec3(2.0, 2.0, 2.0)) && !Contains(CombineAsWritten(a, b), Vec3(2.0, 2.0, 2.0))
  {
  }

  /** Even as written, combining is symmetric, and a box combined with
      itself keeps its corners. */
  lemma CombineAsWrittenCommutes(a: Box, b: Box)
    ensures CombineAsWritten(a, b) == CombineAsWritten(b, a)
  {
  }

  lemma CombineAsWrittenSelf(a: Box)
    ensures CombineAsWritten(a, a).minVertex == a.minVertex && CombineAsWritten(a, a).maxVertex == a.maxVertex
  {
  }

  /** `BoundingBox.combine` as its documentation intends: the smallest box
      holding both, the new maximum corner being the componentwise maximum. */
  function Combine(a: Box, b: Box): (r: Box)
    ensures Consistent(r)
  {
    FromCorners(MinVec(a.minVertex, b.minVertex), MaxVec(a.maxVertex, b.maxVertex))
  }

  /** Every point of either box lies in the combination. */
  lemma CombineContainsBoth(a: Box, b: Box, p: Vec3)
    requires Contains(a, p) || Contains(b, p)
    ensures Contains(Combine(a, b), p)
  {
  }

  /** The combination is the smallest box holding both: any box holding the
      corners of both boxes holds the combination's corners. */
  lemma CombineSmallest(a: Box, b: Box, c: Box)
    requires Contains(c, a.minVertex) && Contains(c, a.maxVertex)
    requires Contains(c, b.minVertex) && Contains(c, b.maxVertex)
    ensures Contains(c, Combine(a, b).minVertex) && Contains(c, Combine(a, b).maxVertex)
  {
  }

  lemma CombineCommutes(a: Box, b: Box)
    ensures Combine(a, b) == Combine(b, a)
  {
  }

  lemma CombineAssociates(a: Box, b: Box, c: Box)
    ensures Combine(Combine(a, b), c) == Combine(a, Combine(b, c))
  {
  }

  /** A box whose extents agree with its corners combines with itself into
      itself. */
  lemma CombineSelf(a: Box)
    requires Consistent(a)
    ensures Combine(a, a) == a
  {
  }
}
