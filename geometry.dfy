/** Integer grid cells, real vectors, rectangular grids indexed `[row, column]`
    as NumPy does, and the transcendental functions the generator uses.
    The transcendental functions are passed in as values: the model never
    assumes anything about them beyond the ranges that `Trig.Bounded` states. */
module Geometry {
  import opened Numeric

  /** An integer position `(x, y)`: x is the column, y the row. */
  datatype Pos = Pos(x: int, y: int)

  datatype RVec = RVec(x: real, y: real)

  function ToReal(p: Pos): RVec { RVec(p.x as real, p.y as real) }

  /** `cos`, `sin`, `arctan2(y, x)` and `sqrt` as supplied by NumPy. */
  datatype Trig = Trig(cos: real -> real, sin: real -> real, atan2: (real, real) -> real, sqrt: real -> real)
  {
    ghost predicate Bounded()
    {
      forall a :: -1.0 <= cos(a) <= 1.0 && -1.0 <= sin(a) <= 1.0
    }
  }

  /** `np.rint(v).astype(int)`: the cell nearest to a real position. */
  function RintPos(v: RVec): Pos { Pos(Rint(v.x), Rint(v.y)) }

  /** `v / np.linalg.norm(v)`; a zero vector is left as it is. */
  function Normalised(v: RVec, trig: Trig): (r: RVec)
    ensures trig.sqrt(v.x * v.x + v.y * v.y) != 0.0 ==>
      r.x * trig.sqrt(v.x * v.x + v.y * v.y) == v.x && r.y * trig.sqrt(v.x * v.x + v.y * v.y) == v.y
    ensures trig.sqrt(v.x * v.x + v.y * v.y) == 0.0 ==> r == v
  {
    var n := trig.sqrt(v.x * v.x + v.y * v.y);
    if n != 0.0 then RVec(v.x / n, v.y / n) else v
  }

  /** `np.linalg.norm(v) > d`, decided without a square root. */
  predicate NormExceeds(v: RVec, d: real)
  {
    d < 0.0 || v.x * v.x + v.y * v.y > d * d
  }

  /** A rectangular grid (a 2-D NumPy array) with `rows` rows of `cols` cells. */
  datatype Grid<T> = Grid(rows: nat, cols: nat, cells: seq<seq<T>>)
  {
    predicate Wf()
    {
      |cells| == rows && forall r :: 0 <= r < rows ==> |cells[r]| == cols
    }

    predicate Contains(p: Pos)
    {
      0 <= p.x < cols && 0 <= p.y < rows
    }

    /** `grid[p.y, p.x]` for a position inside the grid. */
    function At(p: Pos): T
      requires Wf() && Contains(p)
    {
      cells[p.y][p.x]
    }

    /** `grid[p.y, p.x]` with NumPy's indexing: negative indices count
        from the end, anything else out of range raises IndexError (None). */
    function Lookup(p: Pos): (r: Option<T>)
      requires Wf()
      ensures Contains(p) ==> r == Some(At(p))
      ensures r.Some? <==> -(rows as int) <= p.y < rows && -(cols as int) <= p.x < cols
    {
      match (PyIndex(p.y, rows), PyIndex(p.x, cols))
      case (Some(row), Some(col)) => Some(cells[row][col])
      case _ => None
    }

    predicate SameShape<U>(other: Grid<U>)
    {
      rows == other.rows && cols == other.cols
    }
  }
}
