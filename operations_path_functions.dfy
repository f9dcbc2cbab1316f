/** `crack_generation/operations/path_generator_functions.py`: the helpers
    of the `operations` generation. `increment_by_chance` and
    `create_single_line` hold the same code as in the `util` generation, so
    they are defined once there and reused here. */
module OperationsPathFunctions {
  import opened Numeric
  import opened Geometry
  import opened CrackModel
  import Util = UtilPathFunctions

  /** `increment_by_chance` with `draw` the value of `random.random()`. */
  function IncrementByChance(variable: real, increment: real, chance: real, draw: real): (r: real)
    ensures r == variable + increment || r == variable
    ensures r == variable + increment <==> draw < chance || increment == 0.0
  {
    Util.IncrementByChance(variable, increment, chance, draw)
  }

  /** A 2x2 matrix, row by row. */
  datatype Mat2 = Mat2(a00: real, a01: real, a10: real, a11: real)

  function Apply(m: Mat2, v: RVec): RVec
  {
    RVec(m.a00 * v.x + m.a01 * v.y, m.a10 * v.x + m.a11 * v.y)
  }

  /** `get_rotation_matrix`: the counter-clockwise rotation by `angle`. */
  function GetRotationMatrix(angle: real, trig: Trig): (m: Mat2)
    ensures m.a00 == m.a11 == trig.cos(angle)
    ensures m.a10 == -m.a01 == trig.sin(angle)
  {
    var c := trig.cos(angle);
    var s := trig.sin(angle);
    Mat2(c, -s, s, c)
  }

  /** Rotating the vertical vector `(0, w)` gives `w * (-sin a, cos a)`, the
      offset `point_to_coords` of the `path_functions` generation uses
      directly; the two generations agree on where the side points are. */
  lemma RotatedVertical(angle: real, w: real, trig: Trig)
    ensures Apply(GetRotationMatrix(angle, trig), RVec(0.0, w)) == RVec(-trig.sin(angle) * w, trig.cos(angle) * w)
  {
  }

  /** The rotation is linear: it maps `-v` to the negation of the image of
      `v`, so a side point and its opposite are mirrored around the centre. */
  lemma RotationOfNegation(angle: real, v: RVec, trig: Trig)
    ensures Apply(GetRotationMatrix(angle, trig), RVec(-v.x, -v.y))
         == RVec(-Apply(GetRotationMatrix(angle, trig), v).x, -Apply(GetRotationMatrix(angle, trig), v).y)
  {
  }

  /** The rotation preserves the squared length whenever `cos^2 + sin^2 = 1`. */
  lemma RotationPreservesLength(angle: real, v: RVec, trig: Trig)
    requires trig.cos(angle) * trig.cos(angle) + trig.sin(angle) * trig.sin(angle) == 1.0
    ensures var w := Apply(GetRotationMatrix(angle, trig), v);
      w.x * w.x + w.y * w.y == v.x * v.x + v.y * v.y
  {
    var c, s := trig.cos(angle), trig.sin(angle);
    var w := Apply(GetRotationMatrix(angle, trig), v);
    calc {
      w.x * w.x + w.y * w.y;
      (c * v.x - s * v.y) * (c * v.x - s * v.y) + (s * v.x + c * v.y) * (s * v.x + c * v.y);
      (c * c + s * s) * (v.x * v.x) + (c * c + s * s) * (v.y * v.y);
      v.x * v.x + v.y * v.y;
    }
  }

  /** `create_single_line`: the closed outline, top line then the bottom line
      reversed then the first top point. */
  function CreateSingleLine(path: CrackPath): (r: Option<(seq<int>, seq<int>)>)
    ensures r.Some? <==> |path.topLine| > 0
    ensures r.Some? ==> |r.value.0| == |r.value.1| == |path.topLine| + |path.botLine| + 1
    ensures r.Some? ==> r.value.0[0] == r.value.0[|r.value.0| - 1] == path.topLine[0].x
    ensures r.Some? ==> r.value.1[0] == r.value.1[|r.value.1| - 1] == path.topLine[0].y
  {
    Util.CreateSingleLine(path)
  }

  /** With lines of equal length n the outline has 2n + 1 points, and
      positions n .. 2n - 1 hold the bottom line in reverse order. */
  lemma SingleLineOfEqualLines(path: CrackPath, n: nat)
    requires |path.topLine| == |path.botLine| == n > 0
    ensures var r := CreateSingleLine(path);
      r.Some? && |r.value.0| == |r.value.1| == 2 * n + 1
      && forall i :: n <= i < 2 * n ==> r.value.0[i] == path.botLine[2 * n - 1 - i].x && r.value.1[i] == path.botLine[2 * n - 1 - i].y
  {
  }
}
