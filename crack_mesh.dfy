/** `crack_generation/crack_generator_old.py`: the quad mesh built around a
    crack path. Every row of the path becomes a block of `ppl` control
    points (`ppl` = 2 + depth resolution) running from the top line to the
    bottom line, all blocks share one depth profile, the control net is
    centred on its mean, and consecutive blocks are joined by quads whose
    rows wrap around inside a block.

    The depth profile comes from `centered_gaussian`, which uses `exp`: the
    model takes that function as the parameter `gaussian`. The side faces
    come from SciPy's Delaunay triangulation: the parameter `delaunay`. */
module CrackMesh {
  import opened Numeric
  import opened Geometry
  import opened CrackModel

  datatype Vertex = Vertex(x: real, y: real, z: real)

  /** A quad face: four vertex indices, in the order they are written. */
  datatype Quad = Quad(a: int, b: int, c: int, d: int)

  /** A triangle face of the sides. */
  datatype Tri = Tri(a: int, b: int, c: int)

  /** `CrackMesh`: centred vertices, the means that were subtracted, quads
      and side triangles. */
  datatype Mesh = Mesh(vertices: seq<Vertex>, vertexMeans: Vertex, faces: seq<Quad>, sideFaces: seq<Tri>)

  /** `np.linspace(start, stop, n)`: `start + i * step` with the last entry
      set to `stop` exactly. */
  function Linspace(start: real, stop: real, n: nat): (r: seq<real>)
    ensures |r| == n
    ensures n >= 1 ==> r[0] == start
    ensures n >= 2 ==> r[n - 1] == stop
  {
    if n <= 1 then seq(n, i requires 0 <= i < n => start)
    else seq(n, i requires 0 <= i < n => if i == n - 1 then stop else start + (i as real) * ((stop - start) / ((n - 1) as real)))
  }

  /** Every sample of a linspace lies between its two ends. */
  lemma LinspaceBetween(start: real, stop: real, n: nat, i: nat)
    requires i < n
    ensures Min(start, stop) <= Linspace(start, stop, n)[i] <= Max(start, stop)
  {
    if n >= 2 && i < n - 1 {
      var step := (stop - start) / ((n - 1) as real);
      var t := (i as real) / ((n - 1) as real);
      assert 0.0 <= t <= 1.0;
      assert (i as real) * step == t * (stop - start);
      FractionBetween(start, stop, t);
    }
  }

  lemma FractionBetween(start: real, stop: real, t: real)
    requires 0.0 <= t <= 1.0
    ensures Min(start, stop) <= start + t * (stop - start) <= Max(start, stop)
  {
    var d := stop - start;
    if start <= stop {
      MulNonNegative(t, d);
      MulNonNegative(1.0 - t, d);
    } else {
      MulNonNegative(t, -d);
      MulNonNegative(1.0 - t, -d);
    }
    assert t * d + (1.0 - t) * d == d;
  }

  /** `z_points -= z_points[0]`: the profile moved so that it starts at 0. */
  function StartAtZero(raw: seq<real>): (z: seq<real>)
    requires |raw| > 0
    ensures |z| == |raw| && z[0] == 0.0
    ensures forall i, j :: 0 <= i < |z| && 0 <= j < |z| ==> z[i] - z[j] == raw[i] - raw[j]
  {
    Shifted(raw, raw[0])
  }

  /** The depth profile shared by every block: `-depth` times the Gaussian
      over `linspace(-offset * sigma, offset * sigma, ppl)`, started at 0. */
  function DepthProfile(params: DimensionParameters, ppl: nat, gaussian: (seq<real>, real) -> seq<real>): (z: seq<real>)
    requires ppl >= 1
    requires forall xs, s :: |gaussian(xs, s)| == |xs|
    ensures |z| == ppl && z[0] == 0.0
  {
    var spread := params.widthStdsOffset * params.sigma;
    var g := gaussian(Linspace(-spread, spread, ppl), params.sigma);
    StartAtZero(seq(ppl, i requires 0 <= i < ppl => -params.depth * g[i]))
  }

  lemma BlockIndex(b: int, k: int, ppl: int)
    requires ppl >= 1 && 0 <= k < ppl && b >= 0
    ensures (b * ppl + k) / ppl == b && (b * ppl + k) % ppl == k
  {
    var n := b * ppl + k;
    var q, r := n / ppl, n % ppl;
    assert n == q * ppl + r && 0 <= r < ppl;
    var d := b - q;
    assert d * ppl == r - k;
    if d >= 1 {
      AtLeastOnce(d, ppl);
    } else if d <= -1 {
      AtLeastOnce(-d, ppl);
    }
  }

  lemma AtLeastOnce(d: int, ppl: int)
    requires d >= 1 && ppl >= 1
    ensures d * ppl >= ppl
  {
    assert d * ppl == (d - 1) * ppl + ppl;
    assert (d - 1) * ppl >= 0;
  }

  lemma BlockBound(b: int, k: int, ppl: int, n: int)
    requires ppl >= 1 && 0 <= k < ppl && 0 <= b < n
    ensures b * ppl + k < n * ppl
  {
    AtLeastOnce(n - b, ppl);
    assert n * ppl == b * ppl + (n - b) * ppl;
  }

  lemma DivBound(i: int, ppl: int, n: int)
    requires ppl >= 1 && 0 <= i < n * ppl
    ensures 0 <= i / ppl < n
  {
    var q := i / ppl;
    assert q * ppl <= i;
    if q >= n {
      AtLeastOnce(q - n + 1, ppl);
    }
  }

  /** The depth profiles of the blocks fit the layout: one per row of the
      path, each with `ppl` samples. */
  predicate Profiles(path: CrackPath, zs: seq<seq<real>>, ppl: nat)
  {
    ppl >= 1 && |path.botLine| >= |path.topLine| && |zs| == |path.topLine|
    && forall b :: 0 <= b < |zs| ==> |zs[b]| == ppl
  }

  /** The same profile for every block, as the old generator uses. */
  function Shared(z: seq<real>, n: nat): (zs: seq<seq<real>>)
    ensures |zs| == n && forall b :: 0 <= b < n ==> zs[b] == z
  {
    seq(n, _ => z)
  }

  /** Vertex `i` of the control net: sample `i % ppl` of block `i / ppl`,
      on the segment from the block's top point to its bottom point, at the
      depth of the block's profile. */
  function ControlVertex(path: CrackPath, zs: seq<seq<real>>, ppl: nat, i: int): Vertex
    requires Profiles(path, zs, ppl)
    requires 0 <= i < |path.topLine| * ppl
  {
    DivBound(i, ppl, |path.topLine|);
    var b, k := i / ppl, i % ppl;
    var top, bot := path.topLine[b], path.botLine[b];
    Vertex(Linspace(top.x as real, bot.x as real, ppl)[k], Linspace(top.y as real, bot.y as real, ppl)[k], zs[b][k])
  }

  /** `calculate_control_points` as a value. */
  function ControlNet(path: CrackPath, zs: seq<seq<real>>, ppl: nat): (r: seq<Vertex>)
    requires Profiles(path, zs, ppl)
    ensures |r| == |path.topLine| * ppl
  {
    seq(|path.topLine| * ppl, i requires 0 <= i < |path.topLine| * ppl => ControlVertex(path, zs, ppl, i))
  }

  /** Block `b` starts at the top point and, when it has two samples or
      more, ends at the bottom point; every sample has the depth of its row
      in the shared profile. */
  lemma ControlNetBlock(path: CrackPath, zs: seq<seq<real>>, ppl: nat, b: int, k: int)
    requires Profiles(path, zs, ppl)
    requires 0 <= b < |path.topLine| && 0 <= k < ppl
    ensures b * ppl + k < |ControlNet(path, zs, ppl)|
    ensures ControlNet(path, zs, ppl)[b * ppl + k].z == zs[b][k]
    ensures k == 0 ==> ControlNet(path, zs, ppl)[b * ppl + k]
                       == Vertex(path.topLine[b].x as real, path.topLine[b].y as real, zs[b][0])
    ensures ppl >= 2 && k == ppl - 1 ==> ControlNet(path, zs, ppl)[b * ppl + k]
                                         == Vertex(path.botLine[b].x as real, path.botLine[b].y as real, zs[b][k])
  {
    BlockBound(b, k, ppl, |path.topLine|);
    BlockIndex(b, k, ppl);
  }

  /** `calculate_control_points`: fills a preallocated array block by
      block. */
  method CalculateControlPoints(path: CrackPath, zs: seq<seq<real>>, ppl: nat) returns (coords: array<Vertex>)
    requires Profiles(path, zs, ppl)
    ensures fresh(coords)
    ensures coords[..] == ControlNet(path, zs, ppl)
  {
    var length := |path.topLine|;
    coords := new Vertex[length * ppl](_ => Vertex(0.0, 0.0, 0.0));
    var filled := 0;
    for idx := 0 to length
      invariant filled == idx * ppl && filled <= length * ppl
      invariant forall i :: 0 <= i < filled ==> coords[i] == ControlVertex(path, zs, ppl, i)
    {
      BlockBound(idx, ppl - 1, ppl, length);
      CopyBlock(coords, path, zs, ppl, idx, filled);
      filled := filled + ppl;
    }
    assert forall i :: 0 <= i < coords.Length ==> coords[i] == ControlNet(path, zs, ppl)[i];
  }

  /** One pass of the loop of `calculate_control_points`: the `ppl` samples
      of block `idx` copied into rows `idx * ppl` onwards. */
  method CopyBlock(coords: array<Vertex>, path: CrackPath, zs: seq<seq<real>>, ppl: nat, idx: nat, filled: nat)
    requires Profiles(path, zs, ppl)
    requires coords.Length == |path.topLine| * ppl && idx < |path.topLine|
    requires filled == idx * ppl && filled + ppl <= coords.Length
    requires forall i :: 0 <= i < filled ==> coords[i] == ControlVertex(path, zs, ppl, i)
    modifies coords
    ensures forall i :: 0 <= i < filled + ppl ==> coords[i] == ControlVertex(path, zs, ppl, i)
  {
    var z := zs[idx];
    var top, bot := path.topLine[idx], path.botLine[idx];
    var xs := Linspace(top.x as real, bot.x as real, ppl);
    var ys := Linspace(top.y as real, bot.y as real, ppl);
    for k := 0 to ppl
      invariant forall i :: 0 <= i < filled + k ==> coords[i] == ControlVertex(path, zs, ppl, i)
    {
      BlockIndex(idx, k, ppl);
      coords[filled + k] := Vertex(xs[k], ys[k], z[k]);
    }
  }

  function Xs(vs: seq<Vertex>): (r: seq<real>)
    ensures |r| == |vs| && forall i :: 0 <= i < |vs| ==> r[i] == vs[i].x
  {
    seq(|vs|, i requires 0 <= i < |vs| => vs[i].x)
  }

  function Ys(vs: seq<Vertex>): (r: seq<real>)
    ensures |r| == |vs| && forall i :: 0 <= i < |vs| ==> r[i] == vs[i].y
  {
    seq(|vs|, i requires 0 <= i < |vs| => vs[i].y)
  }

  function Zs(vs: seq<Vertex>): (r: seq<real>)
    ensures |r| == |vs| && forall i :: 0 <= i < |vs| ==> r[i] == vs[i].z
  {
    seq(|vs|, i requires 0 <= i < |vs| => vs[i].z)
  }

  /** `np.mean(coords, axis=0)`. */
  function Means(vs: seq<Vertex>): Vertex
    requires |vs| > 0
  {
    Vertex(Mean(Xs(vs)), Mean(Ys(vs)), Mean(Zs(vs)))
  }

  function Minus(v: Vertex, m: Vertex): Vertex
  {
    Vertex(v.x - m.x, v.y - m.y, v.z - m.z)
  }

  /** `coords -= coords_means`, as a value. */
  function Centred(vs: seq<Vertex>): (r: seq<Vertex>)
    requires |vs| > 0
    ensures |r| == |vs|
  {
    seq(|vs|, i requires 0 <= i < |vs| => Minus(vs[i], Means(vs)))
  }

  /** After centring every coordinate column sums to zero. */
  lemma CentredColumnsSumToZero(vs: seq<Vertex>)
    requires |vs| > 0
    ensures Sum(Xs(Centred(vs))) == 0.0 && Sum(Ys(Centred(vs))) == 0.0 && Sum(Zs(Centred(vs))) == 0.0
  {
    var m := Means(vs);
    assert Xs(Centred(vs)) == Shifted(Xs(vs), m.x);
    assert Ys(Centred(vs)) == Shifted(Ys(vs), m.y);
    assert Zs(Centred(vs)) == Shifted(Zs(vs), m.z);
    CenteredSumIsZero(Xs(vs));
    CenteredSumIsZero(Ys(vs));
    CenteredSumIsZero(Zs(vs));
  }

  /** The kept means move the centred net back to where it was. */
  lemma CentredPlusMeans(vs: seq<Vertex>, i: int)
    requires |vs| > 0 && 0 <= i < |vs|
    ensures Centred(vs)[i].x + Means(vs).x == vs[i].x
    ensures Centred(vs)[i].y + Means(vs).y == vs[i].y
    ensures Centred(vs)[i].z + Means(vs).z == vs[i].z
  {
  }

  /** The in-place centring: subtracts the column means from every row and
      returns them. */
  method Centre(coords: array<Vertex>) returns (means: Vertex)
    requires coords.Length > 0
    modifies coords
    ensures means == Means(old(coords[..]))
    ensures coords[..] == Centred(old(coords[..]))
  {
    means := Means(coords[..]);
    ghost var before := coords[..];
    for i := 0 to coords.Length
      invariant forall j :: 0 <= j < i ==> coords[j] == Minus(before[j], means)
      invariant forall j :: i <= j < coords.Length ==> coords[j] == before[j]
    {
      coords[i] := Minus(coords[i], means);
    }
  }

  /** Quad `f` = `c * ppl + r` joins row `r` of column `c` to the same row of
      the next column and to the next row of both; the row after the last
      wraps to row 0 of the column. */
  function QuadFace(f: int, ppl: int): Quad
    requires ppl >= 1 && f >= 0
  {
    var c, r := f / ppl, f % ppl;
    var next := if r < ppl - 1 then f + 1 else c * ppl;
    Quad(f, f + ppl, next + ppl, next)
  }

  /** Every index of the first `(length - 1) * ppl` quads names one of the
      `length * ppl` control points. */
  lemma QuadFaceInRange(f: int, ppl: int, length: int)
    requires ppl >= 1 && 0 <= f < (length - 1) * ppl
    ensures var q := QuadFace(f, ppl);
      0 <= q.a < length * ppl && 0 <= q.b < length * ppl && 0 <= q.c < length * ppl && 0 <= q.d < length * ppl
  {
    var c, r := f / ppl, f % ppl;
    assert f == c * ppl + r;
    DivBound(f, ppl, length - 1);
    BlockBound(c, ppl - 1, ppl, length - 1);
    assert (length - 1) * ppl + ppl == length * ppl;
  }

  /** A quad's first and last corners lie in one column and its other two
      are the same rows of the next column; the last corner is the next row,
      or row 0 after the last row. */
  lemma QuadFaceShape(f: int, ppl: int)
    requires ppl >= 1 && f >= 0
    ensures var q := QuadFace(f, ppl);
      q.a == f && q.b == f + ppl && q.c == q.d + ppl
      && q.d / ppl == f / ppl
      && (f % ppl < ppl - 1 ==> q.d == f + 1)
      && (f % ppl == ppl - 1 ==> q.d % ppl == 0)
  {
    var c, r := f / ppl, f % ppl;
    assert f == c * ppl + r;
    if r < ppl - 1 {
      BlockIndex(c, r + 1, ppl);
    } else {
      BlockIndex(c, 0, ppl);
    }
  }

  /** Within one column the last corners of the quads are distinct: the
      wrap-around sends exactly one quad back to row 0. */
  lemma QuadFaceRowsDistinct(f: int, g: int, ppl: int)
    requires ppl >= 1 && f >= 0 && g >= 0 && f / ppl == g / ppl && f != g
    ensures QuadFace(f, ppl).d != QuadFace(g, ppl).d
  {
    var c := f / ppl;
    assert f == c * ppl + f % ppl && g == c * ppl + g % ppl;
    assert f % ppl != g % ppl;
  }

  /** The nested face loops of `CrackGenerator.__call__`: quad `c * ppl + r`
      for every column but the last and every row. */
  method QuadFaces(length: nat, ppl: nat) returns (faces: array<Quad>)
    requires length >= 1 && ppl >= 1
    ensures faces.Length == (length - 1) * ppl
    ensures forall f :: 0 <= f < faces.Length ==> faces[f] == QuadFace(f, ppl)
  {
    faces := new Quad[(length - 1) * ppl](_ => Quad(0, 0, 0, 0));
    var filled := 0;
    for column := 0 to length - 1
      invariant filled == column * ppl && filled <= (length - 1) * ppl
      invariant forall f :: 0 <= f < filled ==> faces[f] == QuadFace(f, ppl)
    {
      BlockBound(column, ppl - 1, ppl, length - 1);
      FillColumn(faces, column, filled, ppl);
      filled := filled + ppl;
      assert filled == (column + 1) * ppl;
    }
  }

  /** One pass of the inner face loop: the quads of the column starting at
      `base`, written after those of the earlier columns. */
  method FillColumn(faces: array<Quad>, c: nat, base: nat, ppl: nat)
    modifies faces
    requires ppl >= 1 && base == c * ppl && base + ppl <= faces.Length
    requires forall f :: 0 <= f < base ==> faces[f] == QuadFace(f, ppl)
    ensures forall f :: 0 <= f < base + ppl ==> faces[f] == QuadFace(f, ppl)
  {
    for row := 0 to ppl
      invariant forall f :: 0 <= f < base + row ==> faces[f] == QuadFace(f, ppl)
    {
      var face := base + row;
      var next := if row < ppl - 1 then face + 1 else base;
      QuadFaceAt(c, base, row, ppl);
      faces[face] := Quad(face, face + ppl, next + ppl, next);
    }
  }

  /** Quad `base + r` of the column starting at `base`, as the face loops
      build it. */
  lemma QuadFaceAt(c: nat, base: int, r: int, ppl: int)
    requires ppl >= 1 && 0 <= r < ppl && base == c * ppl
    ensures var next := if r < ppl - 1 then base + r + 1 else base;
      QuadFace(base + r, ppl) == Quad(base + r, base + r + ppl, next + ppl, next)
  {
    BlockIndex(c, r, ppl);
  }

  /** `np.isclose(a, b)` with NumPy's default tolerances. */
  predicate IsClose(a: real, b: real)
  {
    Abs(a - b) <= 0.00000001 + 0.00001 * Abs(b)
  }

  /** The 2-D coordinates a side is triangulated in: `(y, z)` when every x
      of the block is close to the first one, `(x, z)` otherwise. */
  function SideProjection(block: seq<Vertex>): (r: seq<RVec>)
    requires |block| > 0
    ensures |r| == |block|
  {
    var xConst := forall i :: 0 <= i < |block| ==> IsClose(block[i].x, block[0].x);
    seq(|block|, i requires 0 <= i < |block| => RVec(if xConst then block[i].y else block[i].x, block[i].z))
  }

  function ShiftTris(ts: seq<Tri>, k: int): (r: seq<Tri>)
    ensures |r| == |ts|
    ensures forall i :: 0 <= i < |ts| ==> r[i] == Tri(ts[i].a + k, ts[i].b + k, ts[i].c + k)
  {
    seq(|ts|, i requires 0 <= i < |ts| => Tri(ts[i].a + k, ts[i].b + k, ts[i].c + k))
  }

  /** The quads of a net of `length` blocks: `QuadFace` of every index
      below `(length - 1) * ppl`. */
  function Faces(length: nat, ppl: nat): (r: seq<Quad>)
    requires length >= 1 && ppl >= 1
    ensures |r| == (length - 1) * ppl
    ensures forall f :: 0 <= f < |r| ==> r[f] == QuadFace(f, ppl)
  {
    seq((length - 1) * ppl, f requires 0 <= f < (length - 1) * ppl => QuadFace(f, ppl))
  }

  lemma LastBlock(length: nat, ppl: nat)
    requires length >= 1 && ppl >= 1
    ensures 0 <= (length - 1) * ppl && ppl <= length * ppl && length * ppl - (length - 1) * ppl == ppl
  {
    AtLeastOnce(length, ppl);
    assert length * ppl == (length - 1) * ppl + ppl;
  }

  /** The side triangles: the first block triangulated with its own
      indices, the last block's triangles shifted to that block. */
  function SideFaces(vertices: seq<Vertex>, ppl: nat, length: nat, project: seq<Vertex> -> seq<RVec>,
                     delaunay: seq<RVec> -> seq<Tri>): seq<Tri>
    requires length >= 1 && ppl >= 1 && |vertices| == length * ppl
  {
    LastBlock(length, ppl);
    delaunay(project(vertices[..ppl]))
    + ShiftTris(delaunay(project(vertices[(length - 1) * ppl..])), (length - 1) * ppl)
  }

  predicate TriIn(t: Tri, lo: int, hi: int)
  {
    lo <= t.a < hi && lo <= t.b < hi && lo <= t.c < hi
  }

  /** When the triangulation only names points of its input, the start
      side's triangles name points of the first block and the end side's
      triangles points of the last block. */
  lemma SideFacesInBlocks(vertices: seq<Vertex>, ppl: nat, length: nat, project: seq<Vertex> -> seq<RVec>,
                          delaunay: seq<RVec> -> seq<Tri>)
    requires length >= 1 && ppl >= 1 && |vertices| == length * ppl
    requires forall vs :: |project(vs)| == |vs|
    requires forall pts, i :: 0 <= i < |delaunay(pts)| ==> TriIn(delaunay(pts)[i], 0, |pts|)
    ensures var sides := SideFaces(vertices, ppl, length, project, delaunay);
      var start := |delaunay(project(vertices[..ppl]))|;
      (forall i :: 0 <= i < start ==> TriIn(sides[i], 0, ppl))
      && (forall i :: start <= i < |sides| ==> TriIn(sides[i], (length - 1) * ppl, length * ppl))
  {
    LastBlock(length, ppl);
    var first := delaunay(project(vertices[..ppl]));
    var last := delaunay(project(vertices[(length - 1) * ppl..]));
    var sides := SideFaces(vertices, ppl, length, project, delaunay);
    assert sides == first + ShiftTris(last, (length - 1) * ppl);
    forall i | |first| <= i < |sides|
      ensures TriIn(sides[i], (length - 1) * ppl, length * ppl)
    {
      assert TriIn(last[i - |first|], 0, ppl);
    }
  }

  /** `np.isclose(a, b)` on a block's x coordinates, then the projection the
      old generator triangulates in. */
  function OldProjection(block: seq<Vertex>): seq<RVec>
  {
    if |block| == 0 then [] else SideProjection(block)
  }

  /** What the old `CrackGenerator.__call__` builds from a path of at least
      one row and at least one point per line. */
  function OldMesh(path: CrackPath, params: DimensionParameters,
                   gaussian: (seq<real>, real) -> seq<real>, delaunay: seq<RVec> -> seq<Tri>): Mesh
    requires |path.botLine| >= |path.topLine| >= 1 && 2 + params.depthResolution >= 1
    requires forall xs, s :: |gaussian(xs, s)| == |xs|
  {
    var ppl := 2 + params.depthResolution;
    var n := |path.topLine|;
    var net := ControlNet(path, Shared(DepthProfile(params, ppl, gaussian), n), ppl);
    Mesh(Centred(net), Means(net), Faces(n, ppl), SideFaces(Centred(net), ppl, n, OldProjection, delaunay))
  }

  /** Every block of the old control net has the depths of the one shared
      profile, which is 0 on the top line. */
  lemma OldNetSharedDepth(path: CrackPath, params: DimensionParameters,
                          gaussian: (seq<real>, real) -> seq<real>, ppl: nat, b: int, k: int)
    requires |path.botLine| >= |path.topLine| >= 1 && ppl == 2 + params.depthResolution >= 1
    requires forall xs, s :: |gaussian(xs, s)| == |xs|
    requires 0 <= b < |path.topLine| && 0 <= k < ppl
    ensures b * ppl + k < |path.topLine| * ppl
    ensures ControlNet(path, Shared(DepthProfile(params, ppl, gaussian), |path.topLine|), ppl)[b * ppl + k].z
            == DepthProfile(params, ppl, gaussian)[k]
    ensures DepthProfile(params, ppl, gaussian)[0] == 0.0
  {
    var zs := Shared(DepthProfile(params, ppl, gaussian), |path.topLine|);
    ControlNetBlock(path, zs, ppl, b, k);
  }

  /** Every quad of a strip of `length` columns names one of its
      `length * ppl` vertices. */
  lemma FacesInRange(length: nat, ppl: nat)
    requires length >= 1 && ppl >= 1
    ensures forall f :: 0 <= f < |Faces(length, ppl)| ==>
      (0 <= Faces(length, ppl)[f].a < length * ppl && 0 <= Faces(length, ppl)[f].b < length * ppl
       && 0 <= Faces(length, ppl)[f].c < length * ppl && 0 <= Faces(length, ppl)[f].d < length * ppl)
  {
    forall f | 0 <= f < (length - 1) * ppl
      ensures 0 <= QuadFace(f, ppl).a < length * ppl && 0 <= QuadFace(f, ppl).b < length * ppl
      ensures 0 <= QuadFace(f, ppl).c < length * ppl && 0 <= QuadFace(f, ppl).d < length * ppl
    {
      QuadFaceInRange(f, ppl, length);
    }
  }

  /** The old mesh's coordinate columns each sum to zero, and every quad
      names one of its vertices. */
  lemma OldMeshCentred(path: CrackPath, params: DimensionParameters,
                       gaussian: (seq<real>, real) -> seq<real>, delaunay: seq<RVec> -> seq<Tri>, ppl: nat)
    requires |path.botLine| >= |path.topLine| >= 1 && ppl == 2 + params.depthResolution >= 1
    requires forall xs, s :: |gaussian(xs, s)| == |xs|
    ensures var m := OldMesh(path, params, gaussian, delaunay);
      |m.vertices| == |path.topLine| * ppl
      && Sum(Xs(m.vertices)) == 0.0 && Sum(Ys(m.vertices)) == 0.0 && Sum(Zs(m.vertices)) == 0.0
      && forall f :: 0 <= f < |m.faces| ==>
           (0 <= m.faces[f].a < |m.vertices| && 0 <= m.faces[f].b < |m.vertices|
            && 0 <= m.faces[f].c < |m.vertices| && 0 <= m.faces[f].d < |m.vertices|)
  {
    var n := |path.topLine|;
    var z := DepthProfile(params, ppl, gaussian);
    assert Profiles(path, Shared(z, n), ppl);
    var net := ControlNet(path, Shared(z, n), ppl);
    AtLeastOnce(n, ppl);
    OldMeshOf(path, params, gaussian, delaunay, ppl, z, net, Centred(net), Means(net), Faces(n, ppl));
    CentredColumnsSumToZero(net);
    FacesInRange(n, ppl);
  }

  /** `CrackGenerator.__call__` after the path: None where NumPy raises, which
      is a path without rows (no quads can be allocated) or fewer than one
      point per line; otherwise the mesh `OldMesh` describes. */
  method Generate(path: CrackPath, params: DimensionParameters,
                  gaussian: (seq<real>, real) -> seq<real>, delaunay: seq<RVec> -> seq<Tri>)
    returns (r: Option<Mesh>)
    requires |path.botLine| >= |path.topLine|
    requires forall xs, s :: |gaussian(xs, s)| == |xs|
    ensures r.Some? <==> |path.topLine| >= 1 && 2 + params.depthResolution >= 1
    ensures r.Some? ==> r.value == OldMesh(path, params, gaussian, delaunay)
  {
    var ppl := 2 + params.depthResolution;
    if ppl < 1 || |path.topLine| == 0 {
      return None;
    }
    var z := DepthProfile(params, ppl, gaussian);
    var coords := CalculateControlPoints(path, Shared(z, |path.topLine|), ppl);
    ghost var net := coords[..];
    var means := Centre(coords);
    var length := coords.Length / ppl;
    assert length == |path.topLine| by {
      BlockIndex(|path.topLine|, 0, ppl);
    }
    var faces := QuadFaces(length, ppl);
    assert faces[..] == Faces(length, ppl);
    var vertices := coords[..];
    OldMeshOf(path, params, gaussian, delaunay, ppl, z, net, vertices, means, faces[..]);
    r := Some(Mesh(vertices, means, faces[..], SideFaces(vertices, ppl, length, OldProjection, delaunay)));
  }

  /** The parts `Generate` assembles are those of `OldMesh`. */
  lemma OldMeshOf(path: CrackPath, params: DimensionParameters, gaussian: (seq<real>, real) -> seq<real>,
                  delaunay: seq<RVec> -> seq<Tri>, ppl: nat, z: seq<real>,
                  net: seq<Vertex>, vertices: seq<Vertex>, means: Vertex, faces: seq<Quad>)
    requires |path.botLine| >= |path.topLine| >= 1 && ppl == 2 + params.depthResolution >= 1
    requires forall xs, s :: |gaussian(xs, s)| == |xs|
    requires z == DepthProfile(params, ppl, gaussian)
    requires Profiles(path, Shared(z, |path.topLine|), ppl)
    requires net == ControlNet(path, Shared(z, |path.topLine|), ppl) && |net| > 0
    requires vertices == Centred(net) && means == Means(net) && faces == Faces(|path.topLine|, ppl)
    ensures OldMesh(path, params, gaussian, delaunay)
      == Mesh(vertices, means, faces, SideFaces(vertices, ppl, |path.topLine|, OldProjection, delaunay))
  {
  }
}
