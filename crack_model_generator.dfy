/** `crack-generation/generators/crack_model_generator.py`: the older quad
    mesh generator. It lays out the control net as `CrackMesh` does, except
    that each block gets its own depth profile, computed from the distance
    between the block's top and bottom points; it centres each coordinate
    column, joins the blocks with the same wrap-around quads, and
    triangulates both sides in their (y, z) coordinates.

    The profile of a block (`-depth * centered_gaussian(linspace(-2 sigma,
    2 sigma, ppl), sigma)` with `sigma = 1 / width`) is floating-point and
    `exp` work: the model takes it as the parameter `blockProfile`, a
    function of the block's width. */
module CrackModelGenerator {
  import opened Numeric
  import opened Geometry
  import opened CrackModel
  import opened CrackMesh

  /** The fields of the crack parameters this generator reads. */
  datatype ModelParameters = ModelParameters(depth: real, depthResolution: int)

  /** `CrackModel`: the parameters it was made from, the centred control
      net, the quads and the side triangles. */
  datatype QuadModel = QuadModel(parameters: ModelParameters, vertices: seq<Vertex>, faces: seq<Quad>, sideFaces: seq<Tri>)

  /** `np.sqrt(np.sum((top_point - bot_point) ** 2))`. */
  function BlockWidth(top: Pos, bot: Pos, trig: Trig): real
  {
    var dx, dy := (top.x - bot.x) as real, (top.y - bot.y) as real;
    trig.sqrt(dx * dx + dy * dy)
  }

  /** One profile per block, from that block's width. */
  function BlockProfiles(path: CrackPath, trig: Trig, blockProfile: real -> seq<real>): (zs: seq<seq<real>>)
    requires |path.botLine| >= |path.topLine|
    ensures |zs| == |path.topLine|
    ensures forall b :: 0 <= b < |zs| ==> zs[b] == blockProfile(BlockWidth(path.topLine[b], path.botLine[b], trig))
  {
    seq(|path.topLine|, b requires 0 <= b < |path.topLine| => blockProfile(BlockWidth(path.topLine[b], path.botLine[b], trig)))
  }

  /** `coords[:, 1:]`: a side is always triangulated in (y, z). */
  function YZ(block: seq<Vertex>): (r: seq<RVec>)
    ensures |r| == |block|
    ensures forall i :: 0 <= i < |block| ==> r[i] == RVec(block[i].y, block[i].z)
  {
    seq(|block|, i requires 0 <= i < |block| => RVec(block[i].y, block[i].z))
  }

  /** What `CrackModelGenerator.__call__` builds from a path of at least
      one row and at least one point per line. */
  function NewModel(parameters: ModelParameters, path: CrackPath, trig: Trig, blockProfile: real -> seq<real>,
                    delaunay: seq<RVec> -> seq<Tri>): QuadModel
    requires |path.botLine| >= |path.topLine| >= 1 && 2 + parameters.depthResolution >= 1
    requires forall w :: |blockProfile(w)| == 2 + parameters.depthResolution
  {
    var ppl := 2 + parameters.depthResolution;
    var n := |path.topLine|;
    var net := ControlNet(path, BlockProfiles(path, trig, blockProfile), ppl);
    QuadModel(parameters, Centred(net), Faces(n, ppl), SideFaces(Centred(net), ppl, n, YZ, delaunay))
  }

  /** The model keeps its parameters, and its vertices are the control net
      shifted so that every coordinate column sums to zero, `ppl` vertices
      per row of the path. */
  lemma NewModelVertices(parameters: ModelParameters, path: CrackPath, trig: Trig, blockProfile: real -> seq<real>,
                         delaunay: seq<RVec> -> seq<Tri>)
    requires |path.botLine| >= |path.topLine| >= 1 && 2 + parameters.depthResolution >= 1
    requires forall w :: |blockProfile(w)| == 2 + parameters.depthResolution
    ensures var m := NewModel(parameters, path, trig, blockProfile, delaunay);
      m.parameters == parameters
      && |m.vertices| == |path.topLine| * (2 + parameters.depthResolution)
      && Sum(Xs(m.vertices)) == 0.0 && Sum(Ys(m.vertices)) == 0.0 && Sum(Zs(m.vertices)) == 0.0
  {
    var ppl := 2 + parameters.depthResolution;
    var net := ControlNet(path, BlockProfiles(path, trig, blockProfile), ppl);
    CentredColumnsSumToZero(net);
  }

  /** Every quad of the model names vertices of the net: quad `f` joins the
      `f`-th point of a block to its successor and to the same two points of
      the next block. */
  lemma NewModelFaces(parameters: ModelParameters, path: CrackPath, trig: Trig, blockProfile: real -> seq<real>,
                      delaunay: seq<RVec> -> seq<Tri>)
    requires |path.botLine| >= |path.topLine| >= 1 && 2 + parameters.depthResolution >= 1
    requires forall w :: |blockProfile(w)| == 2 + parameters.depthResolution
    ensures var m := NewModel(parameters, path, trig, blockProfile, delaunay);
      var ppl := 2 + parameters.depthResolution;
      var n := |path.topLine|;
      |m.faces| == (n - 1) * ppl
      && (forall f :: 0 <= f < |m.faces| ==>
            (m.faces[f] == QuadFace(f, ppl)
             && 0 <= m.faces[f].a < n * ppl && 0 <= m.faces[f].b < n * ppl
             && 0 <= m.faces[f].c < n * ppl && 0 <= m.faces[f].d < n * ppl))
  {
    var ppl := 2 + parameters.depthResolution;
    var n := |path.topLine|;
    forall f | 0 <= f < (n - 1) * ppl
      ensures 0 <= QuadFace(f, ppl).a < n * ppl && 0 <= QuadFace(f, ppl).b < n * ppl
      ensures 0 <= QuadFace(f, ppl).c < n * ppl && 0 <= QuadFace(f, ppl).d < n * ppl
    {
      QuadFaceInRange(f, ppl, n);
    }
  }

  /** The triangles of the first side name vertices of the first block, and
      those of the second side vertices of the last block. */
  lemma NewModelSides(parameters: ModelParameters, path: CrackPath, trig: Trig, blockProfile: real -> seq<real>,
                      delaunay: seq<RVec> -> seq<Tri>)
    requires |path.botLine| >= |path.topLine| >= 1 && 2 + parameters.depthResolution >= 1
    requires forall w :: |blockProfile(w)| == 2 + parameters.depthResolution
    requires forall pts, i :: 0 <= i < |delaunay(pts)| ==> TriIn(delaunay(pts)[i], 0, |pts|)
    ensures var m := NewModel(parameters, path, trig, blockProfile, delaunay);
      var ppl := 2 + parameters.depthResolution;
      var n := |path.topLine|;
      ppl <= |m.vertices|
      && var start := |delaunay(YZ(m.vertices[..ppl]))|;
         (forall i :: 0 <= i < start ==> TriIn(m.sideFaces[i], 0, ppl))
         && (forall i :: start <= i < |m.sideFaces| ==> TriIn(m.sideFaces[i], (n - 1) * ppl, n * ppl))
  {
    var ppl := 2 + parameters.depthResolution;
    var n := |path.topLine|;
    var net := ControlNet(path, BlockProfiles(path, trig, blockProfile), ppl);
    LastBlock(n, ppl);
    SideFacesInBlocks(Centred(net), ppl, n, YZ, delaunay);
  }

  /** `CrackModelGenerator.__call__` after the path: None where NumPy
      raises (a path without rows, or fewer than one point per line);
      otherwise the model `NewModel` describes. */
  method Generate(parameters: ModelParameters, path: CrackPath, trig: Trig, blockProfile: real -> seq<real>,
                  delaunay: seq<RVec> -> seq<Tri>)
    returns (r: Option<QuadModel>)
    requires |path.botLine| >= |path.topLine|
    requires forall w :: 2 + parameters.depthResolution >= 0 ==> |blockProfile(w)| == 2 + parameters.depthResolution
    ensures r.Some? <==> |path.topLine| >= 1 && 2 + parameters.depthResolution >= 1
    ensures r.Some? ==> r.value == NewModel(parameters, path, trig, blockProfile, delaunay)
  {
    var ppl := 2 + parameters.depthResolution;
    if ppl < 1 || |path.topLine| == 0 {
      return None;
    }
    var m := BuildModel(parameters, path, trig, blockProfile, delaunay);
    r := Some(m);
  }

  /** The arrays of `__call__` for a path with rows: the control points,
      centred in place, and the quad faces over `coords.shape[0] // ppl`
      columns. */
  method BuildModel(parameters: ModelParameters, path: CrackPath, trig: Trig, blockProfile: real -> seq<real>,
                    delaunay: seq<RVec> -> seq<Tri>)
    returns (m: QuadModel)
    requires |path.botLine| >= |path.topLine| >= 1 && 2 + parameters.depthResolution >= 1
    requires forall w :: |blockProfile(w)| == 2 + parameters.depthResolution
    ensures m == NewModel(parameters, path, trig, blockProfile, delaunay)
  {
    var ppl := 2 + parameters.depthResolution;
    var coords := CalculateControlPoints(path, BlockProfiles(path, trig, blockProfile), ppl);
    var _ := Centre(coords);
    var length := coords.Length / ppl;
    assert length == |path.topLine| by {
      BlockIndex(|path.topLine|, 0, ppl);
    }
    var faces := QuadFaces(length, ppl);
    var vertices, quads := coords[..], faces[..];
    NewModelOf(parameters, path, trig, blockProfile, delaunay, vertices, quads);
    m := QuadModel(parameters, vertices, quads, SideFaces(vertices, ppl, length, YZ, delaunay));
  }

  /** `NewModel` from the centred control net and the quad faces. */
  lemma NewModelOf(parameters: ModelParameters, path: CrackPath, trig: Trig, blockProfile: real -> seq<real>,
                   delaunay: seq<RVec> -> seq<Tri>, vertices: seq<Vertex>, quads: seq<Quad>)
    requires |path.botLine| >= |path.topLine| >= 1 && 2 + parameters.depthResolution >= 1
    requires forall w :: |blockProfile(w)| == 2 + parameters.depthResolution
    requires vertices == Centred(ControlNet(path, BlockProfiles(path, trig, blockProfile), 2 + parameters.depthResolution))
    requires |quads| == (|path.topLine| - 1) * (2 + parameters.depthResolution)
    requires forall f :: 0 <= f < |quads| ==> quads[f] == QuadFace(f, 2 + parameters.depthResolution)
    ensures NewModel(parameters, path, trig, blockProfile, delaunay)
         == QuadModel(parameters, vertices, quads,
                      SideFaces(vertices, 2 + parameters.depthResolution, |path.topLine|, YZ, delaunay))
  {
    assert quads == Faces(|path.topLine|, 2 + parameters.depthResolution);
  }
}
