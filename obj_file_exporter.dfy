/** The two Wavefront OBJ exporters, `crack_generation/util/obj_file_exporter.py`
    and `crack_generation/operations/obj_file_exporter.py`. Both write one
    `v` record per vertex, then one four-index `f` record per quad, then one
    three-index `f` record per side triangle, with indices made 1-based as
    the format requires. The `util` exporter scales the vertices to 1%.

    The file is a log of records. The `%.4f` text formatting is not
    modelled: a `v` record holds the coordinates themselves. An `IOError` is
    the parameter `failure`: `Some(0)` when opening the file fails, `Some(k)`
    when the write of record `k - 1` (counting from 0) fails, `None` when
    nothing fails. */
module ObjFileExporter {
  import opened Numeric
  import opened CrackMesh

  datatype ObjRecord =
    | VertexRecord(x: real, y: real, z: real)
    | QuadRecord(a: int, b: int, c: int, d: int)
    | TriRecord(a: int, b: int, c: int)

  /** An output file opened for writing: the records written to it. */
  class ObjFile {
    var records: seq<ObjRecord>

    constructor ()
      ensures records == []
    {
      records := [];
    }

    /** `open(filepath, 'w')` truncates the file. */
    method Truncate()
      modifies this
      ensures records == []
    {
      records := [];
    }

    /** `objfile.write(...)` of one record. */
    method Append(r: ObjRecord)
      modifies this
      ensures records == old(records) + [r]
    {
      records := records + [r];
    }
  }

  function Scaled(v: Vertex, scale: real): Vertex
  {
    Vertex(v.x * scale, v.y * scale, v.z * scale)
  }

  function VertexRecordOf(v: Vertex, scale: real): ObjRecord
  {
    VertexRecord(v.x * scale, v.y * scale, v.z * scale)
  }

  function QuadRecordOf(q: Quad): ObjRecord
  {
    QuadRecord(q.a + 1, q.b + 1, q.c + 1, q.d + 1)
  }

  function TriRecordOf(t: Tri): ObjRecord
  {
    TriRecord(t.a + 1, t.b + 1, t.c + 1)
  }

  function VertexRecords(vertices: seq<Vertex>, scale: real): (r: seq<ObjRecord>)
    ensures |r| == |vertices|
    ensures forall i :: 0 <= i < |vertices| ==> r[i] == VertexRecordOf(vertices[i], scale)
  {
    seq(|vertices|, i requires 0 <= i < |vertices| => VertexRecordOf(vertices[i], scale))
  }

  function QuadRecords(faces: seq<Quad>): (r: seq<ObjRecord>)
    ensures |r| == |faces|
    ensures forall i :: 0 <= i < |faces| ==> r[i] == QuadRecordOf(faces[i])
  {
    seq(|faces|, i requires 0 <= i < |faces| => QuadRecordOf(faces[i]))
  }

  function TriRecords(sides: seq<Tri>): (r: seq<ObjRecord>)
    ensures |r| == |sides|
    ensures forall i :: 0 <= i < |sides| ==> r[i] == TriRecordOf(sides[i])
  {
    seq(|sides|, i requires 0 <= i < |sides| => TriRecordOf(sides[i]))
  }

  function ScaledAll(vertices: seq<Vertex>, scale: real): (r: seq<Vertex>)
    ensures |r| == |vertices|
    ensures forall i :: 0 <= i < |vertices| ==> r[i] == Scaled(vertices[i], scale)
  {
    seq(|vertices|, i requires 0 <= i < |vertices| => Scaled(vertices[i], scale))
  }

  /** Everything an export writes, in order. */
  function Records(vertices: seq<Vertex>, faces: seq<Quad>, sides: seq<Tri>, scale: real): (r: seq<ObjRecord>)
    ensures |r| == |vertices| + |faces| + |sides|
  {
    VertexRecords(vertices, scale) + QuadRecords(faces) + TriRecords(sides)
  }

  /** Reading an OBJ file back: the vertices, the quads and the triangles
      in the order they appear, indices made 0-based again. */
  function ReadVertices(rs: seq<ObjRecord>): seq<Vertex>
  {
    if |rs| == 0 then []
    else ReadVertices(rs[..|rs| - 1])
         + (match rs[|rs| - 1] case VertexRecord(x, y, z) => [Vertex(x, y, z)] case _ => [])
  }

  function ReadQuads(rs: seq<ObjRecord>): seq<Quad>
  {
    if |rs| == 0 then []
    else ReadQuads(rs[..|rs| - 1])
         + (match rs[|rs| - 1] case QuadRecord(a, b, c, d) => [Quad(a - 1, b - 1, c - 1, d - 1)] case _ => [])
  }

  function ReadTris(rs: seq<ObjRecord>): seq<Tri>
  {
    if |rs| == 0 then []
    else ReadTris(rs[..|rs| - 1])
         + (match rs[|rs| - 1] case TriRecord(a, b, c) => [Tri(a - 1, b - 1, c - 1)] case _ => [])
  }

  /** Reading distributes over consecutive parts of a file. */
  lemma ReadAppend(xs: seq<ObjRecord>, ys: seq<ObjRecord>)
    ensures ReadVertices(xs + ys) == ReadVertices(xs) + ReadVertices(ys)
    ensures ReadQuads(xs + ys) == ReadQuads(xs) + ReadQuads(ys)
    ensures ReadTris(xs + ys) == ReadTris(xs) + ReadTris(ys)
  {
    ReadVerticesAppend(xs, ys);
    ReadQuadsAppend(xs, ys);
    ReadTrisAppend(xs, ys);
  }

  lemma {:induction false} ReadVerticesAppend(xs: seq<ObjRecord>, ys: seq<ObjRecord>)
    ensures ReadVertices(xs + ys) == ReadVertices(xs) + ReadVertices(ys)
    decreases |ys|
  {
    if |ys| > 0 {
      var n := |ys| - 1;
      assert (xs + ys)[..|xs + ys| - 1] == xs + ys[..n];
      ReadVerticesAppend(xs, ys[..n]);
    } else {
      assert xs + ys == xs;
    }
  }

  lemma {:induction false} ReadQuadsAppend(xs: seq<ObjRecord>, ys: seq<ObjRecord>)
    ensures ReadQuads(xs + ys) == ReadQuads(xs) + ReadQuads(ys)
    decreases |ys|
  {
    if |ys| > 0 {
      var n := |ys| - 1;
      assert (xs + ys)[..|xs + ys| - 1] == xs + ys[..n];
      ReadQuadsAppend(xs, ys[..n]);
    } else {
      assert xs + ys == xs;
    }
  }

  lemma {:induction false} ReadTrisAppend(xs: seq<ObjRecord>, ys: seq<ObjRecord>)
    ensures ReadTris(xs + ys) == ReadTris(xs) + ReadTris(ys)
    decreases |ys|
  {
    if |ys| > 0 {
      var n := |ys| - 1;
      assert (xs + ys)[..|xs + ys| - 1] == xs + ys[..n];
      ReadTrisAppend(xs, ys[..n]);
    } else {
      assert xs + ys == xs;
    }
  }

  lemma {:induction false} ReadVertexRecords(vertices: seq<Vertex>, scale: real)
    ensures ReadQuads(VertexRecords(vertices, scale)) == [] && ReadTris(VertexRecords(vertices, scale)) == []
    ensures ReadVertices(VertexRecords(vertices, scale)) == ScaledAll(vertices, scale)
    decreases |vertices|
  {
    if |vertices| > 0 {
      var n := |vertices| - 1;
      assert VertexRecords(vertices, scale)[..n] == VertexRecords(vertices[..n], scale);
      ReadVertexRecords(vertices[..n], scale);
      assert ScaledAll(vertices, scale) == ScaledAll(vertices[..n], scale) + [Scaled(vertices[n], scale)];
    }
  }

  lemma {:induction false} ReadQuadRecords(faces: seq<Quad>)
    ensures ReadVertices(QuadRecords(faces)) == [] && ReadTris(QuadRecords(faces)) == []
    ensures ReadQuads(QuadRecords(faces)) == faces
    decreases |faces|
  {
    if |faces| > 0 {
      var n := |faces| - 1;
      assert QuadRecords(faces)[..n] == QuadRecords(faces[..n]);
      ReadQuadRecords(faces[..n]);
    }
  }

  lemma {:induction false} ReadTriRecords(sides: seq<Tri>)
    ensures ReadVertices(TriRecords(sides)) == [] && ReadQuads(TriRecords(sides)) == []
    ensures ReadTris(TriRecords(sides)) == sides
    decreases |sides|
  {
    if |sides| > 0 {
      var n := |sides| - 1;
      assert TriRecords(sides)[..n] == TriRecords(sides[..n]);
      ReadTriRecords(sides[..n]);
    }
  }

  /** Reading an exported file gives back the faces and triangles as they
      were and the vertices multiplied by the scale. */
  lemma ReadRecords(vertices: seq<Vertex>, faces: seq<Quad>, sides: seq<Tri>, scale: real)
    ensures ReadQuads(Records(vertices, faces, sides, scale)) == faces
    ensures ReadTris(Records(vertices, faces, sides, scale)) == sides
    ensures ReadVertices(Records(vertices, faces, sides, scale)) == ScaledAll(vertices, scale)
  {
    var vs, qs, ts := VertexRecords(vertices, scale), QuadRecords(faces), TriRecords(sides);
    assert Records(vertices, faces, sides, scale) == (vs + qs) + ts;
    ReadAppend(vs + qs, ts);
    ReadAppend(vs, qs);
    ReadVertexRecords(vertices, scale);
    ReadQuadRecords(faces);
    ReadTriRecords(sides);
    assert ReadQuads((vs + qs) + ts) == [] + faces + [];
    assert ReadTris((vs + qs) + ts) == [] + [] + sides;
    assert ReadVertices((vs + qs) + ts) == ScaledAll(vertices, scale) + [] + [];
  }

  /** With 0-based faces that name existing vertices, every `f` record
      names a `v` record by its 1-based position, as OBJ readers expect. */
  lemma FaceRecordsNameVertices(vertices: seq<Vertex>, faces: seq<Quad>, sides: seq<Tri>, scale: real)
    requires forall f :: 0 <= f < |faces| ==>
      (0 <= faces[f].a < |vertices| && 0 <= faces[f].b < |vertices|
       && 0 <= faces[f].c < |vertices| && 0 <= faces[f].d < |vertices|)
    requires forall t :: 0 <= t < |sides| ==> TriIn(sides[t], 0, |vertices|)
    ensures forall i :: 0 <= i < |vertices| ==> Records(vertices, faces, sides, scale)[i].VertexRecord?
    ensures forall i :: |vertices| <= i < |vertices| + |faces| ==>
      var r := Records(vertices, faces, sides, scale)[i];
      r.QuadRecord? && 1 <= r.a <= |vertices| && 1 <= r.b <= |vertices| && 1 <= r.c <= |vertices| && 1 <= r.d <= |vertices|
    ensures forall i :: |vertices| + |faces| <= i < |vertices| + |faces| + |sides| ==>
      var r := Records(vertices, faces, sides, scale)[i];
      r.TriRecord? && 1 <= r.a <= |vertices| && 1 <= r.b <= |vertices| && 1 <= r.c <= |vertices|
  {
  }

  /** One more element of `s` extends its prefix of length `k`. */
  lemma PrefixGrows<T>(s: seq<T>, k: nat)
    requires k < |s|
    ensures s[..k] + [s[k]] == s[..k + 1]
  {
  }

  /** The export loops: open (truncating), then write the vertices, the
      quads and the triangles. `ok` is false exactly when `failure` strikes
      before the last record is written; the file then holds the records
      written so far, or is untouched when opening failed. */
  method Export(file: ObjFile, vertices: seq<Vertex>, faces: seq<Quad>, sides: seq<Tri>, scale: real,
                failure: Option<nat>)
    returns (ok: bool)
    modifies file
    ensures ok <==> failure.None? || failure.value > |vertices| + |faces| + |sides|
    ensures failure == Some(0) ==> file.records == old(file.records)
    ensures ok ==> file.records == Records(vertices, faces, sides, scale)
    ensures !ok && failure.value > 0 ==> file.records == Records(vertices, faces, sides, scale)[..failure.value - 1]
  {
    if failure == Some(0) {
      return false;
    }
    file.Truncate();
    ghost var all := Records(vertices, faces, sides, scale);
    var count := 0;
    for i := 0 to |vertices|
      invariant count == i && file.records == all[..count]
      invariant failure.Some? ==> failure.value > count
    {
      if failure == Some(count + 1) {
        return false;
      }
      assert all[count] == VertexRecordOf(vertices[i], scale);
      PrefixGrows(all, count);
      file.Append(VertexRecordOf(vertices[i], scale));
      count := count + 1;
    }
    for i := 0 to |faces|
      invariant count == |vertices| + i && file.records == all[..count]
      invariant failure.Some? ==> failure.value > count
    {
      if failure == Some(count + 1) {
        return false;
      }
      assert all[count] == QuadRecordOf(faces[i]);
      PrefixGrows(all, count);
      file.Append(QuadRecordOf(faces[i]));
      count := count + 1;
    }
    for i := 0 to |sides|
      invariant count == |vertices| + |faces| + i && file.records == all[..count]
      invariant failure.Some? ==> failure.value > count
    {
      if failure == Some(count + 1) {
        return false;
      }
      assert all[count] == TriRecordOf(sides[i]);
      PrefixGrows(all, count);
      file.Append(TriRecordOf(sides[i]));
      count := count + 1;
    }
    assert all[..count] == all;
    ok := true;
  }

  /** `util/obj_file_exporter.py`: the model's points at 1% of their size. */
  method ExportModel(file: ObjFile, points: seq<Vertex>, faces: seq<Quad>, sides: seq<Tri>, failure: Option<nat>)
    returns (ok: bool)
    modifies file
    ensures ok <==> failure.None? || failure.value > |points| + |faces| + |sides|
    ensures failure == Some(0) ==> file.records == old(file.records)
    ensures ok ==> file.records == Records(points, faces, sides, 0.01)
    ensures !ok && failure.value > 0 ==> file.records == Records(points, faces, sides, 0.01)[..failure.value - 1]
  {
    ok := Export(file, points, faces, sides, 0.01, failure);
  }

  /** `operations/obj_file_exporter.py`: the crack mesh's vertices as they
      are. */
  method ExportCrack(file: ObjFile, mesh: Mesh, failure: Option<nat>)
    returns (ok: bool)
    modifies file
    ensures ok <==> failure.None? || failure.value > |mesh.vertices| + |mesh.faces| + |mesh.sideFaces|
    ensures failure == Some(0) ==> file.records == old(file.records)
    ensures ok ==> file.records == Records(mesh.vertices, mesh.faces, mesh.sideFaces, 1.0)
    ensures !ok && failure.value > 0 ==>
      file.records == Records(mesh.vertices, mesh.faces, mesh.sideFaces, 1.0)[..failure.value - 1]
  {
    ok := Export(file, mesh.vertices, mesh.faces, mesh.sideFaces, 1.0, failure);
  }
}
