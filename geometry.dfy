/**
 * Mesh generation for a cube and a subdivided unit sphere. Every builder
 * appends interleaved vertex records (position, then normal) to a growable
 * number list; the emitters `AddPoint`, `AddTriangle` and `AddQuad` do the
 * appending, and each is specified by the numbers it adds.
 */
module Geometry {
  import opened Vec3Math
  import opened VertexLayout

  /** A JavaScript `number[]` that the emitters grow in place. */
  class NumberList {
    var items: seq<real>

    constructor ()
      ensures items == []
    {
      items := [];
    }

    /** `push(...values)`: appends the values in order and returns the new length. */
    method Push(values: seq<real>) returns (length: nat)
      modifies this
      ensures items == old(items) + values
      ensures length == |items|
    {
      items := items + values;
      length := |items|;
    }
  }

  // ---------------------------------------------------------------------------
  // Emitters

  /** The 18 numbers `addTriangle` appends: each corner's position followed by its normal. */
  function TriangleData(p1: Vec3, p2: Vec3, p3: Vec3, n1: Vec3, n2: Vec3, n3: Vec3): seq<real>
  {
    Components(p1) + Components(n1) + Components(p2) + Components(n2) + Components(p3) + Components(n3)
  }

  /** The arguments of one `addQuad` call: four corners in winding order and one flat normal. */
  datatype Quad = Quad(p1: Vec3, p2: Vec3, p3: Vec3, p4: Vec3, normal: Vec3)

  /** The 36 numbers `addQuad` appends: triangles (p1,p2,p3) and (p1,p3,p4), one normal throughout. */
  function QuadData(q: Quad): seq<real>
  {
    TriangleData(q.p1, q.p2, q.p3, q.normal, q.normal, q.normal)
      + TriangleData(q.p1, q.p3, q.p4, q.normal, q.normal, q.normal)
  }

  method AddPoint(data: NumberList, p: Vec3) returns (length: nat)
    modifies data
    ensures data.items == old(data.items) + [p.x, p.y, p.z]
    ensures length == |old(data.items)| + 3
  {
    length := data.Push(Components(p));
  }

  method AddTriangle(data: NumberList, p1: Vec3, p2: Vec3, p3: Vec3, n1: Vec3, n2: Vec3, n3: Vec3)
    modifies data
    ensures data.items == old(data.items) + TriangleData(p1, p2, p3, n1, n2, n3)
  {
    var length := AddPoint(data, p1);
    length := AddPoint(data, n1);
    length := AddPoint(data, p2);
    length := AddPoint(data, n2);
    length := AddPoint(data, p3);
    length := AddPoint(data, n3);
  }

  method AddQuad(data: NumberList, p1: Vec3, p2: Vec3, p3: Vec3, p4: Vec3, normal: Vec3)
    modifies data
    ensures data.items == old(data.items) + QuadData(Quad(p1, p2, p3, p4, normal))
  {
    AddTriangle(data, p1, p2, p3, normal, normal, normal);
    AddTriangle(data, p1, p3, p4, normal, normal, normal);
  }

  /** An appended triangle reads back as its three (position, normal) pairs, in order. */
  lemma TriangleLayout(p1: Vec3, p2: Vec3, p3: Vec3, n1: Vec3, n2: Vec3, n3: Vec3)
    ensures TriangleData(p1, p2, p3, n1, n2, n3)
         == Encode([Vertex(p1, n1), Vertex(p2, n2), Vertex(p3, n3)])
    ensures |TriangleData(p1, p2, p3, n1, n2, n3)| == 18
    ensures Decode(TriangleData(p1, p2, p3, n1, n2, n3))
         == [Vertex(p1, n1), Vertex(p2, n2), Vertex(p3, n3)]
  {
    var vs := [Vertex(p1, n1), Vertex(p2, n2), Vertex(p3, n3)];
    assert Encode(vs[2..]) == VertexData(vs[2]) by { assert vs[2..][1..] == []; }
    assert Encode(vs[1..]) == VertexData(vs[1]) + Encode(vs[2..]) by { assert vs[1..][1..] == vs[2..]; }
    DecodeEncode(vs);
  }

  /** Triangle `k` (0 or 1) of a quad as `addQuad` emits it: (p1,p2,p3) then (p1,p3,p4). */
  function QuadTriangle(q: Quad, k: nat): (tri: seq<Vertex>)
    requires k < 2
    ensures |tri| == 3
  {
    var n := q.normal;
    if k == 0 then [Vertex(q.p1, n), Vertex(q.p2, n), Vertex(q.p3, n)]
    else [Vertex(q.p1, n), Vertex(q.p3, n), Vertex(q.p4, n)]
  }

  /** The six vertices of a quad, both triangles in emission order. */
  function QuadVertices(q: Quad): (vs: seq<Vertex>)
    ensures |vs| == 6
  {
    QuadTriangle(q, 0) + QuadTriangle(q, 1)
  }

  /** An appended quad reads back as its two triangles, every vertex carrying the quad's normal. */
  lemma QuadLayout(q: Quad)
    ensures |QuadData(q)| == 36
    ensures Decode(QuadData(q)) == QuadVertices(q)
  {
    var n := q.normal;
    TriangleLayout(q.p1, q.p2, q.p3, n, n, n);
    TriangleLayout(q.p1, q.p3, q.p4, n, n, n);
    DecodeAppend(TriangleData(q.p1, q.p2, q.p3, n, n, n), TriangleData(q.p1, q.p3, q.p4, n, n, n));
  }

  // ---------------------------------------------------------------------------
  // Cube

  /** The 8 cube corners: the top face (y = 1) then the bottom face (y = -1), same order. */
  const CUBE_POINTS: seq<Vec3> := [
    Vec3(-1.0, 1.0, -1.0),
    Vec3(1.0, 1.0, -1.0),
    Vec3(1.0, 1.0, 1.0),
    Vec3(-1.0, 1.0, 1.0),
    Vec3(-1.0, -1.0, -1.0),
    Vec3(1.0, -1.0, -1.0),
    Vec3(1.0, -1.0, 1.0),
    Vec3(-1.0, -1.0, 1.0)
  ]

  /** The six `addQuad` calls of `buildCube`, in order: top, bottom, back, front, left, right. */
  const CUBE_FACES: seq<Quad> := [
    Quad(CUBE_POINTS[0], CUBE_POINTS[1], CUBE_POINTS[2], CUBE_POINTS[3], Vec3(0.0, 1.0, 0.0)),
    Quad(CUBE_POINTS[7], CUBE_POINTS[6], CUBE_POINTS[5], CUBE_POINTS[4], Vec3(0.0, -1.0, 0.0)),
    Quad(CUBE_POINTS[1], CUBE_POINTS[0], CUBE_POINTS[4], CUBE_POINTS[5], Vec3(0.0, 0.0, -1.0)),
    Quad(CUBE_POINTS[3], CUBE_POINTS[2], CUBE_POINTS[6], CUBE_POINTS[7], Vec3(0.0, 0.0, 1.0)),
    Quad(CUBE_POINTS[0], CUBE_POINTS[3], CUBE_POINTS[7], CUBE_POINTS[4], Vec3(-1.0, 0.0, 0.0)),
    Quad(CUBE_POINTS[2], CUBE_POINTS[1], CUBE_POINTS[5], CUBE_POINTS[6], Vec3(1.0, 0.0, 0.0))
  ]

  /** The numbers a sequence of `addQuad` calls appends. */
  function QuadsData(qs: seq<Quad>): (s: seq<real>)
    ensures |s| == 36 * |qs| && |s| % 6 == 0
  {
    if qs == [] then [] else QuadData(qs[0]) + QuadsData(qs[1..])
  }

  /** What `buildCube` returns, before the conversion to 32-bit floats. */
  function CubeData(): seq<real>
  {
    QuadsData(CUBE_FACES)
  }

  method BuildCube() returns (r: seq<real>)
    ensures r == CubeData()
    ensures |r| == 216 && |r| % 18 == 0
  {
    var data := new NumberList();
    var c1, c2, c3, c4 := CUBE_POINTS[0], CUBE_POINTS[1], CUBE_POINTS[2], CUBE_POINTS[3];
    var c5, c6, c7, c8 := CUBE_POINTS[4], CUBE_POINTS[5], CUBE_POINTS[6], CUBE_POINTS[7];
    ghost var f := CUBE_FACES;
    AddQuad(data, c1, c2, c3, c4, Vec3(0.0, 1.0, 0.0));
    assert data.items == QuadData(f[0]);
    AddQuad(data, c8, c7, c6, c5, Vec3(0.0, -1.0, 0.0));
    assert data.items == QuadData(f[0]) + QuadData(f[1]);
    AddQuad(data, c2, c1, c5, c6, Vec3(0.0, 0.0, -1.0));
    assert data.items == QuadData(f[0]) + QuadData(f[1]) + QuadData(f[2]);
    AddQuad(data, c4, c3, c7, c8, Vec3(0.0, 0.0, 1.0));
    assert data.items == QuadData(f[0]) + QuadData(f[1]) + QuadData(f[2]) + QuadData(f[3]);
    AddQuad(data, c1, c4, c8, c5, Vec3(-1.0, 0.0, 0.0));
    assert data.items == QuadData(f[0]) + QuadData(f[1]) + QuadData(f[2]) + QuadData(f[3])
                       + QuadData(f[4]);
    AddQuad(data, c3, c2, c6, c7, Vec3(1.0, 0.0, 0.0));
    r := data.items;
    CubeDataUnfolded();
  }

  lemma CubeDataUnfolded()
    ensures CubeData()
         == QuadData(CUBE_FACES[0]) + QuadData(CUBE_FACES[1]) + QuadData(CUBE_FACES[2])
          + QuadData(CUBE_FACES[3]) + QuadData(CUBE_FACES[4]) + QuadData(CUBE_FACES[5])
  {
    var f := CUBE_FACES;
    assert f[1..][1..][1..][1..][1..][1..] == [];
    assert QuadsData(f[5..]) == QuadData(f[5]) by { assert f[5..][1..] == []; }
    assert QuadsData(f[4..]) == QuadData(f[4]) + QuadsData(f[5..]) by { assert f[4..][1..] == f[5..]; }
    assert QuadsData(f[3..]) == QuadData(f[3]) + QuadsData(f[4..]) by { assert f[3..][1..] == f[4..]; }
    assert QuadsData(f[2..]) == QuadData(f[2]) + QuadsData(f[3..]) by { assert f[2..][1..] == f[3..]; }
    assert QuadsData(f[1..]) == QuadData(f[1]) + QuadsData(f[2..]) by { assert f[1..][1..] == f[2..]; }
  }

  /** Vertices `6f .. 6f+5` of the output of a run of quads are the six vertices of quad `f`. */
  lemma {:induction false} QuadsSlice(qs: seq<Quad>, f: nat)
    requires f < |qs|
    ensures |QuadsData(qs)| % 6 == 0
    ensures Decode(QuadsData(qs))[6 * f .. 6 * f + 6] == QuadVertices(qs[f])
  {
    QuadLayout(qs[0]);
    DecodeAppend(QuadData(qs[0]), QuadsData(qs[1..]));
    var head, rest := QuadVertices(qs[0]), Decode(QuadsData(qs[1..]));
    assert Decode(QuadsData(qs)) == head + rest;
    if f > 0 {
      QuadsSlice(qs[1..], f - 1);
      SliceAfter(head, rest, 6 * f, 6);
    } else {
      assert (head + rest)[..6] == head;
    }
  }

  /** A slice lying wholly in the second part of a concatenation. */
  lemma SliceAfter<T>(a: seq<T>, b: seq<T>, i: nat, n: nat)
    requires |a| <= i && i + n <= |a| + |b|
    ensures (a + b)[i .. i + n] == b[i - |a| .. i - |a| + n]
  {
    var u, w := (a + b)[i .. i + n], b[i - |a| .. i - |a| + n];
    forall k | 0 <= k < n
      ensures u[k] == w[k]
    {
    }
  }

  /** Vertex `6f + c` of the output of a run of quads is vertex `c` of quad `f`. */
  lemma QuadsVertex(qs: seq<Quad>, f: nat, c: nat)
    requires f < |qs| && c < 6
    ensures |QuadsData(qs)| % 6 == 0
    ensures Decode(QuadsData(qs))[6 * f + c] == QuadVertices(qs[f])[c]
  {
    QuadsSlice(qs, f);
    assert Decode(QuadsData(qs))[6 * f + c] == Decode(QuadsData(qs))[6 * f .. 6 * f + 6][c];
  }

  /** The cube corners are exactly the eight points with every coordinate in {-1, 1}, each listed once. */
  lemma CubeCorners()
    ensures forall p: Vec3 :: p in CUBE_POINTS <==> p.x in {-1.0, 1.0} && p.y in {-1.0, 1.0} && p.z in {-1.0, 1.0}
    ensures forall i, j | 0 <= i < j < |CUBE_POINTS| :: CUBE_POINTS[i] != CUBE_POINTS[j]
  {
  }

  /** The buffer opens with the numbers of the top face's first corner, then the +Y normal. */
  lemma CubeFirstNumbers()
    ensures |CubeData()| == 216
    ensures CubeData()[..6] == [-1.0, 1.0, -1.0, 0.0, 1.0, 0.0]
  {
    var q := CUBE_FACES[0];
    assert QuadData(q)[..6] == [-1.0, 1.0, -1.0, 0.0, 1.0, 0.0];
    assert CubeData() == QuadData(q) + QuadsData(CUBE_FACES[1..]);
  }

  /** Read as vertices, the first one is corner (-1, 1, -1) with normal +Y. */
  lemma CubeFirstVertex()
    ensures |CubeData()| == 216
    ensures Decode(CubeData())[0] == Vertex(Vec3(-1.0, 1.0, -1.0), Vec3(0.0, 1.0, 0.0))
  {
    QuadsVertex(CUBE_FACES, 0, 0);
  }

  /** The six vertices each quad of a run emits all carry that quad's normal. */
  lemma QuadsFlat(qs: seq<Quad>)
    ensures |QuadsData(qs)| % 6 == 0
    ensures forall f | 0 <= f < |qs| :: forall v <- Decode(QuadsData(qs))[6 * f .. 6 * f + 6] :: v.normal == qs[f].normal
  {
    forall f | 0 <= f < |qs|
      ensures forall v <- Decode(QuadsData(qs))[6 * f .. 6 * f + 6] :: v.normal == qs[f].normal
    {
      QuadsSlice(qs, f);
    }
  }

  /** Every vertex position of a run of quads is one of its quads' four corners. */
  lemma {:induction false} QuadsPositions(qs: seq<Quad>, corners: set<Vec3>)
    requires forall q <- qs :: q.p1 in corners && q.p2 in corners && q.p3 in corners && q.p4 in corners
    ensures |QuadsData(qs)| % 6 == 0
    ensures forall v <- Decode(QuadsData(qs)) :: v.position in corners
  {
    if qs != [] {
      QuadLayout(qs[0]);
      QuadsPositions(qs[1..], corners);
      DecodeAppend(QuadData(qs[0]), QuadsData(qs[1..]));
    }
  }

  /** Each face is built from four of the eight corners and has an axis-aligned unit normal, a different one per face. */
  lemma CubeFaces()
    ensures forall f | 0 <= f < 6 :: IsAxisUnit(CUBE_FACES[f].normal)
    ensures forall f | 0 <= f < 6 ::
      var q := CUBE_FACES[f];
      q.p1 in CUBE_POINTS && q.p2 in CUBE_POINTS && q.p3 in CUBE_POINTS && q.p4 in CUBE_POINTS
    ensures forall f, g | 0 <= f < g < 6 :: CUBE_FACES[f].normal != CUBE_FACES[g].normal
  {
  }

  /** Every vertex normal of a run of quads is one of its quads' normals. */
  lemma {:induction false} QuadsNormals(qs: seq<Quad>, normals: set<Vec3>)
    requires forall q <- qs :: q.normal in normals
    ensures |QuadsData(qs)| % 6 == 0
    ensures forall v <- Decode(QuadsData(qs)) :: v.normal in normals
  {
    if qs != [] {
      QuadLayout(qs[0]);
      QuadsNormals(qs[1..], normals);
      DecodeAppend(QuadData(qs[0]), QuadsData(qs[1..]));
    }
  }

  /** Every normal in the cube's buffer is an axis-aligned unit vector. */
  lemma CubeNormals()
    ensures |CubeData()| == 216
    ensures forall v <- Decode(CubeData()) :: IsAxisUnit(v.normal)
  {
    CubeFaces();
    var normals := set q <- CUBE_FACES :: q.normal;
    assert forall n <- normals :: IsAxisUnit(n);
    QuadsNormals(CUBE_FACES, normals);
  }

  /** Flat shading: the six vertices of face `f` (vertices 6f .. 6f+5) all carry that face's normal. */
  lemma CubeFlatNormals()
    ensures |CubeData()| == 216
    ensures forall f | 0 <= f < 6 :: forall v <- Decode(CubeData())[6 * f .. 6 * f + 6] :: v.normal == CUBE_FACES[f].normal
  {
    QuadsFlat(CUBE_FACES);
  }

  /** Both triangles of the quad, (p1,p2,p3) and (p1,p3,p4), wind clockwise seen from its normal's side. */
  predicate QuadWindsClockwise(q: Quad)
  {
    && Winding(q.p1, q.p2, q.p3, q.normal) < 0.0
    && Winding(q.p1, q.p3, q.p4, q.normal) < 0.0
  }

  /** Triangle `2f + k` of a vertex sequence lies in its six vertices `6f .. 6f+5`. */
  lemma TriangleInBlock(vs: seq<Vertex>, f: nat, k: nat)
    requires 6 * f + 6 <= |vs| && k < 2
    ensures TriangleAt(vs, 2 * f + k) == vs[6 * f .. 6 * f + 6][3 * k .. 3 * k + 3]
  {
    var u, w := TriangleAt(vs, 2 * f + k), vs[6 * f .. 6 * f + 6][3 * k .. 3 * k + 3];
    forall n | 0 <= n < 3
      ensures u[n] == w[n]
    {
      assert w[n] == vs[6 * f .. 6 * f + 6][3 * k + n];
    }
  }

  /** The two triangles of a quad split its six vertices in half. */
  lemma QuadTriangles(q: Quad, k: nat)
    requires k < 2
    ensures QuadVertices(q)[3 * k .. 3 * k + 3] == QuadTriangle(q, k)
  {
    if k == 0 {
      assert QuadVertices(q)[..3] == QuadTriangle(q, 0);
    } else {
      assert QuadVertices(q)[3..] == QuadTriangle(q, 1);
    }
  }

  /** Triangle `2f + k` of the output of a run of quads is triangle `k` of quad `f`. */
  lemma QuadsTriangle(qs: seq<Quad>, f: nat, k: nat)
    requires f < |qs| && k < 2
    ensures |QuadsData(qs)| % 6 == 0
    ensures TriangleAt(Decode(QuadsData(qs)), 2 * f + k) == QuadTriangle(qs[f], k)
  {
    QuadsSlice(qs, f);
    TriangleInBlock(Decode(QuadsData(qs)), f, k);
    QuadTriangles(qs[f], k);
  }

  lemma QuadTriangleWinds(q: Quad, k: nat)
    requires k < 2 && QuadWindsClockwise(q)
    ensures WindsClockwise(QuadTriangle(q, k))
  {
    var tri := QuadTriangle(q, k);
    if k == 0 {
      assert tri[0].position == q.p1 && tri[1].position == q.p2 && tri[2].position == q.p3;
    } else {
      assert tri[0].position == q.p1 && tri[1].position == q.p3 && tri[2].position == q.p4;
    }
  }

  lemma QuadsTriangleWinds(qs: seq<Quad>, t: nat)
    requires t < 2 * |qs| && QuadWindsClockwise(qs[t / 2])
    ensures |QuadsData(qs)| % 6 == 0
    ensures WindsClockwise(TriangleAt(Decode(QuadsData(qs)), t))
  {
    QuadsTriangle(qs, t / 2, t % 2);
    QuadTriangleWinds(qs[t / 2], t % 2);
  }

  // The faces one at a time, in the order `buildCube` adds them.

  lemma TopFaceWinding()
    ensures QuadWindsClockwise(CUBE_FACES[0])
  {
    var q := CUBE_FACES[0];
    assert q == Quad(Vec3(-1.0, 1.0, -1.0), Vec3(1.0, 1.0, -1.0), Vec3(1.0, 1.0, 1.0), Vec3(-1.0, 1.0, 1.0), Vec3(0.0, 1.0, 0.0));
    WindingByEdges(q.p1, q.p2, q.p3, q.normal, Vec3(2.0, 0.0, 0.0), Vec3(2.0, 0.0, 2.0));
    WindingByEdges(q.p1, q.p3, q.p4, q.normal, Vec3(2.0, 0.0, 2.0), Vec3(0.0, 0.0, 2.0));
  }

  lemma BottomFaceWinding()
    ensures QuadWindsClockwise(CUBE_FACES[1])
  {
    var q := CUBE_FACES[1];
    assert q == Quad(Vec3(-1.0, -1.0, 1.0), Vec3(1.0, -1.0, 1.0), Vec3(1.0, -1.0, -1.0), Vec3(-1.0, -1.0, -1.0), Vec3(0.0, -1.0, 0.0));
    WindingByEdges(q.p1, q.p2, q.p3, q.normal, Vec3(2.0, 0.0, 0.0), Vec3(2.0, 0.0, -2.0));
    WindingByEdges(q.p1, q.p3, q.p4, q.normal, Vec3(2.0, 0.0, -2.0), Vec3(0.0, 0.0, -2.0));
  }

  lemma BackFaceWinding()
    ensures QuadWindsClockwise(CUBE_FACES[2])
  {
    var q := CUBE_FACES[2];
    assert q == Quad(Vec3(1.0, 1.0, -1.0), Vec3(-1.0, 1.0, -1.0), Vec3(-1.0, -1.0, -1.0), Vec3(1.0, -1.0, -1.0), Vec3(0.0, 0.0, -1.0));
    WindingByEdges(q.p1, q.p2, q.p3, q.normal, Vec3(-2.0, 0.0, 0.0), Vec3(-2.0, -2.0, 0.0));
    WindingByEdges(q.p1, q.p3, q.p4, q.normal, Vec3(-2.0, -2.0, 0.0), Vec3(0.0, -2.0, 0.0));
  }

  lemma FrontFaceWinding()
    ensures QuadWindsClockwise(CUBE_FACES[3])
  {
    var q := CUBE_FACES[3];
    assert q == Quad(Vec3(-1.0, 1.0, 1.0), Vec3(1.0, 1.0, 1.0), Vec3(1.0, -1.0, 1.0), Vec3(-1.0, -1.0, 1.0), Vec3(0.0, 0.0, 1.0));
    WindingByEdges(q.p1, q.p2, q.p3, q.normal, Vec3(2.0, 0.0, 0.0), Vec3(2.0, -2.0, 0.0));
    WindingByEdges(q.p1, q.p3, q.p4, q.normal, Vec3(2.0, -2.0, 0.0), Vec3(0.0, -2.0, 0.0));
  }

  lemma LeftFaceWinding()
    ensures QuadWindsClockwise(CUBE_FACES[4])
  {
    var q := CUBE_FACES[4];
    assert q == Quad(Vec3(-1.0, 1.0, -1.0), Vec3(-1.0, 1.0, 1.0), Vec3(-1.0, -1.0, 1.0), Vec3(-1.0, -1.0, -1.0), Vec3(-1.0, 0.0, 0.0));
    WindingByEdges(q.p1, q.p2, q.p3, q.normal, Vec3(0.0, 0.0, 2.0), Vec3(0.0, -2.0, 2.0));
    WindingByEdges(q.p1, q.p3, q.p4, q.normal, Vec3(0.0, -2.0, 2.0), Vec3(0.0, -2.0, 0.0));
  }

  lemma RightFaceWinding()
    ensures QuadWindsClockwise(CUBE_FACES[5])
  {
    var q := CUBE_FACES[5];
    assert q == Quad(Vec3(1.0, 1.0, 1.0), Vec3(1.0, 1.0, -1.0), Vec3(1.0, -1.0, -1.0), Vec3(1.0, -1.0, 1.0), Vec3(1.0, 0.0, 0.0));
    WindingByEdges(q.p1, q.p2, q.p3, q.normal, Vec3(0.0, 0.0, -2.0), Vec3(0.0, -2.0, -2.0));
    WindingByEdges(q.p1, q.p3, q.p4, q.normal, Vec3(0.0, -2.0, -2.0), Vec3(0.0, -2.0, 0.0));
  }

  lemma CubeFaceWinding(f: nat)
    requires f < 6
    ensures QuadWindsClockwise(CUBE_FACES[f])
  {
    if f == 0 { TopFaceWinding(); }
    else if f == 1 { BottomFaceWinding(); }
    else if f == 2 { BackFaceWinding(); }
    else if f == 3 { FrontFaceWinding(); }
    else if f == 4 { LeftFaceWinding(); }
    else { RightFaceWinding(); }
  }

  /**
   * Consistent winding: all twelve cube triangles wind clockwise seen from
   * outside, the side their stored normal points to.
   */
  lemma CubeWinding()
    ensures |CubeData()| == 216
    ensures AllClockwise(Decode(CubeData()))
  {
    forall t | 0 <= t < |Decode(CubeData())| / 3
      ensures WindsClockwise(TriangleAt(Decode(CubeData()), t))
    {
      CubeTriangleWinding(t);
    }
  }

  lemma CubeTriangleWinding(t: nat)
    requires t < 12
    ensures |CubeData()| == 216
    ensures WindsClockwise(TriangleAt(Decode(CubeData()), t))
  {
    CubeFaceWinding(t / 2);
    QuadsTriangleWinds(CUBE_FACES, t);
  }

  /** Every vertex position is one of the eight cube corners. */
  lemma CubePositions()
    ensures |CubeData()| == 216
    ensures forall v <- Decode(CubeData()) :: v.position in CUBE_POINTS
  {
    CubeFaces();
    QuadsPositions(CUBE_FACES, set p | p in CUBE_POINTS);
  }

  // ---------------------------------------------------------------------------
  // Sphere

  /** `buildFace` stops subdividing at this depth. */
  const SPHERE_DEPTH: nat := 3

  function Pow4(n: nat): nat
  {
    if n == 0 then 1 else 4 * Pow4(n - 1)
  }

  /** The 6 octahedron corners p1 .. p6 of `buildSphere`: -X, +X, -Y, +Y, -Z, +Z. */
  const OCTAHEDRON_CORNERS: seq<Vec3> := [
    Vec3(-1.0, 0.0, 0.0),
    Vec3(1.0, 0.0, 0.0),
    Vec3(0.0, -1.0, 0.0),
    Vec3(0.0, 1.0, 0.0),
    Vec3(0.0, 0.0, -1.0),
    Vec3(0.0, 0.0, 1.0)
  ]

  /** The corner arguments (c1, c2, c3) of one `buildFace` call. */
  datatype Face = Face(c1: Vec3, c2: Vec3, c3: Vec3)

  /** The eight top-level `buildFace` calls, in order: the bottom half (through p3), then the top half (through p4). */
  const OCTAHEDRON_FACES: seq<Face> := [
    Face(OCTAHEDRON_CORNERS[0], OCTAHEDRON_CORNERS[5], OCTAHEDRON_CORNERS[2]),
    Face(OCTAHEDRON_CORNERS[5], OCTAHEDRON_CORNERS[1], OCTAHEDRON_CORNERS[2]),
    Face(OCTAHEDRON_CORNERS[1], OCTAHEDRON_CORNERS[4], OCTAHEDRON_CORNERS[2]),
    Face(OCTAHEDRON_CORNERS[4], OCTAHEDRON_CORNERS[0], OCTAHEDRON_CORNERS[2]),
    Face(OCTAHEDRON_CORNERS[5], OCTAHEDRON_CORNERS[0], OCTAHEDRON_CORNERS[3]),
    Face(OCTAHEDRON_CORNERS[1], OCTAHEDRON_CORNERS[5], OCTAHEDRON_CORNERS[3]),
    Face(OCTAHEDRON_CORNERS[4], OCTAHEDRON_CORNERS[1], OCTAHEDRON_CORNERS[3]),
    Face(OCTAHEDRON_CORNERS[0], OCTAHEDRON_CORNERS[4], OCTAHEDRON_CORNERS[3])
  ]

  /**
   * The four faces one subdivision step makes from `f`, in the order
   * `buildFace` recurses into them: the three corner triangles
   * (c1,m1,m3), (m1,c2,m2), (m3,m2,c3), then the middle one (m1,m2,m3),
   * where m1, m2, m3 are the midpoints of edges c1c2, c2c3, c3c1.
   */
  function Children(lib: VecLib, f: Face): (fs: seq<Face>)
    ensures |fs| == 4
  {
    var m1, m2, m3 := Midpoint(lib, f.c1, f.c2), Midpoint(lib, f.c2, f.c3), Midpoint(lib, f.c3, f.c1);
    [Face(f.c1, m1, m3), Face(m1, f.c2, m2), Face(m3, m2, f.c3), Face(m1, m2, m3)]
  }

  /** The triangle emitted at the cut-off depth: on the unit sphere, each corner is its own normal. */
  function LeafData(f: Face): seq<real>
  {
    TriangleData(f.c1, f.c2, f.c3, f.c1, f.c2, f.c3)
  }

  /**
   * What `buildFace(f.c1, f.c2, f.c3, depth)` appends: the leaf triangle at
   * the cut-off depth, otherwise the data of the four children one level
   * deeper.
   */
  function FaceData(lib: VecLib, f: Face, depth: nat): (r: seq<real>)
    requires depth <= SPHERE_DEPTH
    ensures |r| % 6 == 0
    decreases SPHERE_DEPTH - depth, 0
  {
    if depth == SPHERE_DEPTH then LeafData(f) else FacesData(lib, Children(lib, f), depth + 1)
  }

  /** The data of the faces of `fs`, one after another. */
  function FacesData(lib: VecLib, fs: seq<Face>, depth: nat): (r: seq<real>)
    requires depth <= SPHERE_DEPTH
    ensures |r| % 6 == 0
    decreases SPHERE_DEPTH - depth, |fs|
  {
    if fs == [] then [] else FaceData(lib, fs[0], depth) + FacesData(lib, fs[1..], depth)
  }

  /** The faces of `a + b` emit the data of `a`'s faces, then that of `b`'s. */
  lemma {:induction false} FacesDataAppend(lib: VecLib, a: seq<Face>, b: seq<Face>, depth: nat)
    requires depth <= SPHERE_DEPTH
    ensures FacesData(lib, a + b, depth) == FacesData(lib, a, depth) + FacesData(lib, b, depth)
    decreases |a|
  {
    if a == [] {
      assert a + b == b;
    } else {
      assert (a + b)[1..] == a[1..] + b;
      assert (a + b)[0] == a[0];
      FacesDataAppend(lib, a[1..], b, depth);
    }
  }

  /** A single face emits its own data. */
  lemma FacesSingle(lib: VecLib, f: Face, depth: nat)
    requires depth <= SPHERE_DEPTH
    ensures FacesData(lib, [f], depth) == FaceData(lib, f, depth)
  {
    assert [f][1..] == [];
  }

  /** Four faces emit, in order, what each of them emits alone. */
  lemma FourFaces(lib: VecLib, fs: seq<Face>, depth: nat)
    requires depth <= SPHERE_DEPTH && |fs| == 4
    ensures FacesData(lib, fs, depth)
      == FaceData(lib, fs[0], depth) + FaceData(lib, fs[1], depth)
       + FaceData(lib, fs[2], depth) + FaceData(lib, fs[3], depth)
  {
    var a, b, c, d := [fs[0]], [fs[1]], [fs[2]], [fs[3]];
    assert fs == a + b + c + d;
    FacesDataAppend(lib, a + b + c, d, depth);
    FacesDataAppend(lib, a + b, c, depth);
    FacesDataAppend(lib, a, b, depth);
    FacesSingle(lib, fs[0], depth);
    FacesSingle(lib, fs[1], depth);
    FacesSingle(lib, fs[2], depth);
    FacesSingle(lib, fs[3], depth);
  }

  /**
   * Above the cut-off depth, a face emits its four children's data in the
   * order `buildFace` recurses into them.
   */
  lemma FaceSplit(lib: VecLib, c1: Vec3, c2: Vec3, c3: Vec3, m1: Vec3, m2: Vec3, m3: Vec3, depth: nat)
    requires depth < SPHERE_DEPTH
    requires m1 == Midpoint(lib, c1, c2) && m2 == Midpoint(lib, c2, c3) && m3 == Midpoint(lib, c3, c1)
    ensures FaceData(lib, Face(c1, c2, c3), depth)
      == FaceData(lib, Face(c1, m1, m3), depth + 1) + FaceData(lib, Face(m1, c2, m2), depth + 1)
       + FaceData(lib, Face(m3, m2, c3), depth + 1) + FaceData(lib, Face(m1, m2, m3), depth + 1)
  {
    FourFaces(lib, Children(lib, Face(c1, c2, c3)), depth + 1);
  }

  /**
   * `FaceSplit` for a buffer that grows from `s0` by the four children's
   * data, one child at a time, as `buildFace` appends it.
   */
  lemma FaceSplitAfter(lib: VecLib, s0: seq<real>, s1: seq<real>, s2: seq<real>, s3: seq<real>, s4: seq<real>,
                       c1: Vec3, c2: Vec3, c3: Vec3, m1: Vec3, m2: Vec3, m3: Vec3, depth: nat)
    requires depth < SPHERE_DEPTH
    requires m1 == Midpoint(lib, c1, c2) && m2 == Midpoint(lib, c2, c3) && m3 == Midpoint(lib, c3, c1)
    requires s1 == s0 + FaceData(lib, Face(c1, m1, m3), depth + 1)
    requires s2 == s1 + FaceData(lib, Face(m1, c2, m2), depth + 1)
    requires s3 == s2 + FaceData(lib, Face(m3, m2, c3), depth + 1)
    requires s4 == s3 + FaceData(lib, Face(m1, m2, m3), depth + 1)
    ensures s4 == s0 + FaceData(lib, Face(c1, c2, c3), depth)
  {
    FaceSplit(lib, c1, c2, c3, m1, m2, m3, depth);
    ConcatAssoc(s0, FaceData(lib, Face(c1, m1, m3), depth + 1), FaceData(lib, Face(m1, c2, m2), depth + 1),
                FaceData(lib, Face(m3, m2, c3), depth + 1), FaceData(lib, Face(m1, m2, m3), depth + 1));
  }

  lemma ConcatAssoc<T>(s: seq<T>, a: seq<T>, b: seq<T>, c: seq<T>, d: seq<T>)
    ensures s + a + b + c + d == s + (a + b + c + d)
  {
    assert s + a + b + c + d == s + (a + b) + c + d;
    assert s + (a + b) + c + d == s + (a + b + c) + d;
  }

  method BuildFace(data: NumberList, lib: VecLib, c1: Vec3, c2: Vec3, c3: Vec3, depth: nat)
    requires depth <= SPHERE_DEPTH
    modifies data
    ensures data.items == old(data.items) + FaceData(lib, Face(c1, c2, c3), depth)
    decreases SPHERE_DEPTH - depth
  {
    if depth == SPHERE_DEPTH {
      AddTriangle(data, c1, c2, c3, c1, c2, c3);
    } else {
      var m1 := Add(c1, c2);
      m1 := lib.normalize(m1);
      var m2 := Add(c2, c3);
      m2 := lib.normalize(m2);
      var m3 := Add(c3, c1);
      m3 := lib.normalize(m3);
      ghost var s0 := data.items;
      BuildFace(data, lib, c1, m1, m3, depth + 1);
      ghost var s1 := data.items;
      BuildFace(data, lib, m1, c2, m2, depth + 1);
      ghost var s2 := data.items;
      BuildFace(data, lib, m3, m2, c3, depth + 1);
      ghost var s3 := data.items;
      BuildFace(data, lib, m1, m2, m3, depth + 1);
      FaceSplitAfter(lib, s0, s1, s2, s3, data.items, c1, c2, c3, m1, m2, m3, depth);
    }
  }

  /** What `buildSphere` returns, before the conversion to 32-bit floats. */
  function SphereData(lib: VecLib): seq<real>
  {
    FacesData(lib, OCTAHEDRON_FACES, 0)
  }

  /** Eight faces emit, in order, what each of them emits alone. */
  lemma EightFaces(lib: VecLib, fs: seq<Face>, depth: nat)
    requires depth <= SPHERE_DEPTH && |fs| == 8
    ensures FacesData(lib, fs, depth)
      == FaceData(lib, fs[0], depth) + FaceData(lib, fs[1], depth)
       + FaceData(lib, fs[2], depth) + FaceData(lib, fs[3], depth)
       + FaceData(lib, fs[4], depth) + FaceData(lib, fs[5], depth)
       + FaceData(lib, fs[6], depth) + FaceData(lib, fs[7], depth)
  {
    var a, b := fs[..4], fs[4..];
    assert fs == a + b;
    assert a[0] == fs[0] && a[1] == fs[1] && a[2] == fs[2] && a[3] == fs[3];
    assert b[0] == fs[4] && b[1] == fs[5] && b[2] == fs[6] && b[3] == fs[7];
    FacesDataAppend(lib, a, b, depth);
    FourFaces(lib, a, depth);
    FourFaces(lib, b, depth);
    ConcatAssoc(FacesData(lib, a, depth), FaceData(lib, fs[4], depth), FaceData(lib, fs[5], depth),
                FaceData(lib, fs[6], depth), FaceData(lib, fs[7], depth));
  }

  /** The sphere data as the eight top-level `buildFace` calls emit it, one after another. */
  lemma SphereDataUnfolded(lib: VecLib)
    ensures SphereData(lib)
      == FaceData(lib, Face(OCTAHEDRON_CORNERS[0], OCTAHEDRON_CORNERS[5], OCTAHEDRON_CORNERS[2]), 0)
       + FaceData(lib, Face(OCTAHEDRON_CORNERS[5], OCTAHEDRON_CORNERS[1], OCTAHEDRON_CORNERS[2]), 0)
       + FaceData(lib, Face(OCTAHEDRON_CORNERS[1], OCTAHEDRON_CORNERS[4], OCTAHEDRON_CORNERS[2]), 0)
       + FaceData(lib, Face(OCTAHEDRON_CORNERS[4], OCTAHEDRON_CORNERS[0], OCTAHEDRON_CORNERS[2]), 0)
       + FaceData(lib, Face(OCTAHEDRON_CORNERS[5], OCTAHEDRON_CORNERS[0], OCTAHEDRON_CORNERS[3]), 0)
       + FaceData(lib, Face(OCTAHEDRON_CORNERS[1], OCTAHEDRON_CORNERS[5], OCTAHEDRON_CORNERS[3]), 0)
       + FaceData(lib, Face(OCTAHEDRON_CORNERS[4], OCTAHEDRON_CORNERS[1], OCTAHEDRON_CORNERS[3]), 0)
       + FaceData(lib, Face(OCTAHEDRON_CORNERS[0], OCTAHEDRON_CORNERS[4], OCTAHEDRON_CORNERS[3]), 0)
  {
    EightFaces(lib, OCTAHEDRON_FACES, 0);
  }

  method BuildSphere(lib: VecLib) returns (r: seq<real>)
    ensures r == SphereData(lib)
  {
    var data := new NumberList();
    var p1, p2, p3 := OCTAHEDRON_CORNERS[0], OCTAHEDRON_CORNERS[1], OCTAHEDRON_CORNERS[2];
    var p4, p5, p6 := OCTAHEDRON_CORNERS[3], OCTAHEDRON_CORNERS[4], OCTAHEDRON_CORNERS[5];
    BuildFace(data, lib, p1, p6, p3, 0);
    assert data.items == FaceData(lib, Face(p1, p6, p3), 0);
    BuildFace(data, lib, p6, p2, p3, 0);
    BuildFace(data, lib, p2, p5, p3, 0);
    BuildFace(data, lib, p5, p1, p3, 0);

    BuildFace(data, lib, p6, p1, p4, 0);
    BuildFace(data, lib, p2, p6, p4, 0);
    BuildFace(data, lib, p5, p2, p4, 0);
    BuildFace(data, lib, p1, p5, p4, 0);
    r := data.items;
    SphereDataUnfolded(lib);
  }

  /** A face emits 4^(3 - depth) triangles of 18 numbers each. */
  lemma {:induction false} FaceLength(lib: VecLib, f: Face, depth: nat)
    requires depth <= SPHERE_DEPTH
    ensures |FaceData(lib, f, depth)| == 18 * Pow4(SPHERE_DEPTH - depth)
    decreases SPHERE_DEPTH - depth, 0
  {
    if depth < SPHERE_DEPTH {
      FacesLength(lib, Children(lib, f), depth + 1);
      assert Pow4(SPHERE_DEPTH - depth) == 4 * Pow4(SPHERE_DEPTH - (depth + 1));
    }
  }

  lemma {:induction false} FacesLength(lib: VecLib, fs: seq<Face>, depth: nat)
    requires depth <= SPHERE_DEPTH
    ensures |FacesData(lib, fs, depth)| == 18 * Pow4(SPHERE_DEPTH - depth) * |fs|
    decreases SPHERE_DEPTH - depth, |fs|
  {
    if fs != [] {
      FaceLength(lib, fs[0], depth);
      FacesLength(lib, fs[1..], depth);
      var n := 18 * Pow4(SPHERE_DEPTH - depth);
      assert n * |fs| == n + n * |fs[1..]|;
    }
  }

  /** A face emits whole triangles: its vertex count is a multiple of three. */
  lemma FaceTriangles(lib: VecLib, f: Face, depth: nat)
    requires depth <= SPHERE_DEPTH
    ensures |Decode(FaceData(lib, f, depth))| % 3 == 0
  {
    FaceLength(lib, f, depth);
    var n := Pow4(SPHERE_DEPTH - depth);
    assert |FaceData(lib, f, depth)| / 6 == 3 * n;
  }

  /** The whole sphere: 8 faces of 64 triangles each, 9216 numbers. */
  lemma SphereLength(lib: VecLib)
    ensures forall f: Face :: |FaceData(lib, f, 0)| == 18 * 64
    ensures |SphereData(lib)| == 9216
  {
    forall f: Face
      ensures |FaceData(lib, f, 0)| == 18 * 64
    {
      FaceLength(lib, f, 0);
    }
    FacesLength(lib, OCTAHEDRON_FACES, 0);
  }

  /** Every vertex a face emits carries its own position as its normal. */
  lemma {:induction false} FaceNormals(lib: VecLib, f: Face, depth: nat)
    requires depth <= SPHERE_DEPTH
    ensures forall v <- Decode(FaceData(lib, f, depth)) :: v.normal == v.position
    decreases SPHERE_DEPTH - depth, 0
  {
    if depth == SPHERE_DEPTH {
      TriangleLayout(f.c1, f.c2, f.c3, f.c1, f.c2, f.c3);
    } else {
      FacesNormals(lib, Children(lib, f), depth + 1);
    }
  }

  lemma {:induction false} FacesNormals(lib: VecLib, fs: seq<Face>, depth: nat)
    requires depth <= SPHERE_DEPTH
    ensures forall v <- Decode(FacesData(lib, fs, depth)) :: v.normal == v.position
    decreases SPHERE_DEPTH - depth, |fs|
  {
    if fs != [] {
      FaceNormals(lib, fs[0], depth);
      FacesNormals(lib, fs[1..], depth);
      DecodeAppend(FaceData(lib, fs[0], depth), FacesData(lib, fs[1..], depth));
    }
  }

  /** `inv` holds of the midpoint of any two points it holds of. */
  ghost predicate MidpointClosed(lib: VecLib, inv: Vec3 -> bool)
  {
    forall a, b :: inv(a) && inv(b) ==> inv(Midpoint(lib, a, b))
  }

  /**
   * Every emitted position is a face corner or a (repeated) midpoint of
   * corners, so it keeps any property that the corners have and that
   * midpoints preserve.
   */
  lemma {:induction false} FacePositions(lib: VecLib, inv: Vec3 -> bool, f: Face, depth: nat)
    requires depth <= SPHERE_DEPTH
    requires MidpointClosed(lib, inv)
    requires inv(f.c1) && inv(f.c2) && inv(f.c3)
    ensures forall v <- Decode(FaceData(lib, f, depth)) :: inv(v.position)
    decreases SPHERE_DEPTH - depth, 0
  {
    if depth == SPHERE_DEPTH {
      TriangleLayout(f.c1, f.c2, f.c3, f.c1, f.c2, f.c3);
    } else {
      FacesPositions(lib, inv, Children(lib, f), depth + 1);
    }
  }

  lemma {:induction false} FacesPositions(lib: VecLib, inv: Vec3 -> bool, fs: seq<Face>, depth: nat)
    requires depth <= SPHERE_DEPTH
    requires MidpointClosed(lib, inv)
    requires forall f <- fs :: inv(f.c1) && inv(f.c2) && inv(f.c3)
    ensures forall v <- Decode(FacesData(lib, fs, depth)) :: inv(v.position)
    decreases SPHERE_DEPTH - depth, |fs|
  {
    if fs != [] {
      FacePositions(lib, inv, fs[0], depth);
      FacesPositions(lib, inv, fs[1..], depth);
      DecodeAppend(FaceData(lib, fs[0], depth), FacesData(lib, fs[1..], depth));
    }
  }

  /** The first vertex a face emits is its first corner, with itself as normal. */
  lemma {:induction false} FaceFirstVertex(lib: VecLib, f: Face, depth: nat)
    requires depth <= SPHERE_DEPTH
    ensures |FaceData(lib, f, depth)| > 0
    ensures Decode(FaceData(lib, f, depth))[0] == Vertex(f.c1, f.c1)
    decreases SPHERE_DEPTH - depth
  {
    if depth == SPHERE_DEPTH {
      TriangleLayout(f.c1, f.c2, f.c3, f.c1, f.c2, f.c3);
    } else {
      var ch := Children(lib, f);
      var first, rest := FaceData(lib, ch[0], depth + 1), FacesData(lib, ch[1..], depth + 1);
      assert ch[0].c1 == f.c1;
      assert FaceData(lib, f, depth) == first + rest;
      FaceFirstVertex(lib, ch[0], depth + 1);
      DecodeAppend(first, rest);
    }
  }

  /** The octahedron corners are the six axis-aligned unit vectors, all different. */
  lemma OctahedronCorners()
    ensures forall p: Vec3 :: p in OCTAHEDRON_CORNERS <==> IsAxisUnit(p)
    ensures forall i, j | 0 <= i < j < |OCTAHEDRON_CORNERS| :: OCTAHEDRON_CORNERS[i] != OCTAHEDRON_CORNERS[j]
    ensures forall p <- OCTAHEDRON_CORNERS :: IsUnit(p)
  {
  }

  /** Each corner of each octahedron face lies on the unit sphere. */
  lemma OctahedronFacesUnit()
    ensures forall f <- OCTAHEDRON_FACES :: IsUnit(f.c1) && IsUnit(f.c2) && IsUnit(f.c3)
  {
    OctahedronFaceCorners();
    assert forall p <- OCTAHEDRON_CORNERS :: IsUnit(p);
  }

  /** Each octahedron face is built from three of the six corners. */
  lemma OctahedronFaceCorners()
    ensures forall f <- OCTAHEDRON_FACES :: f.c1 in OCTAHEDRON_CORNERS && f.c2 in OCTAHEDRON_CORNERS && f.c3 in OCTAHEDRON_CORNERS
  {
  }

  /** Normals equal positions throughout the sphere, and its first vertex is p1 = (-1, 0, 0). */
  lemma SphereVertices(lib: VecLib)
    ensures |SphereData(lib)| == 9216
    ensures forall v <- Decode(SphereData(lib)) :: v.normal == v.position
    ensures Decode(SphereData(lib))[0] == Vertex(Vec3(-1.0, 0.0, 0.0), Vec3(-1.0, 0.0, 0.0))
  {
    var fs := OCTAHEDRON_FACES;
    SphereLength(lib);
    FacesNormals(lib, fs, 0);
    FaceFirstVertex(lib, fs[0], 0);
    DecodeAppend(FaceData(lib, fs[0], 0), FacesData(lib, fs[1..], 0));
  }

  /** The octant an octahedron face spans: the signs of the sum of its three axis corners. */
  function FaceOctant(f: Face): Octant
  {
    var s := Add(Add(f.c1, f.c2), f.c3);
    Octant(s.x > 0.0, s.y > 0.0, s.z > 0.0)
  }

  /** The corners of `f` lie in the closed octant `o`. */
  predicate CornersInOctant(f: Face, o: Octant)
  {
    InOctant(f.c1, o) && InOctant(f.c2, o) && InOctant(f.c3, o)
  }

  /** When at most one of three numbers is nonzero, all three have the sign of their sum. */
  lemma SingleTermSign(a: real, b: real, c: real)
    requires (b == 0.0 && c == 0.0) || (a == 0.0 && c == 0.0) || (a == 0.0 && b == 0.0)
    ensures var positive := a + b + c > 0.0;
      SameSign(positive, a) && SameSign(positive, b) && SameSign(positive, c)
  {
  }

  /**
   * The first two corners of `f` lie on the X and Z axes (in either order)
   * and its third on the Y axis.
   */
  predicate AxisFace(f: Face)
  {
    ((f.c1.y == 0.0 && f.c1.z == 0.0 && f.c2.x == 0.0 && f.c2.y == 0.0)
     || (f.c1.x == 0.0 && f.c1.y == 0.0 && f.c2.y == 0.0 && f.c2.z == 0.0))
    && f.c3.x == 0.0 && f.c3.z == 0.0
  }

  /** A face with one corner on each axis spans one octant. */
  lemma AxisFaceOctant(f: Face)
    requires AxisFace(f)
    ensures CornersInOctant(f, FaceOctant(f))
  {
    SingleTermSign(f.c1.x, f.c2.x, f.c3.x);
    SingleTermSign(f.c1.y, f.c2.y, f.c3.y);
    SingleTermSign(f.c1.z, f.c2.z, f.c3.z);
  }

  /** Every octahedron face has its corners on the X, Z and Y axes, in that order or with X and Z swapped. */
  lemma OctahedronAxisFaces()
    ensures forall f <- OCTAHEDRON_FACES :: AxisFace(f)
  {
  }

  /**
   * Each octahedron face has one corner on each axis, so its corners are
   * unit vectors of exactly one octant.
   */
  lemma OctahedronOctants()
    ensures forall f <- OCTAHEDRON_FACES :: IsUnit(f.c1) && IsUnit(f.c2) && IsUnit(f.c3) && CornersInOctant(f, FaceOctant(f))
  {
    OctahedronFacesUnit();
    OctahedronAxisFaces();
    forall f <- OCTAHEDRON_FACES
      ensures CornersInOctant(f, FaceOctant(f))
    {
      AxisFaceOctant(f);
    }
  }

  /**
   * With an exact `normalize`, every position emitted by faces that each
   * span an octant lies on the unit sphere: midpoints stay unit vectors of
   * the face's octant, and so never come from two opposite vectors.
   */
  lemma {:induction false} FacesOnUnitSphere(lib: VecLib, scale: Vec3 -> real, fs: seq<Face>, depth: nat)
    requires depth <= SPHERE_DEPTH
    requires NormalizesExactly(lib, scale)
    requires forall f <- fs :: IsUnit(f.c1) && IsUnit(f.c2) && IsUnit(f.c3) && CornersInOctant(f, FaceOctant(f))
    ensures forall v <- Decode(FacesData(lib, fs, depth)) :: IsUnit(v.position)
    decreases |fs|
  {
    if fs != [] {
      var o := FaceOctant(fs[0]);
      var inv := (p: Vec3) => IsUnit(p) && InOctant(p, o);
      forall a, b | inv(a) && inv(b)
        ensures inv(Midpoint(lib, a, b))
      {
        MidpointInOctant(lib, scale, a, b, o);
      }
      assert MidpointClosed(lib, inv);
      FacePositions(lib, inv, fs[0], depth);
      FacesOnUnitSphere(lib, scale, fs[1..], depth);
      DecodeAppend(FaceData(lib, fs[0], depth), FacesData(lib, fs[1..], depth));
    }
  }

  /** With an exact `normalize`, every sphere position and normal lies on the unit sphere. */
  lemma SphereOnUnitSphere(lib: VecLib, scale: Vec3 -> real)
    requires NormalizesExactly(lib, scale)
    ensures |SphereData(lib)| == 9216
    ensures forall v <- Decode(SphereData(lib)) :: IsUnit(v.position) && IsUnit(v.normal)
  {
    SphereLength(lib);
    assert forall v <- Decode(SphereData(lib)) :: IsUnit(v.position) by {
      OctahedronOctants();
      FacesOnUnitSphere(lib, scale, OCTAHEDRON_FACES, 0);
    }
    FacesNormals(lib, OCTAHEDRON_FACES, 0);
  }

  /** Clockwise winding of a face seen from outside, where its first corner points. */
  predicate FaceWindsClockwise(f: Face)
  {
    Winding(f.c1, f.c2, f.c3, f.c1) < 0.0
  }

  /** The triangle emitted for a face at the cut-off depth winds as the face does. */
  lemma LeafWinding(f: Face)
    ensures |LeafData(f)| == 18
    ensures WindsClockwise(Decode(LeafData(f))) <==> FaceWindsClockwise(f)
  {
    TriangleLayout(f.c1, f.c2, f.c3, f.c1, f.c2, f.c3);
  }

  lemma FaceWindingByEdges(f: Face, e1: Vec3, e2: Vec3)
    requires Sub(f.c2, f.c1) == e1 && Sub(f.c3, f.c1) == e2
    requires Dot(Cross(e1, e2), f.c1) < 0.0
    ensures FaceWindsClockwise(f)
  {
    WindingByEdges(f.c1, f.c2, f.c3, f.c1, e1, e2);
  }

  /** Each of the eight octahedron faces `buildSphere` starts from winds clockwise. */
  lemma OctahedronWinding(k: nat)
    requires k < 8
    ensures FaceWindsClockwise(OCTAHEDRON_FACES[k])
  {
    if k == 0 {
      assert FaceWindsClockwise(OCTAHEDRON_FACES[0]) by {
        FaceWindingByEdges(OCTAHEDRON_FACES[0], Vec3(1.0, 0.0, 1.0), Vec3(1.0, -1.0, 0.0));
      }
    } else if k == 1 {
      assert FaceWindsClockwise(OCTAHEDRON_FACES[1]) by {
        FaceWindingByEdges(OCTAHEDRON_FACES[1], Vec3(1.0, 0.0, -1.0), Vec3(0.0, -1.0, -1.0));
      }
    } else if k == 2 {
      assert FaceWindsClockwise(OCTAHEDRON_FACES[2]) by {
        FaceWindingByEdges(OCTAHEDRON_FACES[2], Vec3(-1.0, 0.0, -1.0), Vec3(-1.0, -1.0, 0.0));
      }
    } else if k == 3 {
      assert FaceWindsClockwise(OCTAHEDRON_FACES[3]) by {
        FaceWindingByEdges(OCTAHEDRON_FACES[3], Vec3(-1.0, 0.0, 1.0), Vec3(0.0, -1.0, 1.0));
      }
    } else if k == 4 {
      assert FaceWindsClockwise(OCTAHEDRON_FACES[4]) by {
        FaceWindingByEdges(OCTAHEDRON_FACES[4], Vec3(-1.0, 0.0, -1.0), Vec3(0.0, 1.0, -1.0));
      }
    } else if k == 5 {
      assert FaceWindsClockwise(OCTAHEDRON_FACES[5]) by {
        FaceWindingByEdges(OCTAHEDRON_FACES[5], Vec3(-1.0, 0.0, 1.0), Vec3(-1.0, 1.0, 0.0));
      }
    } else if k == 6 {
      assert FaceWindsClockwise(OCTAHEDRON_FACES[6]) by {
        FaceWindingByEdges(OCTAHEDRON_FACES[6], Vec3(1.0, 0.0, 1.0), Vec3(0.0, 1.0, 1.0));
      }
    } else {
      assert FaceWindsClockwise(OCTAHEDRON_FACES[7]) by {
        FaceWindingByEdges(OCTAHEDRON_FACES[7], Vec3(1.0, 0.0, -1.0), Vec3(1.0, 1.0, 0.0));
      }
    }
  }

  /** A face winds clockwise exactly when the determinant of its corners is negative. */
  lemma FaceWindingDet(f: Face)
    ensures FaceWindsClockwise(f) <==> Det(f.c1, f.c2, f.c3) < 0.0
  {
    WindingAtCorner(f.c1, f.c2, f.c3);
  }

  lemma NegativeTimesPositive(a: real, b: real, d: real)
    requires a > 0.0 && b > 0.0 && d < 0.0
    ensures a * b * d < 0.0
  {
    assert a * b > 0.0;
  }

  /** The corner child (c1, m1, m3) keeps a negative determinant when m1, m3 are positive multiples of the edge sums. */
  lemma ChildC1Det(c1: Vec3, c2: Vec3, c3: Vec3, s1: real, s3: real)
    requires s1 > 0.0 && s3 > 0.0 && Det(c1, c2, c3) < 0.0
    ensures Det(c1, Scale(s1, Add(c1, c2)), Scale(s3, Add(c3, c1))) < 0.0
  {
    DetScale2(s1, c1, Add(c1, c2), Scale(s3, Add(c3, c1)));
    DetScale3(s3, c1, Add(c1, c2), Add(c3, c1));
    DetCornerC1(c1, c2, c3);
    NegativeTimesPositive(s1, s3, Det(c1, c2, c3));
  }

  /** Likewise the corner child (m1, c2, m2). */
  lemma ChildC2Det(c1: Vec3, c2: Vec3, c3: Vec3, s1: real, s2: real)
    requires s1 > 0.0 && s2 > 0.0 && Det(c1, c2, c3) < 0.0
    ensures Det(Scale(s1, Add(c1, c2)), c2, Scale(s2, Add(c2, c3))) < 0.0
  {
    DetScale1(s1, Add(c1, c2), c2, Scale(s2, Add(c2, c3)));
    DetScale3(s2, Add(c1, c2), c2, Add(c2, c3));
    DetCornerC2(c1, c2, c3);
    NegativeTimesPositive(s1, s2, Det(c1, c2, c3));
  }

  /** Likewise the corner child (m3, m2, c3). */
  lemma ChildC3Det(c1: Vec3, c2: Vec3, c3: Vec3, s2: real, s3: real)
    requires s2 > 0.0 && s3 > 0.0 && Det(c1, c2, c3) < 0.0
    ensures Det(Scale(s3, Add(c3, c1)), Scale(s2, Add(c2, c3)), c3) < 0.0
  {
    DetScale1(s3, Add(c3, c1), Scale(s2, Add(c2, c3)), c3);
    DetScale2(s2, Add(c3, c1), Add(c2, c3), c3);
    DetCornerC3(c1, c2, c3);
    NegativeTimesPositive(s3, s2, Det(c1, c2, c3));
  }

  /** Likewise the middle child (m1, m2, m3). */
  lemma ChildMiddleDet(c1: Vec3, c2: Vec3, c3: Vec3, s1: real, s2: real, s3: real)
    requires s1 > 0.0 && s2 > 0.0 && s3 > 0.0 && Det(c1, c2, c3) < 0.0
    ensures Det(Scale(s1, Add(c1, c2)), Scale(s2, Add(c2, c3)), Scale(s3, Add(c3, c1))) < 0.0
  {
    var a1, a2, a3 := Add(c1, c2), Add(c2, c3), Add(c3, c1);
    DetScale1(s1, a1, Scale(s2, a2), Scale(s3, a3));
    DetScale2(s2, a1, a2, Scale(s3, a3));
    DetScale3(s3, a1, a2, a3);
    DetMiddle(c1, c2, c3);
    NegativeTimesPositive(s1, s2, s3 * (2.0 * Det(c1, c2, c3)));
  }

  /**
   * Subdivision keeps the orientation: when the library adds exactly and
   * normalises by a positive factor, all four children of a clockwise face
   * wind clockwise too.
   */
  lemma ChildrenWinding(lib: VecLib, scale: Vec3 -> real, f: Face)
    requires Rescales(lib, scale)
    requires FaceWindsClockwise(f)
    ensures forall ch <- Children(lib, f) :: FaceWindsClockwise(ch)
  {
    var c1, c2, c3 := f.c1, f.c2, f.c3;
    FaceWindingDet(f);
    var s1 := MidpointScales(lib, scale, c1, c2);
    var s2 := MidpointScales(lib, scale, c2, c3);
    var s3 := MidpointScales(lib, scale, c3, c1);
    ChildC1Det(c1, c2, c3, s1, s3);
    ChildC2Det(c1, c2, c3, s1, s2);
    ChildC3Det(c1, c2, c3, s2, s3);
    ChildMiddleDet(c1, c2, c3, s1, s2, s3);
    var ch := Children(lib, f);
    FaceWindingDet(ch[0]);
    FaceWindingDet(ch[1]);
    FaceWindingDet(ch[2]);
    FaceWindingDet(ch[3]);
  }

  /** Every triangle a clockwise face emits winds clockwise. */
  lemma {:induction false} FaceClockwise(lib: VecLib, scale: Vec3 -> real, f: Face, depth: nat)
    requires depth <= SPHERE_DEPTH
    requires Rescales(lib, scale) && FaceWindsClockwise(f)
    ensures AllClockwise(Decode(FaceData(lib, f, depth)))
    decreases SPHERE_DEPTH - depth, 0
  {
    if depth == SPHERE_DEPTH {
      LeafWinding(f);
      TriangleLayout(f.c1, f.c2, f.c3, f.c1, f.c2, f.c3);
      assert TriangleAt(Decode(LeafData(f)), 0) == Decode(LeafData(f));
    } else {
      ChildrenWinding(lib, scale, f);
      FacesClockwise(lib, scale, Children(lib, f), depth + 1);
    }
  }

  lemma {:induction false} FacesClockwise(lib: VecLib, scale: Vec3 -> real, fs: seq<Face>, depth: nat)
    requires depth <= SPHERE_DEPTH
    requires Rescales(lib, scale) && forall f <- fs :: FaceWindsClockwise(f)
    ensures AllClockwise(Decode(FacesData(lib, fs, depth)))
    decreases SPHERE_DEPTH - depth, |fs|
  {
    if fs != [] {
      var first, rest := FaceData(lib, fs[0], depth), FacesData(lib, fs[1..], depth);
      FaceClockwise(lib, scale, fs[0], depth);
      FacesClockwise(lib, scale, fs[1..], depth);
      FaceTriangles(lib, fs[0], depth);
      DecodeAppend(first, rest);
      AllClockwiseAppend(Decode(first), Decode(rest));
    }
  }

  /**
   * Every one of the 512 sphere triangles winds clockwise seen from outside,
   * given a library that adds exactly and normalises by a positive factor.
   */
  lemma SphereWinding(lib: VecLib, scale: Vec3 -> real)
    requires Rescales(lib, scale)
    ensures |SphereData(lib)| == 9216
    ensures AllClockwise(Decode(SphereData(lib)))
  {
    forall f <- OCTAHEDRON_FACES
      ensures FaceWindsClockwise(f)
    {
      var k :| 0 <= k < 8 && OCTAHEDRON_FACES[k] == f;
      OctahedronWinding(k);
    }
    SphereLength(lib);
    FacesClockwise(lib, scale, OCTAHEDRON_FACES, 0);
  }
}
