/**
 * How a flat number buffer is read as interleaved vertex records: every six
 * numbers are one vertex (position x,y,z then normal x,y,z), and every three
 * consecutive vertices are one triangle.
 */
module VertexLayout {
  import opened Vec3Math

  datatype Vertex = Vertex(position: Vec3, normal: Vec3)

  /** The six numbers of one vertex record. */
  function VertexData(v: Vertex): seq<real>
  {
    Components(v.position) + Components(v.normal)
  }

  /** Writes vertex records one after another. */
  function Encode(vs: seq<Vertex>): (s: seq<real>)
    ensures |s| == 6 * |vs|
  {
    if vs == [] then [] else VertexData(vs[0]) + Encode(vs[1..])
  }

  /** Reads a buffer of whole records back as vertices. */
  function Decode(s: seq<real>): (vs: seq<Vertex>)
    requires |s| % 6 == 0
    ensures |vs| == |s| / 6
    decreases |s|
  {
    if s == [] then []
    else [Vertex(Vec3(s[0], s[1], s[2]), Vec3(s[3], s[4], s[5]))] + Decode(s[6..])
  }

  lemma {:induction false} DecodeEncode(vs: seq<Vertex>)
    ensures Decode(Encode(vs)) == vs
  {
    if vs != [] {
      var s := Encode(vs);
      assert s[6..] == Encode(vs[1..]);
      DecodeEncode(vs[1..]);
      assert vs == [vs[0]] + vs[1..];
    }
  }

  lemma {:induction false} EncodeDecode(s: seq<real>)
    requires |s| % 6 == 0
    ensures Encode(Decode(s)) == s
    decreases |s|
  {
    if s != [] {
      var vs := Decode(s);
      assert vs[1..] == Decode(s[6..]);
      EncodeDecode(s[6..]);
      assert VertexData(vs[0]) == s[..6];
      assert s == s[..6] + s[6..];
    }
  }

  /** Decoding respects concatenation of whole-record buffers. */
  lemma {:induction false} DecodeAppend(a: seq<real>, b: seq<real>)
    requires |a| % 6 == 0 && |b| % 6 == 0
    ensures Decode(a + b) == Decode(a) + Decode(b)
    decreases |a|
  {
    if a == [] {
      assert a + b == b;
    } else {
      assert (a + b)[6..] == a[6..] + b;
      DecodeAppend(a[6..], b);
    }
  }

  /** The `t`-th triangle: vertices `3t`, `3t+1`, `3t+2`. */
  function TriangleAt(vs: seq<Vertex>, t: nat): (tri: seq<Vertex>)
    requires 3 * t + 3 <= |vs|
  {
    vs[3 * t .. 3 * t + 3]
  }

  /**
   * Clockwise winding seen from the side the stored normal points to: the
   * right-hand-rule normal (p2 - p1) x (p3 - p1) lies in the half-space
   * opposite the normal stored with the first vertex.
   */
  predicate WindsClockwise(tri: seq<Vertex>)
    requires |tri| == 3
  {
    Winding(tri[0].position, tri[1].position, tri[2].position, tri[0].normal) < 0.0
  }

  /** Every whole triangle of the vertex sequence winds clockwise. */
  predicate AllClockwise(vs: seq<Vertex>)
  {
    forall t | 0 <= t < |vs| / 3 :: WindsClockwise(TriangleAt(vs, t))
  }

  /** Joining two runs of whole triangles that all wind clockwise gives one that does. */
  lemma AllClockwiseAppend(a: seq<Vertex>, b: seq<Vertex>)
    requires |a| % 3 == 0
    requires AllClockwise(a) && AllClockwise(b)
    ensures AllClockwise(a + b)
  {
    var n := |a| / 3;
    forall t | 0 <= t < |a + b| / 3
      ensures WindsClockwise(TriangleAt(a + b, t))
    {
      if t < n {
        assert TriangleAt(a + b, t) == TriangleAt(a, t);
      } else {
        assert TriangleAt(a + b, t) == TriangleAt(b, t - n);
      }
    }
  }
}
