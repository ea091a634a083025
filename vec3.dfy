/**
 * The three-component vectors the geometry code works with, and the part of
 * the vector library it calls. The library itself is not part of this model:
 * `addVec3` is taken to be the componentwise sum `Add`, and `normalizeVec3`
 * is carried as a function value in `VecLib`.
 */
module Vec3Math {

  /** A 3-vector of JavaScript numbers, modelled as exact reals. */
  datatype Vec3 = Vec3(x: real, y: real, z: real)

  /** The components in the order a spread `...p` yields them. */
  function Components(p: Vec3): seq<real>
  {
    [p.x, p.y, p.z]
  }

  function Sub(a: Vec3, b: Vec3): Vec3
  {
    Vec3(a.x - b.x, a.y - b.y, a.z - b.z)
  }

  function Cross(a: Vec3, b: Vec3): Vec3
  {
    Vec3(a.y * b.z - a.z * b.y, a.z * b.x - a.x * b.z, a.x * b.y - a.y * b.x)
  }

  function Dot(a: Vec3, b: Vec3): real
  {
    a.x * b.x + a.y * b.y + a.z * b.z
  }

  /**
   * (p2 - p1) x (p3 - p1) . n: positive when the triangle (p1, p2, p3) turns
   * counter-clockwise seen from the side `n` points to, negative when clockwise.
   */
  function Winding(p1: Vec3, p2: Vec3, p3: Vec3, n: Vec3): real
  {
    Dot(Cross(Sub(p2, p1), Sub(p3, p1)), n)
  }

  /** The winding computed from the two edge vectors leaving `p1`. */
  lemma WindingByEdges(p1: Vec3, p2: Vec3, p3: Vec3, n: Vec3, e1: Vec3, e2: Vec3)
    requires Sub(p2, p1) == e1 && Sub(p3, p1) == e2
    ensures Winding(p1, p2, p3, n) == Dot(Cross(e1, e2), n)
  {
  }

  function Add(a: Vec3, b: Vec3): Vec3
  {
    Vec3(a.x + b.x, a.y + b.y, a.z + b.z)
  }

  function Scale(s: real, a: Vec3): Vec3
  {
    Vec3(s * a.x, s * a.y, s * a.z)
  }

  /** The determinant of the matrix with rows `a`, `b`, `c`. */
  function Det(a: Vec3, b: Vec3, c: Vec3): real
  {
    Dot(Cross(a, b), c)
  }

  /** Measured against its own first corner, a triangle's winding is the determinant of its corners. */
  lemma WindingAtCorner(p1: Vec3, p2: Vec3, p3: Vec3)
    ensures Winding(p1, p2, p3, p1) == Det(p1, p2, p3)
  {
  }

  lemma DetScale1(s: real, u: Vec3, v: Vec3, w: Vec3)
    ensures Det(Scale(s, u), v, w) == s * Det(u, v, w)
  {
  }

  lemma DetScale2(s: real, u: Vec3, v: Vec3, w: Vec3)
    ensures Det(u, Scale(s, v), w) == s * Det(u, v, w)
  {
  }

  lemma DetScale3(s: real, u: Vec3, v: Vec3, w: Vec3)
    ensures Det(u, v, Scale(s, w)) == s * Det(u, v, w)
  {
  }

  /** Replacing two corners by (unnormalised) edge midpoints keeps the determinant. */
  lemma DetCornerC1(c1: Vec3, c2: Vec3, c3: Vec3)
    ensures Det(c1, Add(c1, c2), Add(c3, c1)) == Det(c1, c2, c3)
  {
  }

  lemma DetCornerC2(c1: Vec3, c2: Vec3, c3: Vec3)
    ensures Det(Add(c1, c2), c2, Add(c2, c3)) == Det(c1, c2, c3)
  {
  }

  lemma DetCornerC3(c1: Vec3, c2: Vec3, c3: Vec3)
    ensures Det(Add(c3, c1), Add(c2, c3), c3) == Det(c1, c2, c3)
  {
  }

  lemma DetAdd3(u: Vec3, v: Vec3, a: Vec3, b: Vec3)
    ensures Det(u, v, Add(a, b)) == Det(u, v, a) + Det(u, v, b)
  {
  }

  lemma DetMiddleC3(c1: Vec3, c2: Vec3, c3: Vec3)
    ensures Det(Add(c1, c2), Add(c2, c3), c3) == Det(c1, c2, c3)
  {
  }

  lemma DetMiddleC1(c1: Vec3, c2: Vec3, c3: Vec3)
    ensures Det(Add(c1, c2), Add(c2, c3), c1) == Det(c1, c2, c3)
  {
  }

  /** The triangle of the three (unnormalised) edge midpoints has twice the determinant. */
  lemma DetMiddle(c1: Vec3, c2: Vec3, c3: Vec3)
    ensures Det(Add(c1, c2), Add(c2, c3), Add(c3, c1)) == 2.0 * Det(c1, c2, c3)
  {
    DetAdd3(Add(c1, c2), Add(c2, c3), c3, c1);
    DetMiddleC3(c1, c2, c3);
    DetMiddleC1(c1, c2, c3);
  }

  /** One of the six unit vectors along the coordinate axes. */
  predicate IsAxisUnit(n: Vec3)
  {
    n in {Vec3(1.0, 0.0, 0.0), Vec3(-1.0, 0.0, 0.0),
          Vec3(0.0, 1.0, 0.0), Vec3(0.0, -1.0, 0.0),
          Vec3(0.0, 0.0, 1.0), Vec3(0.0, 0.0, -1.0)}
  }

  /** The vector lies on the unit sphere. */
  predicate IsUnit(p: Vec3)
  {
    Dot(p, p) == 1.0
  }

  /**
   * The vector library's `normalizeVec3`, as a pure function. The library
   * writes into an output vector; the geometry code only ever passes a
   * scratch vector there, so values are enough.
   */
  datatype VecLib = VecLib(normalize: Vec3 -> Vec3)

  /** `normalizeVec3(m, addVec3(m, a, b))`: the edge midpoint pushed out to the sphere. */
  function Midpoint(lib: VecLib, a: Vec3, b: Vec3): Vec3
  {
    lib.normalize(Add(a, b))
  }

  /**
   * `normalize` does what its name says: it multiplies its argument by the
   * positive factor `scale` (one over its length, in exact arithmetic).
   */
  ghost predicate Rescales(lib: VecLib, scale: Vec3 -> real)
  {
    forall v :: scale(v) > 0.0 && lib.normalize(v) == Scale(scale(v), v)
  }

  /** With such a library, an edge midpoint is a positive multiple of the sum of its ends. */
  lemma MidpointScales(lib: VecLib, scale: Vec3 -> real, a: Vec3, b: Vec3) returns (s: real)
    requires Rescales(lib, scale)
    ensures s > 0.0 && Midpoint(lib, a, b) == Scale(s, Add(a, b))
  {
    s := scale(Add(a, b));
  }

  /** One of the eight octants, by whether each coordinate is on the positive side. */
  datatype Octant = Octant(xPositive: bool, yPositive: bool, zPositive: bool)

  /** `r` is on the side of zero that `positive` names, or is zero. */
  predicate SameSign(positive: bool, r: real)
  {
    if positive then r >= 0.0 else r <= 0.0
  }

  /** `v` lies in the closed octant `o`: no coordinate is strictly on the wrong side. */
  predicate InOctant(v: Vec3, o: Octant)
  {
    SameSign(o.xPositive, v.x) && SameSign(o.yPositive, v.y) && SameSign(o.zPositive, v.z)
  }

  /**
   * `normalize` behaves as in exact arithmetic: it rescales by a positive
   * factor, and the result has length 1 whenever the argument is not zero.
   */
  ghost predicate NormalizesExactly(lib: VecLib, scale: Vec3 -> real)
  {
    Rescales(lib, scale) && forall v :: v != Vec3(0.0, 0.0, 0.0) ==> IsUnit(lib.normalize(v))
  }

  /** Two vectors of one closed octant cancel out only when both are zero. */
  lemma OppositeInOctant(a: Vec3, b: Vec3, o: Octant)
    requires InOctant(a, o) && InOctant(b, o)
    ensures Add(a, b) == Vec3(0.0, 0.0, 0.0) ==> a == Vec3(0.0, 0.0, 0.0)
  {
  }

  /** Sums of numbers of one sign, and their positive multiples, keep that sign. */
  lemma SameSignClosed(positive: bool, a: real, b: real, k: real)
    requires SameSign(positive, a) && SameSign(positive, b) && k > 0.0
    ensures SameSign(positive, a + b) && SameSign(positive, k * (a + b))
  {
    if positive {
      assert k * (a + b) >= 0.0;
    } else {
      assert k * -(a + b) >= 0.0;
    }
  }

  /** A closed octant keeps the sums of its vectors and their positive multiples. */
  lemma OctantClosed(a: Vec3, b: Vec3, k: real, o: Octant)
    requires InOctant(a, o) && InOctant(b, o) && k > 0.0
    ensures InOctant(Add(a, b), o) && InOctant(Scale(k, Add(a, b)), o)
  {
    SameSignClosed(o.xPositive, a.x, b.x, k);
    SameSignClosed(o.yPositive, a.y, b.y, k);
    SameSignClosed(o.zPositive, a.z, b.z, k);
  }

  /**
   * With an exact `normalize`, the midpoint of two unit vectors of one closed
   * octant is again a unit vector of that octant.
   */
  lemma MidpointInOctant(lib: VecLib, scale: Vec3 -> real, a: Vec3, b: Vec3, o: Octant)
    requires NormalizesExactly(lib, scale)
    requires IsUnit(a) && InOctant(a, o) && IsUnit(b) && InOctant(b, o)
    ensures IsUnit(Midpoint(lib, a, b)) && InOctant(Midpoint(lib, a, b), o)
  {
    OppositeInOctant(a, b, o);
    assert !IsUnit(Vec3(0.0, 0.0, 0.0));
    var k := MidpointScales(lib, scale, a, b);
    OctantClosed(a, b, k, o);
  }
}
