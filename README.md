# Cube and sphere mesh generation

This project models `src/graphics/geometry.ts`, the module that builds the
vertex buffers for two meshes:

- `buildCube` appends six quads (two triangles each) with flat, axis-aligned
  face normals.
- `buildSphere` starts from the eight faces of an octahedron. `buildFace`
  splits each face recursively into four sub-triangles until depth 3, then
  emits the triangle with each corner as its own normal.

Every builder fills a growable `number[]` through the emitters `addPoint`,
`addTriangle` and `addQuad`. The buffer is read as interleaved vertex records:
three numbers of position, then three of normal. Every three records make one
triangle.

Files:

- `vec3.dfy` (module `Vec3Math`) holds the vectors, the cross and dot
  products, and the winding measure.
  - The vector library is not part of this model. `addVec3` is taken to be
    the componentwise sum `Add`. `normalizeVec3` is a function value held in
    the parameter `VecLib`.
  - `Rescales(lib, scale)` states the assumption that `normalize`
    multiplies by the positive factor `scale`.
  - `NormalizesExactly(lib, scale)` adds that `normalize` of a nonzero
    vector is a unit vector, as in exact arithmetic.
- `layout.dfy` (module `VertexLayout`) decodes a number buffer into vertices
  and triangles.
- `geometry.dfy` (module `Geometry`) contains:
  - the buffer as a class `NumberList`;
  - the emitters as methods that change it;
  - `BuildCube`, `BuildFace` and `BuildSphere` as methods. Each is proved to
    produce the same numbers as a specification function (`CubeData`,
    `FaceData`, `SphereData`).
  - lemmas about those functions.

**Winding: every triangle is clockwise seen from outside.** The usual
front-face convention (WebGL's default) is counter-clockwise seen from
outside: the cross product (p2−p1)×(p3−p1) points the same way as the stored
normal. This code winds every triangle the other way. For every cube
triangle that dot product is −4. For every octahedron face, measured against
the outward corner, it is −1. The model follows the code and proves that
every triangle winds **clockwise** seen from outside:

- `CubeWinding`: all 12 cube triangles.
- `OctahedronWinding`: all 8 starting faces of the sphere.
- `SphereWinding`: all 512 sphere triangles, given `Rescales(lib, scale)`.

A renderer that treats clockwise triangles as front-facing would draw both
meshes correctly. The model cannot tell whether the order is intended.

## Model

| member | source | states |
|---|---|---|
| Geometry.NumberList.constructor | src/graphics/geometry.ts:20 | a new buffer is empty |
| Geometry.NumberList.Push | src/graphics/geometry.ts:132 | `push(...values)` appends the values in order and returns the new length |
| Geometry.AddPoint | src/graphics/geometry.ts:132 | appends exactly x, y, z of the point and returns the old length plus 3 |
| Geometry.AddTriangle | src/graphics/geometry.ts:117-124 | appends the 18 numbers p1, n1, p2, n2, p3, n3 in that order and nothing else |
| Geometry.AddQuad | src/graphics/geometry.ts:105-108 | appends triangle (p1,p2,p3) then triangle (p1,p3,p4), every vertex carrying the one quad normal |
| Geometry.TriangleLayout | src/graphics/geometry.ts:117-124 | a triangle's 18 numbers decode to exactly the three vertices (p1,n1), (p2,n2), (p3,n3) |
| Geometry.QuadLayout | src/graphics/geometry.ts:105-108 | a quad's 36 numbers decode to the six vertices of its two triangles, all with the quad's normal |
| VertexLayout.DecodeEncode | src/graphics/geometry.ts:117-124 | reading back written vertex records gives the same vertices |
| VertexLayout.EncodeDecode | src/graphics/geometry.ts:117-124 | rewriting the vertices read from a buffer of whole records gives the same buffer |
| VertexLayout.DecodeAppend | src/graphics/geometry.ts:118-123 | records appended one after another read back one after another |
| Geometry.BuildCube | src/graphics/geometry.ts:18-44 | the six `addQuad` calls produce exactly `CubeData()` (top, bottom, back, front, left, right), 216 numbers = 12 whole triangles |
| Geometry.CubeDataUnfolded | src/graphics/geometry.ts:26-41 | the cube data is the six quads' data concatenated in call order |
| Geometry.CubeCorners | src/graphics/geometry.ts:3-12 | the corner table contains exactly the points with every coordinate ±1, and no corner twice |
| Geometry.CubeFaces | src/graphics/geometry.ts:23-41 | every face uses four table corners and an axis-aligned unit normal, and no two faces share a normal |
| Geometry.CubeFirstNumbers | src/graphics/geometry.ts:23-26 | the cube buffer has 216 numbers and starts with -1, 1, -1, 0, 1, 0 |
| Geometry.CubeFirstVertex | src/graphics/geometry.ts:23-26 | the first cube vertex is corner (-1,1,-1) with normal (0,1,0) |
| Geometry.QuadsSlice | src/graphics/geometry.ts:105-108 | vertices 6f..6f+5 of a run of quads are exactly quad f's six vertices |
| Geometry.QuadsVertex | src/graphics/geometry.ts:105-108 | vertex 6f+c of a run of quads is vertex c of quad f |
| Geometry.QuadsFlat | src/graphics/geometry.ts:106-107 | flat shading: all six vertices of quad f carry the same normal, quad f's |
| Geometry.QuadsPositions | src/graphics/geometry.ts:105-108 | every emitted position is one of the quads' corners |
| Geometry.QuadsNormals | src/graphics/geometry.ts:105-108 | every emitted normal is one of the quads' normals |
| Geometry.CubeNormals | src/graphics/geometry.ts:18-44 | every normal in the cube buffer is an axis-aligned unit vector |
| Geometry.CubeFlatNormals | src/graphics/geometry.ts:26-41 | the six vertices of cube face f all carry that face's normal |
| Geometry.CubePositions | src/graphics/geometry.ts:3-41 | every cube vertex position is a cube corner |
| Geometry.QuadTriangles | src/graphics/geometry.ts:106-107 | a quad's first three vertices are triangle (p1,p2,p3), its last three triangle (p1,p3,p4) |
| Geometry.TriangleInBlock | src/graphics/geometry.ts:105-108 | triangle 2f+k of a vertex run lies in the run's vertices 6f..6f+5 |
| Geometry.QuadsTriangle | src/graphics/geometry.ts:105-108 | triangle 2f+k of a run of quads is triangle k of quad f |
| Geometry.QuadTriangleWinds | src/graphics/geometry.ts:106-107 | when both corner orders of a quad turn clockwise, each of its triangles winds clockwise |
| Geometry.QuadsTriangleWinds | src/graphics/geometry.ts:105-108 | triangle t of a run of quads winds clockwise when its quad does |
| Geometry.TopFaceWinding | src/graphics/geometry.ts:26 | the top quad's two triangles turn clockwise seen from +Y |
| Geometry.BottomFaceWinding | src/graphics/geometry.ts:29 | the bottom quad's two triangles turn clockwise seen from -Y |
| Geometry.BackFaceWinding | src/graphics/geometry.ts:32 | the back quad's two triangles turn clockwise seen from -Z |
| Geometry.FrontFaceWinding | src/graphics/geometry.ts:35 | the front quad's two triangles turn clockwise seen from +Z |
| Geometry.LeftFaceWinding | src/graphics/geometry.ts:38 | the left quad's two triangles turn clockwise seen from -X |
| Geometry.RightFaceWinding | src/graphics/geometry.ts:41 | the right quad's two triangles turn clockwise seen from +X |
| Geometry.CubeFaceWinding | src/graphics/geometry.ts:26-41 | each of the six quads turns clockwise seen from its normal's side |
| Geometry.CubeTriangleWinding | src/graphics/geometry.ts:26-41 | cube triangle t (of 12) winds clockwise against its stored normal |
| Geometry.CubeWinding | src/graphics/geometry.ts:18-44 | every triangle of the cube buffer winds clockwise seen from outside |
| Geometry.FacesDataAppend | src/graphics/geometry.ts:83-93 | building faces a then faces b appends a's data then b's |
| Geometry.FacesSingle | src/graphics/geometry.ts:61-81 | a run of one face emits what that face emits |
| Geometry.FourFaces | src/graphics/geometry.ts:76-79 | the four child faces emit, in order, what each emits alone |
| Geometry.FaceSplit | src/graphics/geometry.ts:66-79 | below depth 3 a face emits its four children's data in the order (c1,m1,m3), (m1,c2,m2), (m3,m2,c3), (m1,m2,m3), with m1, m2, m3 the edge midpoints |
| Geometry.FaceSplitAfter | src/graphics/geometry.ts:66-79 | a buffer grown one child at a time in that order ends with exactly the parent face's data |
| Geometry.BuildFace | src/graphics/geometry.ts:61-81 | `buildFace` appends exactly `FaceData` of its face: the leaf triangle at depth 3, otherwise its children (c1,m1,m3), (m1,c2,m2), (m3,m2,c3), (m1,m2,m3) in order |
| Geometry.EightFaces | src/graphics/geometry.ts:83-93 | eight faces emit, in order, what each emits alone |
| Geometry.SphereDataUnfolded | src/graphics/geometry.ts:83-93 | the sphere data is the eight base faces' data in call order |
| Geometry.BuildSphere | src/graphics/geometry.ts:50-96 | the eight `buildFace` calls produce exactly `SphereData(lib)` |
| Geometry.FaceLength | src/graphics/geometry.ts:61-81 | a face at depth d emits 4^(3-d) triangles of 18 numbers |
| Geometry.FacesLength | src/graphics/geometry.ts:61-81 | a run of n faces at depth d emits 18·4^(3-d)·n numbers |
| Geometry.FaceTriangles | src/graphics/geometry.ts:61-81 | a face emits whole triangles: its vertex count is a multiple of 3 |
| Geometry.SphereLength | src/graphics/geometry.ts:83-93 | every base face yields 64 triangles, and the sphere buffer holds 9216 numbers |
| Geometry.FaceNormals | src/graphics/geometry.ts:62-64 | every vertex a face emits carries its position as its normal |
| Geometry.FacesNormals | src/graphics/geometry.ts:62-64 | every vertex a run of faces emits carries its position as its normal |
| Geometry.FacePositions | src/graphics/geometry.ts:66-79 | every position a face emits has each property that its corners have and that midpoints preserve |
| Geometry.FacesPositions | src/graphics/geometry.ts:66-79 | the same for a run of faces |
| Geometry.FaceFirstVertex | src/graphics/geometry.ts:61-81 | a face's first emitted vertex is its own first corner c1, with normal c1 |
| Geometry.OctahedronCorners | src/graphics/geometry.ts:53-59 | the six corners are exactly the axis unit vectors, all different and all of length 1 |
| Geometry.OctahedronFaceCorners | src/graphics/geometry.ts:83-93 | every base face is built from three of the six corners |
| Geometry.OctahedronFacesUnit | src/graphics/geometry.ts:83-93 | every corner of every base face lies on the unit sphere |
| Geometry.SphereVertices | src/graphics/geometry.ts:50-96 | the sphere buffer has 9216 numbers, every normal equals its position, and the first vertex is p1 = (-1,0,0) with normal p1 |
| Vec3Math.OppositeInOctant | src/graphics/geometry.ts:71-73 | two vectors of one closed octant sum to zero only when both are zero |
| Vec3Math.OctantClosed | src/graphics/geometry.ts:71-73 | a closed octant contains the sum of two of its vectors and every positive multiple of that sum |
| Vec3Math.MidpointInOctant | src/graphics/geometry.ts:71-73 | with an exact `normalize`, the midpoint of two unit vectors of one octant is a unit vector of that octant |
| Geometry.AxisFaceOctant | src/graphics/geometry.ts:83-93 | a face with one corner on each axis has all its corners in the octant its corner sum points to |
| Geometry.OctahedronAxisFaces | src/graphics/geometry.ts:83-93 | every base face has its corners on the X, Z and Y axes (X and Z in either order) |
| Geometry.OctahedronOctants | src/graphics/geometry.ts:83-93 | every base face has unit corners lying in one octant |
| Geometry.FacesOnUnitSphere | src/graphics/geometry.ts:61-81 | with an exact `normalize`, faces whose unit corners share an octant emit only unit positions |
| Geometry.SphereOnUnitSphere | src/graphics/geometry.ts:50-96 | with an exact `normalize` (positive rescaling, unit result for a nonzero input), every sphere position and normal is a unit vector |
| Geometry.LeafWinding | src/graphics/geometry.ts:62-64 | the emitted leaf triangle winds clockwise exactly when its face does |
| Geometry.OctahedronWinding | src/graphics/geometry.ts:83-93 | each of the eight base faces winds clockwise seen from outside |
| Geometry.FaceWindingDet | src/graphics/geometry.ts:61-64 | a face winds clockwise exactly when det(c1,c2,c3) < 0 |
| Geometry.ChildC1Det | src/graphics/geometry.ts:71-76 | the corner child (c1,m1,m3) keeps a negative determinant |
| Geometry.ChildC2Det | src/graphics/geometry.ts:71-77 | the corner child (m1,c2,m2) keeps a negative determinant |
| Geometry.ChildC3Det | src/graphics/geometry.ts:71-78 | the corner child (m3,m2,c3) keeps a negative determinant |
| Geometry.ChildMiddleDet | src/graphics/geometry.ts:71-79 | the middle child (m1,m2,m3) keeps a negative determinant |
| Geometry.ChildrenWinding | src/graphics/geometry.ts:66-79 | with a `normalize` that rescales positively, all four children of a clockwise face wind clockwise |
| Geometry.FaceClockwise | src/graphics/geometry.ts:61-81 | every triangle a clockwise face emits winds clockwise |
| Geometry.FacesClockwise | src/graphics/geometry.ts:61-81 | every triangle a run of clockwise faces emits winds clockwise |
| Geometry.SphereWinding | src/graphics/geometry.ts:50-96 | with such a library, all 512 sphere triangles wind clockwise seen from outside |
| VertexLayout.AllClockwiseAppend | src/graphics/geometry.ts:83-93 | joining two clockwise runs of whole triangles gives a clockwise run |
| Vec3Math.MidpointScales | src/graphics/geometry.ts:71-73 | with such a library, each midpoint is a positive multiple of the sum of the edge's ends |
| Vec3Math.WindingAtCorner | src/graphics/geometry.ts:62-64 | a triangle's winding against its first corner is the determinant of its corners |

## Left out

- `new Float32Array(data)` (lines 43 and 95) is not modelled. Numbers are exact
  reals. The cube's values are small integers, so they are unaffected. The
  sphere's midpoints would be rounded to 32-bit floats.
- `../math/vec3` is not part of this model. `createVec3` becomes a `Vec3`
  value. `addVec3` is modelled as the exact componentwise sum, which is what
  its name and its use here promise. `normalizeVec3` is the function held in
  a `VecLib` parameter.
  - These functions write into the scratch vectors `m1`, `m2` and `m3`. Each
    call creates its own three, writes them before its child calls and only
    passes them to those calls, which read them and never write them. So they
    are modelled as values.
- The spread in `data.push(...p)` is modelled as appending the three
  components of `p`.
- Geometry.SphereOnUnitSphere: assumes `NormalizesExactly(lib, scale)`: an
  exact `normalize` that rescales positively and returns a unit vector for a
  nonzero input. Dafny's reals have no square root, so this is assumed, not
  built. The actual library and its floating-point rounding are not examined.
- Geometry.SphereWinding: assumes `Rescales(lib, scale)`. `normalizeVec3` must
  multiply by a positive factor. The
  actual library and its floating-point rounding are not examined.
- Geometry.BuildFace: requires `depth <= 3`. The source compares `depth === 3`
  and only ever calls with depth 0 to 3. A call with a larger depth would
  recurse forever, so such calls are excluded.
