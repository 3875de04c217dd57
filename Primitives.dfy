/**
 * `geom/primitives.go`: the cube and the tetrahedron, each built by a fixed
 * sequence of `AddVertex` and `AddFace` calls on a fresh `Mesh`, centred on the
 * origin. The vertex lists and the face index lists are stated as constants of
 * the half size; the lemmas show that every face lies on the solid's surface
 * and that its winding makes the unnormalised normal point away from the origin.
 */
module GeomPrimitives {
  import opened RealMath
  import opened GeomVertex
  import opened GeomVector
  import opened GeomMesh

  /** The index triples a face list stores, in order. */
  function IndicesOf(faces: seq<Triangle>): (r: seq<FaceIndices>)
    ensures |r| == |faces| && forall f :: 0 <= f < |faces| ==> r[f] == faces[f].myVertexIndices
  {
    seq(|faces|, f requires 0 <= f < |faces| => faces[f].myVertexIndices)
  }

  /** The eight corners of the cube of half size `h`, in the order `CreateCube` adds them. */
  function CubeVertices(h: real): seq<Vertex> {
    [NewVertex(h, -h, -h), NewVertex(-h, -h, -h), NewVertex(-h, h, -h), NewVertex(h, h, -h),
     NewVertex(h, -h, h), NewVertex(-h, -h, h), NewVertex(-h, h, h), NewVertex(h, h, h)]
  }

  /** The twelve faces of the cube, two per side, as zero-based vertex indices. */
  const CUBE_FACES: seq<FaceIndices> :=
    [[4, 0, 7], [3, 7, 0],   // x = +h
     [6, 7, 2], [3, 2, 7],   // y = +h
     [6, 5, 7], [4, 7, 5],   // z = +h
     [4, 5, 0], [1, 0, 5],   // y = -h
     [5, 6, 1], [2, 1, 6],   // x = -h
     [1, 2, 0], [3, 0, 2]]   // z = -h

  /** The four corners of the tetrahedron of half size `h`, in the order `CreateTetrahedron` adds them. */
  function TetrahedronVertices(h: real): seq<Vertex> {
    [NewVertex(-h, -h, -h), NewVertex(h, 0.0, 0.0), NewVertex(0.0, h, 0.0), NewVertex(0.0, 0.0, h)]
  }

  /** The four faces of the tetrahedron as zero-based vertex indices. */
  const TETRAHEDRON_FACES: seq<FaceIndices> := [[1, 2, 3], [0, 1, 3], [0, 2, 1], [0, 3, 2]]

  /** Every index of every triple lies in `[0, n)`. */
  predicate IndicesBelow(faces: seq<FaceIndices>, n: int) {
    forall f, k :: 0 <= f < |faces| && 0 <= k < 3 ==> 0 <= faces[f][k] < n
  }

  /** Face `t` of `vertices` is wound so that its raw normal points away from the origin. */
  predicate OutwardFace(vertices: seq<Vertex>, t: FaceIndices)
    requires forall k :: 0 <= k < 3 ==> 0 <= t[k] < |vertices|
  {
    0.0 < RawNormal(vertices[t[0]], vertices[t[1]], vertices[t[2]]).Dot(NewVectorFromVertex(vertices[t[0]]))
  }

  /** The three corners of face `t` share one coordinate, and it equals `h` or `-h`. */
  predicate OnCubeSide(vertices: seq<Vertex>, t: FaceIndices, h: real)
    requires forall k :: 0 <= k < 3 ==> 0 <= t[k] < |vertices|
  {
    var a, b, c := vertices[t[0]], vertices[t[1]], vertices[t[2]];
    (a.X() == b.X() == c.X() && (a.X() == h || a.X() == -h)) ||
    (a.Y() == b.Y() == c.Y() && (a.Y() == h || a.Y() == -h)) ||
    (a.Z() == b.Z() == c.Z() && (a.Z() == h || a.Z() == -h))
  }

  /** A positive number cubed is positive. */
  lemma CubePositive(h: real)
    requires 0.0 < h
    ensures 0.0 < h * h * h
  {
  }

  /** The raw normal's dot product with the first corner is the determinant of the three corners. */
  lemma TripleProduct(a: Vertex, b: Vertex, c: Vertex)
    ensures RawNormal(a, b, c).Dot(NewVectorFromVertex(a)) ==
      a.X() * (b.Y() * c.Z() - b.Z() * c.Y()) - a.Y() * (b.X() * c.Z() - b.Z() * c.X()) + a.Z() * (b.X() * c.Y() - b.Y() * c.X())
  {
  }

  /** The cube has 8 corners at `(±h, ±h, ±h)`, 12 faces on vertex indices in `[0, 8)`. */
  lemma CubeShape(h: real)
    ensures |CubeVertices(h)| == 8 && |CUBE_FACES| == 12 && IndicesBelow(CUBE_FACES, 8)
    ensures forall i :: 0 <= i < 8 ==>
      (CubeVertices(h)[i].X() == h || CubeVertices(h)[i].X() == -h) &&
      (CubeVertices(h)[i].Y() == h || CubeVertices(h)[i].Y() == -h) &&
      (CubeVertices(h)[i].Z() == h || CubeVertices(h)[i].Z() == -h)
  {
  }

  /** Each face of the cube lies on one of its six sides. */
  lemma CubeFacesOnSides(h: real)
    ensures IndicesBelow(CUBE_FACES, 8)
    ensures forall f :: 0 <= f < 12 ==> OnCubeSide(CubeVertices(h), CUBE_FACES[f], h)
  {
  }

  /** The raw normal of every cube face has dot product `4 h^3` with its first corner. */
  lemma CubeFaceDot(h: real, f: int)
    requires 0 <= f < 12
    ensures IndicesBelow(CUBE_FACES, 8)
    ensures RawNormal(CubeVertices(h)[CUBE_FACES[f][0]], CubeVertices(h)[CUBE_FACES[f][1]], CubeVertices(h)[CUBE_FACES[f][2]])
              .Dot(NewVectorFromVertex(CubeVertices(h)[CUBE_FACES[f][0]])) == 4.0 * (h * h * h)
  {
    if f < 3 {
      CubeFaceDotA(h, f);
    } else if f < 6 {
      CubeFaceDotB(h, f);
    } else if f < 9 {
      CubeFaceDotC(h, f);
    } else {
      CubeFaceDotD(h, f);
    }
  }

  /** `CubeFaceDot` for faces 0 to 2. */
  lemma CubeFaceDotA(h: real, f: int)
    requires 0 <= f < 3
    ensures IndicesBelow(CUBE_FACES, 8)
    ensures RawNormal(CubeVertices(h)[CUBE_FACES[f][0]], CubeVertices(h)[CUBE_FACES[f][1]], CubeVertices(h)[CUBE_FACES[f][2]])
              .Dot(NewVectorFromVertex(CubeVertices(h)[CUBE_FACES[f][0]])) == 4.0 * (h * h * h)
  {
    var vs, t := CubeVertices(h), CUBE_FACES[f];
    TripleProduct(vs[t[0]], vs[t[1]], vs[t[2]]);
  }

  /** `CubeFaceDot` for faces 3 to 5. */
  lemma CubeFaceDotB(h: real, f: int)
    requires 3 <= f < 6
    ensures IndicesBelow(CUBE_FACES, 8)
    ensures RawNormal(CubeVertices(h)[CUBE_FACES[f][0]], CubeVertices(h)[CUBE_FACES[f][1]], CubeVertices(h)[CUBE_FACES[f][2]])
              .Dot(NewVectorFromVertex(CubeVertices(h)[CUBE_FACES[f][0]])) == 4.0 * (h * h * h)
  {
    var vs, t := CubeVertices(h), CUBE_FACES[f];
    TripleProduct(vs[t[0]], vs[t[1]], vs[t[2]]);
  }

  /** `CubeFaceDot` for faces 6 to 8. */
  lemma CubeFaceDotC(h: real, f: int)
    requires 6 <= f < 9
    ensures IndicesBelow(CUBE_FACES, 8)
    ensures RawNormal(CubeVertices(h)[CUBE_FACES[f][0]], CubeVertices(h)[CUBE_FACES[f][1]], CubeVertices(h)[CUBE_FACES[f][2]])
              .Dot(NewVectorFromVertex(CubeVertices(h)[CUBE_FACES[f][0]])) == 4.0 * (h * h * h)
  {
    var vs, t := CubeVertices(h), CUBE_FACES[f];
    TripleProduct(vs[t[0]], vs[t[1]], vs[t[2]]);
  }

  /** `CubeFaceDot` for faces 9 to 11. */
  lemma CubeFaceDotD(h: real, f: int)
    requires 9 <= f < 12
    ensures IndicesBelow(CUBE_FACES, 8)
    ensures RawNormal(CubeVertices(h)[CUBE_FACES[f][0]], CubeVertices(h)[CUBE_FACES[f][1]], CubeVertices(h)[CUBE_FACES[f][2]])
              .Dot(NewVectorFromVertex(CubeVertices(h)[CUBE_FACES[f][0]])) == 4.0 * (h * h * h)
  {
    var vs, t := CubeVertices(h), CUBE_FACES[f];
    TripleProduct(vs[t[0]], vs[t[1]], vs[t[2]]);
  }

  /** For a positive size, every face of the cube is wound outwards. */
  lemma CubeOutward(size: real)
    requires 0.0 < size
    ensures IndicesBelow(CUBE_FACES, 8)
    ensures forall f :: 0 <= f < 12 ==> OutwardFace(CubeVertices(size / 2.0), CUBE_FACES[f])
  {
    var h := size / 2.0;
    CubeFaceOutward(h, 0);
    forall f | 0 <= f < 12
      ensures OutwardFace(CubeVertices(h), CUBE_FACES[f])
    {
      CubeFaceOutward(h, f);
    }
  }

  /** Face `f` of the cube of positive half size `h` is wound outwards. */
  lemma CubeFaceOutward(h: real, f: int)
    requires 0.0 < h && 0 <= f < 12
    ensures IndicesBelow(CUBE_FACES, 8) && |CubeVertices(h)| == 8
    ensures OutwardFace(CubeVertices(h), CUBE_FACES[f])
  {
    CubePositive(h);
    CubeFaceDot(h, f);
  }

  /** The raw normal of every tetrahedron face has dot product `h^3` with its first corner. */
  lemma TetrahedronFaceDot(h: real, f: int)
    requires 0 <= f < 4
    ensures IndicesBelow(TETRAHEDRON_FACES, 4)
    ensures RawNormal(TetrahedronVertices(h)[TETRAHEDRON_FACES[f][0]], TetrahedronVertices(h)[TETRAHEDRON_FACES[f][1]],
                      TetrahedronVertices(h)[TETRAHEDRON_FACES[f][2]])
              .Dot(NewVectorFromVertex(TetrahedronVertices(h)[TETRAHEDRON_FACES[f][0]])) == h * h * h
  {
    var vs, t := TetrahedronVertices(h), TETRAHEDRON_FACES[f];
    TripleProduct(vs[t[0]], vs[t[1]], vs[t[2]]);
  }

  /** For a positive size, every face of the tetrahedron is wound outwards. */
  lemma TetrahedronOutward(size: real)
    requires 0.0 < size
    ensures IndicesBelow(TETRAHEDRON_FACES, 4)
    ensures forall f :: 0 <= f < 4 ==> OutwardFace(TetrahedronVertices(size / 2.0), TETRAHEDRON_FACES[f])
  {
    var h := size / 2.0;
    CubePositive(h);
    TetrahedronFaceDot(h, 0);
    forall f | 0 <= f < 4
      ensures OutwardFace(TetrahedronVertices(h), TETRAHEDRON_FACES[f])
    {
      TetrahedronFaceDot(h, f);
    }
  }

  /** The index triples of a face list grow by one triple per appended face. */
  lemma IndicesOfAppend(faces: seq<Triangle>, t: Triangle)
    ensures IndicesOf(faces + [t]) == IndicesOf(faces) + [t.myVertexIndices]
  {
  }

  /**
   * Two consecutive `AddFace` calls of a factory, on indices of vertices the
   * mesh already holds: both succeed and append the two triples in order.
   */
  method AddFacePair(m: Mesh, s: FaceIndices, t: FaceIndices, sqrt: real -> real)
    requires forall k :: 0 <= k < 3 ==> 0 <= s[k] < |m.myVertices| && 0 <= t[k] < |m.myVertices|
    modifies m
    ensures unchanged(m`myVertices)
    ensures IndicesOf(m.myFaces) == IndicesOf(old(m.myFaces)) + [s, t]
    ensures old(m.Valid()) ==> m.Valid()
    ensures old(m.NormalsCached(sqrt)) ==> m.NormalsCached(sqrt)
  {
    ghost var faces0 := m.myFaces;
    var _, _ := m.AddFace(s[0], s[1], s[2], sqrt);
    assert s == [s[0], s[1], s[2]];
    IndicesOfAppend(faces0, m.myFaces[|faces0|]);
    ghost var faces1 := m.myFaces;
    var _, _ := m.AddFace(t[0], t[1], t[2], sqrt);
    assert t == [t[0], t[1], t[2]];
    IndicesOfAppend(faces1, m.myFaces[|faces1|]);
  }

  /**
   * `CreateCube`: the eight corners of half size `size / 2` and the twelve faces of
   * `CUBE_FACES`, added two per side. Every `AddFace` succeeds, so every face
   * index is a vertex and every face holds the normal `ComputeNormal` gives for it.
   */
  method CreateCube(size: real, sqrt: real -> real) returns (m: Mesh)
    ensures fresh(m)
    ensures m.myVertices == CubeVertices(size / 2.0)
    ensures IndicesOf(m.myFaces) == CUBE_FACES
    ensures m.VertexNumber() == 8 && m.FaceNumber() == 12
    ensures m.Valid() && m.NormalsCached(sqrt)
  {
    m := new Mesh();
    var halfSize := size / 2.0;
    var v1 := m.AddVertex(NewVertex(halfSize, -halfSize, -halfSize));
    var v2 := m.AddVertex(NewVertex(-halfSize, -halfSize, -halfSize));
    var v3 := m.AddVertex(NewVertex(-halfSize, halfSize, -halfSize));
    var v4 := m.AddVertex(NewVertex(halfSize, halfSize, -halfSize));
    var v5 := m.AddVertex(NewVertex(halfSize, -halfSize, halfSize));
    var v6 := m.AddVertex(NewVertex(-halfSize, -halfSize, halfSize));
    var v7 := m.AddVertex(NewVertex(-halfSize, halfSize, halfSize));
    var v8 := m.AddVertex(NewVertex(halfSize, halfSize, halfSize));
    assert m.myVertices == CubeVertices(halfSize) && m.myFaces == [];

    AddCubeFaces(m, v1, v2, v3, v4, v5, v6, v7, v8, sqrt);
  }

  /** The twelve `AddFace` calls of `CreateCube`, two per side, on the corners it has added. */
  method AddCubeFaces(m: Mesh, v1: int, v2: int, v3: int, v4: int, v5: int, v6: int, v7: int, v8: int, sqrt: real -> real)
    requires v1 == 0 && v2 == 1 && v3 == 2 && v4 == 3 && v5 == 4 && v6 == 5 && v7 == 6 && v8 == 7
    requires |m.myVertices| == 8 && m.myFaces == []
    modifies m
    ensures unchanged(m`myVertices)
    ensures IndicesOf(m.myFaces) == CUBE_FACES
    ensures m.Valid() && m.NormalsCached(sqrt)
  {
    assert m.Valid() && m.NormalsCached(sqrt);
    AddFacePair(m, [v5, v1, v8], [v4, v8, v1], sqrt);  // front face
    AddFacePair(m, [v7, v8, v3], [v4, v3, v8], sqrt);  // back face
    AddFacePair(m, [v7, v6, v8], [v5, v8, v6], sqrt);  // right face
    assert IndicesOf(m.myFaces) == CUBE_FACES[..6];
    AddLastCubeFaces(m, v1, v2, v3, v4, v5, v6, v7, sqrt);
  }

  /** The last six `AddFace` calls of `CreateCube`: the left, top and bottom sides. */
  method AddLastCubeFaces(m: Mesh, v1: int, v2: int, v3: int, v4: int, v5: int, v6: int, v7: int, sqrt: real -> real)
    requires v1 == 0 && v2 == 1 && v3 == 2 && v4 == 3 && v5 == 4 && v6 == 5 && v7 == 6
    requires |m.myVertices| == 8 && IndicesOf(m.myFaces) == CUBE_FACES[..6]
    modifies m
    ensures unchanged(m`myVertices)
    ensures IndicesOf(m.myFaces) == CUBE_FACES
    ensures old(m.Valid()) ==> m.Valid()
    ensures old(m.NormalsCached(sqrt)) ==> m.NormalsCached(sqrt)
  {
    AddFacePair(m, [v5, v6, v1], [v2, v1, v6], sqrt);  // left face
    AddFacePair(m, [v6, v7, v2], [v3, v2, v7], sqrt);  // top face
    AddFacePair(m, [v2, v3, v1], [v4, v1, v3], sqrt);  // bottom face
  }

  /**
   * `CreateTetrahedron`: the four corners of half size `size / 2` and the four
   * faces of `TETRAHEDRON_FACES`, every `AddFace` succeeding.
   */
  method CreateTetrahedron(size: real, sqrt: real -> real) returns (m: Mesh)
    ensures fresh(m)
    ensures m.myVertices == TetrahedronVertices(size / 2.0)
    ensures IndicesOf(m.myFaces) == TETRAHEDRON_FACES
    ensures m.VertexNumber() == 4 && m.FaceNumber() == 4
    ensures m.Valid() && m.NormalsCached(sqrt)
  {
    m := new Mesh();
    var halfSize := size / 2.0;
    var v1 := m.AddVertex(NewVertex(-halfSize, -halfSize, -halfSize));
    var v2 := m.AddVertex(NewVertex(halfSize, 0.0, 0.0));
    var v3 := m.AddVertex(NewVertex(0.0, halfSize, 0.0));
    var v4 := m.AddVertex(NewVertex(0.0, 0.0, halfSize));
    assert m.myVertices == TetrahedronVertices(halfSize) && m.myFaces == [];
    assert m.NormalsCached(sqrt);

    AddFacePair(m, [v2, v3, v4], [v1, v2, v4], sqrt);
    AddFacePair(m, [v1, v3, v2], [v1, v4, v3], sqrt);
  }
}
