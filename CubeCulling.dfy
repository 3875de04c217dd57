/**
 * Back-face culling on the cube `CreateCube` builds (`geom/primitives.go`),
 * through the visibility test of `vis/Renderer.go`: the raw normal of every
 * cube face is `4 h^2` times the outward axis of its side, so a camera on the
 * +X axis outside the cube sees exactly the two faces on the +X side.
 */
module VisCubeCulling {
  import opened RealMath
  import opened GeomVertex
  import opened GeomVector
  import opened GeomMesh
  import opened GeomPrimitives
  import opened VisRenderer

  /** The outward axis of the side face `f` of `CUBE_FACES` lies on, scaled by `4 h^2`. */
  function CubeSideNormal(h: real, f: int): Vector
    requires 0 <= f < 12
  {
    if f < 2 then NewVector(4.0 * (h * h), 0.0, 0.0)
    else if f < 4 then NewVector(0.0, 4.0 * (h * h), 0.0)
    else if f < 6 then NewVector(0.0, 0.0, 4.0 * (h * h))
    else if f < 8 then NewVector(0.0, -(4.0 * (h * h)), 0.0)
    else if f < 10 then NewVector(-(4.0 * (h * h)), 0.0, 0.0)
    else NewVector(0.0, 0.0, -(4.0 * (h * h)))
  }

  /** `p` lies on the side of the cube of half size `h` that face `f` of `CUBE_FACES` belongs to. */
  predicate OnSideOf(h: real, f: int, p: Vertex) {
    if f < 2 then p.X() == h
    else if f < 4 then p.Y() == h
    else if f < 6 then p.Z() == h
    else if f < 8 then p.Y() == -h
    else if f < 10 then p.X() == -h
    else p.Z() == -h
  }

  /** The cube's faces index its eight corners. */
  lemma CubeIndices(h: real)
    ensures |CubeVertices(h)| == 8 && IndicesBelow(CUBE_FACES, 8)
  {
    CubeShape(h);
  }

  /** The first corner of a cube face. */
  function CubeFaceCorner(h: real, f: int): Vertex
    requires 0 <= f < 12
  {
    CubeIndices(h);
    CubeVertices(h)[CUBE_FACES[f][0]]
  }

  /** The raw normal of a cube face, from the corners it names. */
  function CubeFaceRawNormal(h: real, f: int): Vector
    requires 0 <= f < 12
  {
    CubeIndices(h);
    var vs, t := CubeVertices(h), CUBE_FACES[f];
    RawNormal(vs[t[0]], vs[t[1]], vs[t[2]])
  }

  /** Every cube face's raw normal is `4 h^2` times the outward axis of its side. */
  lemma CubeFaceNormal(h: real, f: int)
    requires 0 <= f < 12
    ensures CubeFaceRawNormal(h, f) == CubeSideNormal(h, f)
  {
    if f < 2 {
      CubeFaceNormalPlusX(h, f);
    } else if f < 4 {
      CubeFaceNormalPlusY(h, f);
    } else if f < 6 {
      CubeFaceNormalPlusZ(h, f);
    } else if f < 8 {
      CubeFaceNormalMinusY(h, f);
    } else if f < 10 {
      CubeFaceNormalMinusX(h, f);
    } else {
      CubeFaceNormalMinusZ(h, f);
    }
  }

  /** `CubeFaceNormal` for the two faces on the +X side. */
  lemma CubeFaceNormalPlusX(h: real, f: int)
    requires 0 <= f < 2
    ensures CubeFaceRawNormal(h, f) == CubeSideNormal(h, f)
  {
    var m, vs := 2.0 * h, CubeVertices(h);
    if f == 0 {
      assert CUBE_FACES[0] == [4, 0, 7];
      assert NewVectorFromVertices(vs[4], vs[0]) == NewVector(0.0, 0.0, -m);
      assert NewVectorFromVertices(vs[4], vs[7]) == NewVector(0.0, m, 0.0);
    } else {
      assert CUBE_FACES[1] == [3, 7, 0];
      assert NewVectorFromVertices(vs[3], vs[7]) == NewVector(0.0, 0.0, m);
      assert NewVectorFromVertices(vs[3], vs[0]) == NewVector(0.0, -m, 0.0);
    }
  }

  /** `CubeFaceNormal` for the two faces on the +Y side. */
  lemma CubeFaceNormalPlusY(h: real, f: int)
    requires 2 <= f < 4
    ensures CubeFaceRawNormal(h, f) == CubeSideNormal(h, f)
  {
    var m, vs := 2.0 * h, CubeVertices(h);
    if f == 2 {
      assert CUBE_FACES[2] == [6, 7, 2];
      assert NewVectorFromVertices(vs[6], vs[7]) == NewVector(m, 0.0, 0.0);
      assert NewVectorFromVertices(vs[6], vs[2]) == NewVector(0.0, 0.0, -m);
    } else {
      assert CUBE_FACES[3] == [3, 2, 7];
      assert NewVectorFromVertices(vs[3], vs[2]) == NewVector(-m, 0.0, 0.0);
      assert NewVectorFromVertices(vs[3], vs[7]) == NewVector(0.0, 0.0, m);
    }
  }

  /** `CubeFaceNormal` for the two faces on the +Z side. */
  lemma CubeFaceNormalPlusZ(h: real, f: int)
    requires 4 <= f < 6
    ensures CubeFaceRawNormal(h, f) == CubeSideNormal(h, f)
  {
    var m, vs := 2.0 * h, CubeVertices(h);
    if f == 4 {
      assert CUBE_FACES[4] == [6, 5, 7];
      assert NewVectorFromVertices(vs[6], vs[5]) == NewVector(0.0, -m, 0.0);
      assert NewVectorFromVertices(vs[6], vs[7]) == NewVector(m, 0.0, 0.0);
    } else {
      assert CUBE_FACES[5] == [4, 7, 5];
      assert NewVectorFromVertices(vs[4], vs[7]) == NewVector(0.0, m, 0.0);
      assert NewVectorFromVertices(vs[4], vs[5]) == NewVector(-m, 0.0, 0.0);
    }
  }

  /** `CubeFaceNormal` for the two faces on the -Y side. */
  lemma CubeFaceNormalMinusY(h: real, f: int)
    requires 6 <= f < 8
    ensures CubeFaceRawNormal(h, f) == CubeSideNormal(h, f)
  {
    var m, vs := 2.0 * h, CubeVertices(h);
    if f == 6 {
      assert CUBE_FACES[6] == [4, 5, 0];
      assert NewVectorFromVertices(vs[4], vs[5]) == NewVector(-m, 0.0, 0.0);
      assert NewVectorFromVertices(vs[4], vs[0]) == NewVector(0.0, 0.0, -m);
    } else {
      assert CUBE_FACES[7] == [1, 0, 5];
      assert NewVectorFromVertices(vs[1], vs[0]) == NewVector(m, 0.0, 0.0);
      assert NewVectorFromVertices(vs[1], vs[5]) == NewVector(0.0, 0.0, m);
    }
  }

  /** `CubeFaceNormal` for the two faces on the -X side. */
  lemma CubeFaceNormalMinusX(h: real, f: int)
    requires 8 <= f < 10
    ensures CubeFaceRawNormal(h, f) == CubeSideNormal(h, f)
  {
    var m, vs := 2.0 * h, CubeVertices(h);
    if f == 8 {
      assert CUBE_FACES[8] == [5, 6, 1];
      assert NewVectorFromVertices(vs[5], vs[6]) == NewVector(0.0, m, 0.0);
      assert NewVectorFromVertices(vs[5], vs[1]) == NewVector(0.0, 0.0, -m);
    } else {
      assert CUBE_FACES[9] == [2, 1, 6];
      assert NewVectorFromVertices(vs[2], vs[1]) == NewVector(0.0, -m, 0.0);
      assert NewVectorFromVertices(vs[2], vs[6]) == NewVector(0.0, 0.0, m);
    }
  }

  /** `CubeFaceNormal` for the two faces on the -Z side. */
  lemma CubeFaceNormalMinusZ(h: real, f: int)
    requires 10 <= f < 12
    ensures CubeFaceRawNormal(h, f) == CubeSideNormal(h, f)
  {
    var m, vs := 2.0 * h, CubeVertices(h);
    if f == 10 {
      assert CUBE_FACES[10] == [1, 2, 0];
      assert NewVectorFromVertices(vs[1], vs[2]) == NewVector(0.0, m, 0.0);
      assert NewVectorFromVertices(vs[1], vs[0]) == NewVector(m, 0.0, 0.0);
    } else {
      assert CUBE_FACES[11] == [3, 0, 2];
      assert NewVectorFromVertices(vs[3], vs[0]) == NewVector(0.0, -m, 0.0);
      assert NewVectorFromVertices(vs[3], vs[2]) == NewVector(-m, 0.0, 0.0);
    }
  }

  /** The first corner of every cube face lies on the side the face belongs to. */
  lemma CubeFaceCornerOnSide(h: real, f: int)
    requires 0 <= f < 12
    ensures OnSideOf(h, f, CubeFaceCorner(h, f))
  {
  }

  /**
   * Culling the cube of edge `size` from the camera position `(d, 0, 0)`, with
   * `d` beyond the cube's +X side: `checkVisibility` keeps face `f` exactly
   * when it is one of the two faces on the +X side, the side that faces the
   * camera, and drops the other ten.
   */
  lemma CubeSeenFromPlusX(size: real, d: real, sqrt: real -> real, f: int)
    requires 0.0 < size && size / 2.0 < d
    requires forall x :: 0.0 <= x ==> 0.0 <= sqrt(x)
    requires 0 <= f < 12
    ensures IndicesBelow(CUBE_FACES, 8) && |CubeVertices(size / 2.0)| == 8
    ensures (CheckVisibility(CubeVertices(size / 2.0)[CUBE_FACES[f][0]], CubeVertices(size / 2.0)[CUBE_FACES[f][1]],
              CubeVertices(size / 2.0)[CUBE_FACES[f][2]], NewVector(d, 0.0, 0.0), sqrt)) <==> f < 2
  {
    var h := size / 2.0;
    CubeIndices(h);
    var vs, t := CubeVertices(h), CUBE_FACES[f];
    VisibilityByRawNormal(vs[t[0]], vs[t[1]], vs[t[2]], NewVector(d, 0.0, 0.0), sqrt);
    CubeFaceNormal(h, f);
    CubeFaceCornerOnSide(h, f);
    SideVerdict(h, d, f, CubeFaceCorner(h, f));
  }

  /**
   * A point on the side of face `f` lies behind that side's outward normal, as
   * seen from `(d, 0, 0)` beyond the +X side, exactly when the side is +X.
   */
  lemma SideVerdict(h: real, d: real, f: int, p: Vertex)
    requires 0.0 < h < d && 0 <= f < 12 && OnSideOf(h, f, p)
    ensures CubeSideNormal(h, f).Dot(NewVectorFromVertex(p).Subtracted(NewVector(d, 0.0, 0.0))) < 0.0 <==> f < 2
  {
    var w := NewVectorFromVertex(p).Subtracted(NewVector(d, 0.0, 0.0));
    assert w.X() == p.X() - d && w.Y() == p.Y() && w.Z() == p.Z();
    if f < 2 {
      assert CubeSideNormal(h, f).Dot(w) == 4.0 * (h * h) * (h - d);
      ScaledSquareNegative(h, h - d);
    } else if 8 <= f < 10 {
      assert CubeSideNormal(h, f).Dot(w) == 4.0 * (h * h) * (h + d);
      ScaledSquarePositive(h, h + d);
    } else {
      assert CubeSideNormal(h, f).Dot(w) == 4.0 * (h * h) * h;
      ScaledSquarePositive(h, h);
    }
  }

  /** `4 h^2 e` is negative for a negative `e`. */
  lemma ScaledSquareNegative(h: real, e: real)
    requires 0.0 < h && e < 0.0
    ensures 4.0 * (h * h) * e < 0.0
  {
  }

  /** `4 h^2 e` is positive for a positive `e`. */
  lemma ScaledSquarePositive(h: real, e: real)
    requires 0.0 < h && 0.0 < e
    ensures 0.0 < 4.0 * (h * h) * e
  {
  }
}
