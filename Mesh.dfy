/**
 * `geom/Mesh.go`: an indexed triangle mesh. The vertex pool and the face list
 * only grow; every face stores three vertex indices and a cached normal. Every
 * accessor checks its indices and reports an error instead of failing, so every
 * stored face index refers to an existing vertex (`FacesValid`).
 *
 * The checked reads are functions on the two lists; the `Mesh` class holds the
 * lists as fields and its methods append to them or overwrite one face.
 */
module GeomMesh {
  import opened Wrappers
  import opened GeomVertex
  import opened GeomVector

  /** A Go `[3]int`. */
  type FaceIndices = s: seq<int> | |s| == 3 witness [0, 0, 0]

  /** `Triangle`: three vertex indices and the cached normal. */
  datatype Triangle = Triangle(myVertexIndices: FaceIndices, myNormal: Vector) {
    /** The value `SetNormal(normal)` leaves behind. */
    function WithNormal(normal: Vector): (t: Triangle)
      ensures t.myVertexIndices == myVertexIndices && t.myNormal == normal
    {
      Triangle(myVertexIndices, normal)
    }
  }

  /** The errors the checked operations report, with the values their messages print. */
  datatype MeshError =
    | FaceVertexOutOfBounds(position: nat, index: int, vertexCount: nat)  // "vertex index v<position> out of bounds"
    | VertexOutOfBounds(index: int, vertexCount: nat)
    | FaceOutOfBounds(index: int, faceCount: nat)
    | CornerOutOfBounds(index: int)                                       // "vertex index in face out of bounds"

  /** Every index of every face refers to an existing vertex. */
  predicate FacesValid(vertices: seq<Vertex>, faces: seq<Triangle>) {
    forall f, k :: 0 <= f < |faces| && 0 <= k < 3 ==> 0 <= faces[f].myVertexIndices[k] < |vertices|
  }

  /** Under `FacesValid`: every face's normal is the one `ComputeNormal` gives for its vertices. */
  predicate NormalsComputed(vertices: seq<Vertex>, faces: seq<Triangle>, sqrt: real -> real)
    requires FacesValid(vertices, faces)
  {
    forall f :: 0 <= f < |faces| ==>
      faces[f].myNormal == ComputeNormal(vertices[faces[f].myVertexIndices[0]],
                                         vertices[faces[f].myVertexIndices[1]],
                                         vertices[faces[f].myVertexIndices[2]], sqrt)
  }

  /** Appending a vertex keeps every face valid and its cached normal the computed one. */
  lemma AppendVertexKeepsNormals(vertices: seq<Vertex>, faces: seq<Triangle>, v: Vertex, sqrt: real -> real)
    requires FacesValid(vertices, faces) && NormalsComputed(vertices, faces, sqrt)
    ensures FacesValid(vertices + [v], faces) && NormalsComputed(vertices + [v], faces, sqrt)
  {
    forall f | 0 <= f < |faces|
      ensures faces[f].myNormal == ComputeNormal((vertices + [v])[faces[f].myVertexIndices[0]],
                                                 (vertices + [v])[faces[f].myVertexIndices[1]],
                                                 (vertices + [v])[faces[f].myVertexIndices[2]], sqrt)
    {
      assert forall k :: 0 <= k < 3 ==> (vertices + [v])[faces[f].myVertexIndices[k]] == vertices[faces[f].myVertexIndices[k]];
    }
  }

  /** The cross product of the sides a->b and a->c, the normal before normalisation. */
  function RawNormal(a: Vertex, b: Vertex, c: Vertex): Vector {
    NewVectorFromVertices(a, b).Cross(NewVectorFromVertices(a, c))
  }

  /** `ComputeNormal`: the normalised cross product of the sides v1->v2 and v1->v3. */
  function ComputeNormal(v1: Vertex, v2: Vertex, v3: Vertex, sqrt: real -> real): Vector {
    var side1 := NewVectorFromVertices(v1, v2);
    var side2 := NewVectorFromVertices(v1, v3);
    var normal := side1.Cross(side2);
    normal.Normalized(sqrt)
  }

  /**
   * Whatever the square root, the computed normal is orthogonal to both sides of
   * the triangle, and when the square root is never negative its dot product with
   * any vector has the sign of the unnormalised cross product's.
   */
  lemma ComputeNormalProperties(v1: Vertex, v2: Vertex, v3: Vertex, sqrt: real -> real, w: Vector)
    ensures ComputeNormal(v1, v2, v3, sqrt).Dot(NewVectorFromVertices(v1, v2)) == 0.0
    ensures ComputeNormal(v1, v2, v3, sqrt).Dot(NewVectorFromVertices(v1, v3)) == 0.0
    ensures (forall x :: 0.0 <= x ==> 0.0 <= sqrt(x)) ==>
      (ComputeNormal(v1, v2, v3, sqrt).Dot(w) < 0.0 <==>
       RawNormal(v1, v2, v3).Dot(w) < 0.0)
  {
    var side1 := NewVectorFromVertices(v1, v2);
    var side2 := NewVectorFromVertices(v1, v3);
    var normal := side1.Cross(side2);
    CrossOrthogonal(side1, side2);
    NormalizedOrthogonal(normal, side1, sqrt);
    NormalizedOrthogonal(normal, side2, sqrt);
    if forall x :: 0.0 <= x ==> 0.0 <= sqrt(x) {
      NormalizedDotSign(normal, w, sqrt);
    }
  }

  /** Normalizing keeps a zero dot product at zero, whatever the square root. */
  lemma NormalizedOrthogonal(v: Vector, w: Vector, sqrt: real -> real)
    requires v.Dot(w) == 0.0
    ensures v.Normalized(sqrt).Dot(w) == 0.0
  {
    var l := v.Length(sqrt);
    if l != 0.0 {
      DotSymmetricAndScales(v, w, 1.0 / l);
      assert v.Normalized(sqrt) == v.Scaled(1.0 / l);
    }
  }

  /**
   * The index checks of `AddFace`, in source order: the first of v1, v2, v3
   * outside `[0, count)` is reported.
   */
  function CheckFaceIndices(v1: int, v2: int, v3: int, count: nat): (r: Outcome<MeshError>)
    ensures r.Pass? <==> 0 <= v1 < count && 0 <= v2 < count && 0 <= v3 < count
    ensures r.Fail? && !(0 <= v1 < count) ==> r.error == FaceVertexOutOfBounds(1, v1, count)
    ensures r.Fail? && 0 <= v1 < count && !(0 <= v2 < count) ==> r.error == FaceVertexOutOfBounds(2, v2, count)
    ensures r.Fail? && 0 <= v1 < count && 0 <= v2 < count ==> r.error == FaceVertexOutOfBounds(3, v3, count)
  {
    if v1 < 0 || v1 >= count then Fail(FaceVertexOutOfBounds(1, v1, count))
    else if v2 < 0 || v2 >= count then Fail(FaceVertexOutOfBounds(2, v2, count))
    else if v3 < 0 || v3 >= count then Fail(FaceVertexOutOfBounds(3, v3, count))
    else Pass
  }

  /** `Vertex(i)`: the i-th vertex, or an error when `i` is outside `[0, |vertices|)`. */
  function LookupVertex(vertices: seq<Vertex>, i: int): (r: Result<Vertex, MeshError>)
    ensures r.Ok? <==> 0 <= i < |vertices|
    ensures r.Ok? ==> r.value == vertices[i]
    ensures r.Err? ==> r.error == VertexOutOfBounds(i, |vertices|)
  {
    if i < 0 || i >= |vertices| then Err(VertexOutOfBounds(i, |vertices|)) else Ok(vertices[i])
  }

  /**
   * `VertexInFace(f, k)`: the vertex at the k-th stored index of face f. It fails
   * when f is not a face, when k is not 0, 1 or 2, and when the stored index is
   * not a vertex (which `FacesValid` rules out).
   */
  function LookupVertexInFace(vertices: seq<Vertex>, faces: seq<Triangle>, f: int, k: int): (r: Result<Vertex, MeshError>)
    ensures !(0 <= f < |faces|) ==> r == Err(FaceOutOfBounds(f, |faces|))
    ensures 0 <= f < |faces| && !(0 <= k < 3) ==> r == Err(CornerOutOfBounds(k))
    ensures 0 <= f < |faces| && 0 <= k < 3 ==> r == LookupVertex(vertices, faces[f].myVertexIndices[k])
  {
    if f < 0 || f >= |faces| then Err(FaceOutOfBounds(f, |faces|))
    else if k < 0 || k >= 3 then Err(CornerOutOfBounds(k))
    else LookupVertex(vertices, faces[f].myVertexIndices[k])
  }

  /** `Normal(f)`: the cached normal of face f, or an error when f is not a face. */
  function LookupNormal(faces: seq<Triangle>, f: int): (r: Result<Vector, MeshError>)
    ensures r.Ok? <==> 0 <= f < |faces|
    ensures r.Ok? ==> r.value == faces[f].myNormal
    ensures r.Err? ==> r.error == FaceOutOfBounds(f, |faces|)
  {
    if f < 0 || f >= |faces| then Err(FaceOutOfBounds(f, |faces|)) else Ok(faces[f].myNormal)
  }

  /** Under `FacesValid`, `VertexInFace` fails exactly for a bad face or corner index. */
  lemma VertexInFaceOfValidMesh(vertices: seq<Vertex>, faces: seq<Triangle>, f: int, k: int)
    requires FacesValid(vertices, faces)
    ensures LookupVertexInFace(vertices, faces, f, k).Ok? <==> 0 <= f < |faces| && 0 <= k < 3
    ensures 0 <= f < |faces| && 0 <= k < 3 ==>
      LookupVertexInFace(vertices, faces, f, k) == Ok(vertices[faces[f].myVertexIndices[k]])
  {
    if 0 <= f < |faces| && 0 <= k < 3 {
      assert 0 <= faces[f].myVertexIndices[k] < |vertices|;
    }
  }

  /** `Mesh`: the vertex pool and the face list. */
  class Mesh {
    var myVertices: seq<Vertex>
    var myFaces: seq<Triangle>

    /** Every stored face index refers to an existing vertex. */
    predicate Valid()
      reads this
    {
      FacesValid(myVertices, myFaces)
    }

    /** Every face still holds the normal `AddFace` computed for it. */
    predicate NormalsCached(sqrt: real -> real)
      reads this
    {
      FacesValid(myVertices, myFaces) && NormalsComputed(myVertices, myFaces, sqrt)
    }

    /** `&Mesh{}`: no vertices and no faces. */
    constructor ()
      ensures myVertices == [] && myFaces == []
      ensures Valid()
    {
      myVertices, myFaces := [], [];
    }

    function VertexNumber(): nat
      reads this
    {
      |myVertices|
    }

    function FaceNumber(): nat
      reads this
    {
      |myFaces|
    }

    /** `AddVertex`: appends `v` and returns its index, the previous vertex count. */
    method AddVertex(v: Vertex) returns (index: int)
      modifies this
      ensures myVertices == old(myVertices) + [v] && unchanged(this`myFaces)
      ensures index == |old(myVertices)|
      ensures old(Valid()) ==> Valid()
    {
      myVertices := myVertices + [v];
      index := |myVertices| - 1;
    }

    /**
     * `AddFace`: rejects the first index outside `[0, VertexNumber)` with -1 and
     * an error, leaving the mesh unchanged; otherwise appends the face with the
     * normal `ComputeNormal` gives and returns its index, the previous face count.
     */
    method AddFace(v1: int, v2: int, v3: int, sqrt: real -> real) returns (index: int, err: Option<MeshError>)
      modifies this
      ensures unchanged(this`myVertices)
      ensures !(0 <= v1 < |myVertices| && 0 <= v2 < |myVertices| && 0 <= v3 < |myVertices|) ==>
        index == -1 && err == Some(CheckFaceIndices(v1, v2, v3, |myVertices|).error) && unchanged(this`myFaces)
      ensures 0 <= v1 < |myVertices| && 0 <= v2 < |myVertices| && 0 <= v3 < |myVertices| ==>
        err == None && index == |old(myFaces)| && |myFaces| == index + 1 &&
        myFaces == old(myFaces) + [myFaces[index]] && myFaces[index].myVertexIndices == [v1, v2, v3] &&
        myFaces[index].myNormal == ComputeNormal(myVertices[v1], myVertices[v2], myVertices[v3], sqrt)
      ensures old(Valid()) ==> Valid()
      ensures old(NormalsCached(sqrt)) ==> NormalsCached(sqrt)
    {
      var check := CheckFaceIndices(v1, v2, v3, |myVertices|);
      if check.Fail? {
        return -1, Some(check.error);
      }
      var normal := ComputeNormal(myVertices[v1], myVertices[v2], myVertices[v3], sqrt);
      var face := Triangle([v1, v2, v3], normal);
      myFaces := myFaces + [face];
      index, err := |myFaces| - 1, None;
    }

    /**
     * `SetFaceNormal`: overwrites the normal of face `faceIndex`, or reports an
     * error and changes nothing when that is not a face.
     */
    method SetFaceNormal(faceIndex: int, normal: Vector) returns (err: Option<MeshError>)
      modifies this
      ensures myVertices == old(myVertices)
      ensures !(0 <= faceIndex < |old(myFaces)|) ==>
        err == Some(FaceOutOfBounds(faceIndex, |old(myFaces)|)) && myFaces == old(myFaces)
      ensures 0 <= faceIndex < |old(myFaces)| ==>
        err == None && myFaces == old(myFaces)[faceIndex := old(myFaces)[faceIndex].WithNormal(normal)]
      ensures old(Valid()) ==> Valid()
    {
      if faceIndex < 0 || faceIndex >= |myFaces| {
        return Some(FaceOutOfBounds(faceIndex, |myFaces|));
      }
      myFaces := myFaces[faceIndex := myFaces[faceIndex].WithNormal(normal)];
      err := None;
    }

    /** `Vertex(i)`. */
    function GetVertex(i: int): Result<Vertex, MeshError>
      reads this
    {
      LookupVertex(myVertices, i)
    }

    /** `VertexInFace(f, k)`. */
    function VertexInFace(f: int, k: int): Result<Vertex, MeshError>
      reads this
    {
      LookupVertexInFace(myVertices, myFaces, f, k)
    }

    /** `Normal(f)`. */
    function Normal(f: int): Result<Vector, MeshError>
      reads this
    {
      LookupNormal(myFaces, f)
    }
  }

  /** Three vertices yield indices 0, 1 and 2, and the face on them is added as face 0. */
  method TriangleMesh(a: Vertex, b: Vertex, c: Vertex, sqrt: real -> real) returns (m: Mesh)
    ensures m.myVertices == [a, b, c] && m.Valid()
    ensures |m.myFaces| == 1 && m.myFaces[0].myVertexIndices == [0, 1, 2]
    ensures fresh(m)
  {
    m := new Mesh();
    var i1 := m.AddVertex(a);
    var i2 := m.AddVertex(b);
    var i3 := m.AddVertex(c);
    assert i1 == 0 && i2 == 1 && i3 == 2 && m.myVertices == [a, b, c] && m.myFaces == [];
    var face, err := m.AddFace(i1, i2, i3, sqrt);
  }

  /**
   * The mesh tests' scenario: the face of `TriangleMesh` gives back its vertices in
   * order; out-of-range faces, corners and vertices are errors; a normal set on
   * face 0 is read back, and one set on face 999 is rejected.
   */
  method MeshScenario(sqrt: real -> real) returns (m: Mesh)
    ensures m.VertexNumber() == 3 && m.FaceNumber() == 1 && m.Valid()
    ensures m.VertexInFace(0, 0) == Ok(NewVertex(1.0, 0.0, 0.0))
    ensures m.VertexInFace(0, 1) == Ok(NewVertex(0.0, 1.0, 0.0))
    ensures m.VertexInFace(0, 2) == Ok(NewVertex(0.0, 0.0, 1.0))
    ensures m.VertexInFace(999, 0).Err? && m.VertexInFace(0, 3).Err?
    ensures m.Normal(0) == Ok(NewVector(0.0, 0.0, 1.0))
    ensures m.Normal(999).Err? && m.GetVertex(3).Err? && m.GetVertex(-1).Err?
  {
    m := TriangleMesh(NewVertex(1.0, 0.0, 0.0), NewVertex(0.0, 1.0, 0.0), NewVertex(0.0, 0.0, 1.0), sqrt);
    var err := m.SetFaceNormal(0, NewVector(0.0, 0.0, 1.0));
    assert err == None;
    err := m.SetFaceNormal(999, NewVector(0.0, 0.0, 1.0));
    assert err.Some?;
    assert m.myFaces[0].myVertexIndices == [0, 1, 2];
  }

  /** With a single vertex, adding the face (0, 1, 2) fails on its second index. */
  method AddFaceOutOfBoundsScenario(sqrt: real -> real) returns (m: Mesh, err: Option<MeshError>)
    ensures err == Some(FaceVertexOutOfBounds(2, 1, 1)) && m.FaceNumber() == 0
  {
    m := new Mesh();
    var _ := m.AddVertex(NewVertex(1.0, 0.0, 0.0));
    var index;
    index, err := m.AddFace(0, 1, 2, sqrt);
  }
}
