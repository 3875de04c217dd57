/**
 * `geom/Mesh2d.go`: the planar triangle mesh. Unlike `Mesh`, nothing is
 * checked: `AddFace` stores whatever indices it is given and the reads index
 * the lists directly, so here they demand in-range indices of their callers.
 */
module GeomMesh2d {
  import opened GeomVertex
  import opened GeomMesh

  /** `Triangle2d`: three vertex indices and a visibility flag. */
  datatype Triangle2d = Triangle2d(myVertexIndices: FaceIndices, myIsVisible: bool)

  /** Every index of every face refers to an existing vertex. */
  predicate Faces2dValid(vertices: seq<Vertex2d>, faces: seq<Triangle2d>) {
    forall f, k :: 0 <= f < |faces| && 0 <= k < 3 ==> 0 <= faces[f].myVertexIndices[k] < |vertices|
  }

  /** Every face `AddFace` stores is visible: nothing in `Mesh2d` clears the flag. */
  predicate AllVisible(faces: seq<Triangle2d>) {
    forall f :: 0 <= f < |faces| ==> faces[f].myIsVisible
  }

  /** `Mesh2d`: the vertex pool and the face list. */
  class Mesh2d {
    var myVertices: seq<Vertex2d>
    var myFaces: seq<Triangle2d>

    /**
     * Every stored face index refers to an existing vertex. `Mesh2d` does not
     * maintain this; its callers do, by passing indices `AddVertex` returned.
     */
    predicate Valid()
      reads this
    {
      Faces2dValid(myVertices, myFaces)
    }

    /** `Mesh2d{}`: no vertices and no faces. */
    constructor ()
      ensures myVertices == [] && myFaces == []
      ensures Valid() && AllVisible(myFaces)
    {
      myVertices, myFaces := [], [];
    }

    function VertexNumber(): nat
      reads this
    {
      |myVertices|
    }

    function FaceNumber(): nat
      reads this
    {
      |myFaces|
    }

    /** `AddVertex`: appends `v` and returns its index, the previous vertex count. */
    method AddVertex(v: Vertex2d) returns (index: int)
      modifies this
      ensures myVertices == old(myVertices) + [v] && myFaces == old(myFaces)
      ensures index == |old(myVertices)| && myVertices[index] == v
      ensures old(Valid()) ==> Valid()
    {
      myVertices := myVertices + [v];
      index := |myVertices| - 1;
    }

    /**
     * `AddFace`: appends a visible face on (v1, v2, v3), whatever the indices,
     * and returns its index, the previous face count. The mesh stays valid
     * exactly when the three indices are vertices.
     */
    method AddFace(v1: int, v2: int, v3: int) returns (index: int)
      modifies this
      ensures myVertices == old(myVertices)
      ensures index == |old(myFaces)| && myFaces == old(myFaces) + [Triangle2d([v1, v2, v3], true)]
      ensures IsVisible(index) && (old(AllVisible(myFaces)) ==> AllVisible(myFaces))
      ensures old(Valid()) ==>
        (Valid() <==> 0 <= v1 < |myVertices| && 0 <= v2 < |myVertices| && 0 <= v3 < |myVertices|)
    {
      var face := Triangle2d([v1, v2, v3], true);
      myFaces := myFaces + [face];
      index := |myFaces| - 1;
      assert myFaces[index].myVertexIndices == [v1, v2, v3];
      assert forall f :: 0 <= f < index ==> myFaces[f] == old(myFaces)[f];
      if Valid() {
        assert myFaces[index].myVertexIndices[0] == v1;
        assert myFaces[index].myVertexIndices[1] == v2;
        assert myFaces[index].myVertexIndices[2] == v3;
      }
    }

    /** `Vertex(i)`: an unchecked read. */
    function Vertex(i: int): (r: Vertex2d)
      requires 0 <= i < |myVertices|
      reads this
      ensures r in myVertices
    {
      myVertices[i]
    }

    /** `VertexInFace(f, k)`: the vertex at the k-th stored index of face f, unchecked. */
    function VertexInFace(f: int, k: int): (r: Vertex2d)
      requires 0 <= f < |myFaces| && 0 <= k < 3
      requires 0 <= myFaces[f].myVertexIndices[k] < |myVertices|
      reads this
      ensures r in myVertices
      ensures r == Vertex(myFaces[f].myVertexIndices[k])
    {
      Vertex(myFaces[f].myVertexIndices[k])
    }

    /** `IsVisible(f)`: an unchecked read of the face's flag. */
    function IsVisible(f: int): bool
      requires 0 <= f < |myFaces|
      reads this
    {
      myFaces[f].myIsVisible
    }
  }

  /** The 2D mesh tests: three vertices, one face, and its corners read back in order. */
  method Mesh2dScenario() returns (m: Mesh2d)
    ensures m.VertexNumber() == 3 && m.FaceNumber() == 1 && m.Valid() && AllVisible(m.myFaces)
    ensures m.VertexInFace(0, 0) == NewVertex2d(0.0, 0.0)
    ensures m.VertexInFace(0, 1) == NewVertex2d(1.0, 0.0)
    ensures m.VertexInFace(0, 2) == NewVertex2d(0.0, 1.0)
  {
    m := new Mesh2d();
    var v1 := m.AddVertex(NewVertex2d(0.0, 0.0));
    var v2 := m.AddVertex(NewVertex2d(1.0, 0.0));
    var v3 := m.AddVertex(NewVertex2d(0.0, 1.0));
    var f := m.AddFace(v1, v2, v3);
    assert m.myFaces[0].myVertexIndices == [0, 1, 2];
  }

  /** `AddFace` is unchecked: on an empty mesh it stores the face (5, 6, 7) as face 0. */
  method UncheckedAddFaceScenario() returns (m: Mesh2d, index: int)
    ensures index == 0 && m.FaceNumber() == 1 && !m.Valid()
  {
    m := new Mesh2d();
    index := m.AddFace(5, 6, 7);
  }
}
