/**
 * `geom/Vertex.go` and `geom/Vertex2d.go`: a point in space or in the plane,
 * wrapping its coordinates. The datatypes are the Go values; `VertexRef` and
 * `Vertex2dRef` are the `*Vertex` and `*Vertex2d` locations that `Subtract`
 * and `Add` update in place.
 */
module GeomVertex {
  import opened GeomCoords

  /** A point in space. */
  datatype Vertex = Vertex(myCoords: Coords3d) {

    /** The value `Subtract(other)` leaves behind. */
    function Subtracted(other: Vertex): (r: Vertex)
      ensures r.Added(other) == this
    {
      Vertex(myCoords.Subtracted(other.myCoords))
    }

    /** The value `Add(other)` leaves behind. */
    function Added(other: Vertex): (r: Vertex)
      ensures r.X() == X() + other.X() && r.Y() == Y() + other.Y() && r.Z() == Z() + other.Z()
    {
      Vertex(myCoords.Added(other.myCoords))
    }

    /** `Distance`: the distance between the two coordinate triples. */
    function Distance(other: Vertex, sqrt: real -> real): real {
      myCoords.Distance(other.myCoords, sqrt)
    }

    function X(): real { myCoords.X }
    function Y(): real { myCoords.Y }
    function Z(): real { myCoords.Z }
  }

  /** `NewVertex`: the vertex whose accessors give back `x`, `y` and `z`. */
  function NewVertex(x: real, y: real, z: real): (v: Vertex)
    ensures v.X() == x && v.Y() == y && v.Z() == z
  {
    Vertex(Coords3d(x, y, z))
  }

  /** A point in the plane. */
  datatype Vertex2d = Vertex2d(myCoords: Coords2d) {

    /** The value `Subtract(other)` leaves behind. */
    function Subtracted(other: Vertex2d): (r: Vertex2d)
      ensures r.X() + other.X() == X() && r.Y() + other.Y() == Y()
    {
      Vertex2d(myCoords.Subtracted(other.myCoords))
    }

    /** `Distance`: the distance between the two coordinate pairs. */
    function Distance(other: Vertex2d, sqrt: real -> real): real {
      myCoords.Distance(other.myCoords, sqrt)
    }

    function X(): real { myCoords.X }
    function Y(): real { myCoords.Y }
  }

  /** `NewVertex2d`: the vertex whose accessors give back `x` and `y`. */
  function NewVertex2d(x: real, y: real): (v: Vertex2d)
    ensures v.X() == x && v.Y() == y
  {
    Vertex2d(Coords2d(x, y))
  }

  /** Adding and then subtracting the same vertex, or the reverse, gives back the first one. */
  lemma AddSubtractInverse(a: Vertex, b: Vertex)
    ensures a.Added(b).Subtracted(b) == a
    ensures a.Subtracted(b).Added(b) == a
  {
    assert a.Added(b).Subtracted(b).myCoords == a.myCoords;
  }

  /** The distance between vertices is symmetric. */
  lemma DistanceSymmetric(a: Vertex, b: Vertex, sqrt: real -> real)
    ensures a.Distance(b, sqrt) == b.Distance(a, sqrt)
  {
    Distance3dSymmetric(a.myCoords, b.myCoords, sqrt);
  }

  /** The distance from a vertex to itself is zero once the square root of 0 is 0. */
  lemma DistanceToItself(a: Vertex, sqrt: real -> real)
    requires sqrt(0.0) == 0.0
    ensures a.Distance(a, sqrt) == 0.0
  {
    Distance3dToItself(a.myCoords, sqrt);
  }

  /** The distance from a 2D vertex to itself is zero once the square root of 0 is 0. */
  lemma Vertex2dDistanceToItself(b: Vertex2d, sqrt: real -> real)
    requires sqrt(0.0) == 0.0
    ensures b.Distance(b, sqrt) == 0.0
  {
    Distance2dToItself(b.myCoords, sqrt);
  }

  /** A `*Vertex`: the location `Subtract` and `Add` update. */
  class VertexRef {
    var myCoords: Coords3d

    constructor (v: Vertex)
      ensures Value() == v
    {
      myCoords := v.myCoords;
    }

    /** The Go value stored at this location. */
    function Value(): Vertex
      reads this
    {
      Vertex(myCoords)
    }

    /** `Subtract`: the coordinates decrease by the other's. */
    method Subtract(other: Vertex)
      modifies this
      ensures Value() == old(Value()).Subtracted(other)
    {
      myCoords := myCoords.Subtracted(other.myCoords);
    }

    /** `Add`: the coordinates increase by the other's. */
    method Add(other: Vertex)
      modifies this
      ensures Value() == old(Value()).Added(other)
    {
      myCoords := myCoords.Added(other.myCoords);
    }

    /** `Subtracted`: subtracts in a fresh copy; this location is unchanged. */
    method Subtracted(other: Vertex) returns (res: Vertex)
      ensures res == Value().Subtracted(other)
    {
      var copy := new VertexRef(Value());
      copy.Subtract(other);
      res := copy.Value();
    }

    /** `Added`: adds in a fresh copy; this location is unchanged. */
    method Added(other: Vertex) returns (res: Vertex)
      ensures res == Value().Added(other)
    {
      var copy := new VertexRef(Value());
      copy.Add(other);
      res := copy.Value();
    }
  }

  /** A `*Vertex2d`: the location `Subtract` updates. */
  class Vertex2dRef {
    var myCoords: Coords2d

    constructor (v: Vertex2d)
      ensures Value() == v
    {
      myCoords := v.myCoords;
    }

    /** The Go value stored at this location. */
    function Value(): Vertex2d
      reads this
    {
      Vertex2d(myCoords)
    }

    /** `Subtract`: the coordinates decrease by the other's. */
    method Subtract(other: Vertex2d)
      modifies this
      ensures Value() == old(Value()).Subtracted(other)
    {
      myCoords := myCoords.Subtracted(other.myCoords);
    }

    /** `Subtracted`: subtracts in a fresh copy; this location is unchanged. */
    method Subtracted(other: Vertex2d) returns (res: Vertex2d)
      ensures res == Value().Subtracted(other)
    {
      var copy := new Vertex2dRef(Value());
      copy.Subtract(other);
      res := copy.Value();
    }
  }

  /** (3, 4) minus (1, 2), subtracted in place, is (2, 2). */
  method Vertex2dSubtractExample() returns (x: real, y: real)
    ensures x == 2.0 && y == 2.0
  {
    var v1 := new Vertex2dRef(NewVertex2d(3.0, 4.0));
    v1.Subtract(NewVertex2d(1.0, 2.0));
    x, y := v1.Value().X(), v1.Value().Y();
  }
}
