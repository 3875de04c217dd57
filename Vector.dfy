/**
 * `geom/Vector.go` and `geom/Vector2d.go`: displacement vectors with the dot
 * and cross products and the angle between two vectors. The datatypes are the
 * Go values; `VectorRef` and `Vector2dRef` are the `*Vector` and `*Vector2d`
 * locations that the in-place operations update. A `NaN` angle is `None`.
 */
module GeomVector {
  import opened Wrappers
  import opened RealMath
  import opened GeomCoords
  import opened GeomVertex

  /** A vector in space. */
  datatype Vector = Vector(myCoords: Coords3d) {

    /** The value `Subtract(other)` leaves behind. */
    function Subtracted(other: Vector): (r: Vector)
      ensures r.Added(other) == this
    {
      Vector(myCoords.Subtracted(other.myCoords))
    }

    /** The value `Add(other)` leaves behind. */
    function Added(other: Vector): (r: Vector)
      ensures r.X() == X() + other.X() && r.Y() == Y() + other.Y() && r.Z() == Z() + other.Z()
    {
      Vector(myCoords.Added(other.myCoords))
    }

    /** `Equals`: the coordinate triples agree on every axis within the tolerance. */
    predicate Equals(other: Vector) {
      myCoords.Equals(other.myCoords)
    }

    /** `Length`: the length of the coordinate triple. */
    function Length(sqrt: real -> real): real {
      myCoords.Length(sqrt)
    }

    /** The value `Scale(scalar)` leaves behind. */
    function Scaled(scalar: real): Vector {
      Vector(myCoords.Scaled(scalar))
    }

    /** The value `Normalize` leaves behind. */
    function Normalized(sqrt: real -> real): Vector {
      Vector(myCoords.Normalized(sqrt))
    }

    /** `Dot`: the scalar product; a vector's product with itself is its squared length. */
    function Dot(other: Vector): (r: real)
      ensures other == this ==> r == myCoords.SquaredLength()
    {
      X() * other.X() + Y() * other.Y() + Z() * other.Z()
    }

    /** `Cross`: the vector product (`CrossOrthogonal` shows it is orthogonal to both factors). */
    function Cross(other: Vector): Vector {
      Vector(Coords3d(
        Y() * other.Z() - Z() * other.Y(),
        Z() * other.X() - X() * other.Z(),
        X() * other.Y() - Y() * other.X()))
    }

    /**
     * `Angle`: the arc cosine of the normalised dot product, or `None` (Go's
     * `NaN`) exactly when one of the two lengths is zero.
     */
    function Angle(other: Vector, sqrt: real -> real, acos: real -> real): (r: Option<real>)
      ensures r.None? <==> Length(sqrt) == 0.0 || other.Length(sqrt) == 0.0
      ensures r.Some? ==> r.value == acos(Dot(other) / Length(sqrt) / other.Length(sqrt))
    {
      var sc := Dot(other);
      var l1 := Length(sqrt);
      var l2 := other.Length(sqrt);
      if l1 == 0.0 || l2 == 0.0 then None else Some(acos(sc / l1 / l2))
    }

    function X(): real { myCoords.X }
    function Y(): real { myCoords.Y }
    function Z(): real { myCoords.Z }
  }

  /** `NewVector`: the vector whose accessors give back `x`, `y` and `z`. */
  function NewVector(x: real, y: real, z: real): (v: Vector)
    ensures v.X() == x && v.Y() == y && v.Z() == z
  {
    Vector(Coords3d(x, y, z))
  }

  /** `NewVectorFromVertex`: the position vector of `v`. */
  function NewVectorFromVertex(v: Vertex): (r: Vector)
    ensures r.X() == v.X() && r.Y() == v.Y() && r.Z() == v.Z()
  {
    Vector(v.myCoords)
  }

  /** `NewVectorFromVertices`: the displacement that carries `begin` to `end`. */
  function NewVectorFromVertices(begin: Vertex, end: Vertex): (r: Vector)
    ensures NewVectorFromVertex(begin).Added(r) == NewVectorFromVertex(end)
  {
    NewVectorFromVertex(end.Subtracted(begin))
  }

  /** The vector from (1, 1, 1) to (4, 5, 6) is (3, 4, 5). */
  lemma FromVerticesExample()
    ensures NewVectorFromVertices(NewVertex(1.0, 1.0, 1.0), NewVertex(4.0, 5.0, 6.0)) == NewVector(3.0, 4.0, 5.0)
  {
    var r := NewVectorFromVertices(NewVertex(1.0, 1.0, 1.0), NewVertex(4.0, 5.0, 6.0));
    assert r.X() == 3.0 && r.Y() == 4.0 && r.Z() == 5.0;
  }

  /** The dot product is symmetric and scales with either factor. */
  lemma DotSymmetricAndScales(a: Vector, b: Vector, k: real)
    ensures a.Dot(b) == b.Dot(a)
    ensures a.Scaled(k).Dot(b) == k * a.Dot(b)
  {
    assert a.Scaled(k).Dot(b) == (k * a.X()) * b.X() + (k * a.Y()) * b.Y() + (k * a.Z()) * b.Z();
  }

  /** The cross product is orthogonal to both of its factors. */
  lemma CrossOrthogonal(a: Vector, b: Vector)
    ensures a.Cross(b).Dot(a) == 0.0 && a.Cross(b).Dot(b) == 0.0
  {
  }

  /** The cross product is antisymmetric, and zero for a vector with itself. */
  lemma CrossAntisymmetric(a: Vector, b: Vector)
    ensures a.Cross(b) == b.Cross(a).Scaled(-1.0)
    ensures a.Cross(a) == NewVector(0.0, 0.0, 0.0)
  {
  }

  /** (1, 2, 3) x (4, 5, 6) is (-3, 6, -3), and (1, 2, 3) . (4, 5, 6) is 32. */
  lemma ProductExamples()
    ensures NewVector(1.0, 2.0, 3.0).Cross(NewVector(4.0, 5.0, 6.0)) == NewVector(-3.0, 6.0, -3.0)
    ensures NewVector(1.0, 2.0, 3.0).Dot(NewVector(4.0, 5.0, 6.0)) == 32.0
  {
    var c := NewVector(1.0, 2.0, 3.0).Cross(NewVector(4.0, 5.0, 6.0));
    assert c.myCoords == Coords3d(2.0 * 6.0 - 3.0 * 5.0, 3.0 * 4.0 - 1.0 * 6.0, 1.0 * 5.0 - 2.0 * 4.0);
  }

  /** Both products with the zero vector are zero. */
  lemma ProductsWithZero(v: Vector)
    ensures v.Cross(NewVector(0.0, 0.0, 0.0)) == NewVector(0.0, 0.0, 0.0)
    ensures v.Dot(NewVector(0.0, 0.0, 0.0)) == 0.0
  {
  }

  /** An angle with the zero vector is `NaN`, once the square root of 0 is 0. */
  lemma AngleWithZero(v: Vector, sqrt: real -> real, acos: real -> real)
    requires sqrt(0.0) == 0.0
    ensures v.Angle(NewVector(0.0, 0.0, 0.0), sqrt, acos) == None
    ensures NewVector(0.0, 0.0, 0.0).Angle(v, sqrt, acos) == None
  {
    ZeroLength(sqrt);
    AngleOfZeroLength(v, NewVector(0.0, 0.0, 0.0), sqrt, acos);
  }

  /** The angle is `NaN` as soon as one of the two vectors has length zero, in either order. */
  lemma AngleOfZeroLength(v: Vector, w: Vector, sqrt: real -> real, acos: real -> real)
    requires w.Length(sqrt) == 0.0
    ensures v.Angle(w, sqrt, acos) == None && w.Angle(v, sqrt, acos) == None
  {
  }

  /** The zero vector has length zero once the square root of 0 is 0. */
  lemma ZeroLength(sqrt: real -> real)
    requires sqrt(0.0) == 0.0
    ensures NewVector(0.0, 0.0, 0.0).Length(sqrt) == 0.0
  {
    assert NewVector(0.0, 0.0, 0.0).myCoords.SquaredLength() == 0.0;
  }

  /** The angle between the unit axes x and y is `acos(0)`, and that of x with itself is `acos(1)`. */
  lemma AngleExamples(sqrt: real -> real, acos: real -> real)
    requires IsSqrt(sqrt)
    ensures NewVector(1.0, 0.0, 0.0).Angle(NewVector(0.0, 1.0, 0.0), sqrt, acos) == Some(acos(0.0))
    ensures NewVector(1.0, 0.0, 0.0).Angle(NewVector(1.0, 0.0, 0.0), sqrt, acos) == Some(acos(1.0))
  {
    SqrtOfSquare(sqrt, 1.0);
  }

  /**
   * Normalizing a vector does not change the sign of its dot product with any
   * other vector, as long as the square root is never negative: either the
   * vector is unchanged, or it is scaled by the positive `1 / length`.
   */
  lemma NormalizedDotSign(v: Vector, w: Vector, sqrt: real -> real)
    requires forall x :: 0.0 <= x ==> 0.0 <= sqrt(x)
    ensures v.Normalized(sqrt).Dot(w) < 0.0 <==> v.Dot(w) < 0.0
    ensures v.Normalized(sqrt).Dot(w) == 0.0 <==> v.Dot(w) == 0.0
  {
    Normalized3dDirection(v.myCoords, sqrt);
    var l := v.Length(sqrt);
    if l != 0.0 {
      var k := 1.0 / l;
      DotSymmetricAndScales(v, w, k);
      assert v.Normalized(sqrt) == v.Scaled(k);
      ScaledSign(k, v.Dot(w));
    }
  }

  /** Multiplying by a positive factor keeps the sign. */
  lemma ScaledSign(k: real, d: real)
    requires 0.0 < k
    ensures k * d < 0.0 <==> d < 0.0
    ensures k * d == 0.0 <==> d == 0.0
  {
    if d < 0.0 {
      PositiveProduct(k, -d);
      assert k * (-d) == -(k * d);
    } else if 0.0 < d {
      PositiveProduct(k, d);
    }
  }

  /** A `*Vector`: the location the in-place operations update. */
  class VectorRef {
    var myCoords: Coords3d

    constructor (v: Vector)
      ensures Value() == v
    {
      myCoords := v.myCoords;
    }

    /** The Go value stored at this location. */
    function Value(): Vector
      reads this
    {
      Vector(myCoords)
    }

    /** `Subtract`: the coordinates decrease by the other's. */
    method Subtract(other: Vector)
      modifies this
      ensures Value() == old(Value()).Subtracted(other)
    {
      myCoords := myCoords.Subtracted(other.myCoords);
    }

    /** `Add`: the coordinates increase by the other's. */
    method Add(other: Vector)
      modifies this
      ensures Value() == old(Value()).Added(other)
    {
      myCoords := myCoords.Added(other.myCoords);
    }

    /** `Subtracted`: subtracts in a fresh copy; this location is unchanged. */
    method Subtracted(other: Vector) returns (res: Vector)
      ensures res == Value().Subtracted(other)
    {
      var copy := new VectorRef(Value());
      copy.Subtract(other);
      res := copy.Value();
    }

    /** `Added`: adds in a fresh copy; this location is unchanged. */
    method Added(other: Vector) returns (res: Vector)
      ensures res == Value().Added(other)
    {
      var copy := new VectorRef(Value());
      copy.Add(other);
      res := copy.Value();
    }

    /** `Scale`: every coordinate is multiplied by `scalar`. */
    method Scale(scalar: real)
      modifies this
      ensures Value() == old(Value()).Scaled(scalar)
    {
      myCoords := myCoords.Scaled(scalar);
    }

    /** `Normalize`: divides by the length; a zero-length vector is left as it is. */
    method Normalize(sqrt: real -> real)
      modifies this
      ensures Value() == old(Value()).Normalized(sqrt)
      ensures old(Value()).Length(sqrt) == 0.0 ==> Value() == old(Value())
    {
      myCoords := myCoords.Normalized(sqrt);
    }
  }

  /** A vector in the plane. */
  datatype Vector2d = Vector2d(myCoords: Coords2d) {

    /** The value `Subtract(other)` leaves behind. */
    function Subtracted(other: Vector2d): (r: Vector2d)
      ensures r.X() + other.X() == X() && r.Y() + other.Y() == Y()
    {
      Vector2d(myCoords.Subtracted(other.myCoords))
    }

    /** `Equals`: the coordinate pairs are closer than the tolerance. */
    predicate Equals(other: Vector2d, sqrt: real -> real) {
      myCoords.Equals(other.myCoords, sqrt)
    }

    /** `Length`: the length of the coordinate pair. */
    function Length(sqrt: real -> real): real {
      myCoords.Length(sqrt)
    }

    /** The value `Scale(scalar)` leaves behind. */
    function Scaled(scalar: real): Vector2d {
      Vector2d(myCoords.Scaled(scalar))
    }

    /** The value `Normalize` leaves behind. */
    function Normalized(sqrt: real -> real): Vector2d {
      Vector2d(myCoords.Normalized(sqrt))
    }

    /** `Dot`: the scalar product; a vector's product with itself is its squared length. */
    function Dot(other: Vector2d): (r: real)
      ensures other == this ==> r == myCoords.SquaredLength()
    {
      X() * other.X() + Y() * other.Y()
    }

    /** `Cross`: the signed area of the parallelogram the two vectors span. */
    function Cross(other: Vector2d): real {
      X() * other.Y() - Y() * other.X()
    }

    /**
     * `Angle`: the arc cosine of the normalised dot product, or `None` (Go's
     * `NaN`) exactly when one of the two lengths is zero.
     */
    function Angle(other: Vector2d, sqrt: real -> real, acos: real -> real): (r: Option<real>)
      ensures r.None? <==> Length(sqrt) == 0.0 || other.Length(sqrt) == 0.0
      ensures r.Some? ==> r.value == acos(Dot(other) / Length(sqrt) / other.Length(sqrt))
    {
      var sc := Dot(other);
      var l1 := Length(sqrt);
      var l2 := other.Length(sqrt);
      if l1 == 0.0 || l2 == 0.0 then None else Some(acos(sc / l1 / l2))
    }

    function X(): real { myCoords.X }
    function Y(): real { myCoords.Y }
  }

  /** `NewVector2d`: the vector whose accessors give back `x` and `y`. */
  function NewVector2d(x: real, y: real): (v: Vector2d)
    ensures v.X() == x && v.Y() == y
  {
    Vector2d(Coords2d(x, y))
  }

  /** `NewVector2dFromVertex`: the position vector of `v`. */
  function NewVector2dFromVertex(v: Vertex2d): (r: Vector2d)
    ensures r.X() == v.X() && r.Y() == v.Y()
  {
    Vector2d(v.myCoords)
  }

  /** `NewVector2dFromVertices`: the displacement that carries `begin` to `end`. */
  function NewVector2dFromVertices(begin: Vertex2d, end: Vertex2d): (r: Vector2d)
    ensures r.X() == end.X() - begin.X() && r.Y() == end.Y() - begin.Y()
  {
    NewVector2dFromVertex(end.Subtracted(begin))
  }

  /** The 2D cross product is antisymmetric and zero for a vector with itself; the 2D dot product is symmetric. */
  lemma Products2dSymmetry(a: Vector2d, b: Vector2d)
    ensures a.Cross(b) == -b.Cross(a)
    ensures a.Cross(a) == 0.0
    ensures a.Dot(b) == b.Dot(a)
  {
  }

  /** A `*Vector2d`: the location the in-place operations update. */
  class Vector2dRef {
    var myCoords: Coords2d

    constructor (v: Vector2d)
      ensures Value() == v
    {
      myCoords := v.myCoords;
    }

    /** The Go value stored at this location. */
    function Value(): Vector2d
      reads this
    {
      Vector2d(myCoords)
    }

    /** `Subtract`: the coordinates decrease by the other's. */
    method Subtract(other: Vector2d)
      modifies this
      ensures Value() == old(Value()).Subtracted(other)
    {
      myCoords := myCoords.Subtracted(other.myCoords);
    }

    /** `Scale`: both coordinates are multiplied by `scalar`. */
    method Scale(scalar: real)
      modifies this
      ensures Value() == old(Value()).Scaled(scalar)
    {
      myCoords := myCoords.Scaled(scalar);
    }

    /** `Normalize`: divides by the length; a zero-length vector is left as it is. */
    method Normalize(sqrt: real -> real)
      modifies this
      ensures Value() == old(Value()).Normalized(sqrt)
      ensures old(Value()).Length(sqrt) == 0.0 ==> Value() == old(Value())
    {
      myCoords := myCoords.Normalized(sqrt);
    }
  }
}
