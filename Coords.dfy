/**
 * `geom/Coords2d.go` and `geom/Coords3d.go`: plain coordinate pairs and
 * triples. A Go `Coords2d` value is the datatype `Coords2d`; a Go
 * `*Coords2d`, the receiver of the in-place operations, is a `Coords2dRef`
 * object whose fields are updated.
 */
module GeomCoords {
  import opened RealMath

  /** `DefaultTolerance`: 1e-9, the absolute tolerance of every `Equals`. */
  const DEFAULT_TOLERANCE: real := 0.000000001

  /** A 2D coordinate pair. */
  datatype Coords2d = Coords2d(X: real, Y: real) {

    /** The square of the Euclidean length; `Length` is its square root. */
    function SquaredLength(): (r: real)
      ensures 0.0 <= r
    {
      SquareNonNegative(X);
      SquareNonNegative(Y);
      X * X + Y * Y
    }

    /** `Length`: the square root of `X*X + Y*Y`. */
    function Length(sqrt: real -> real): real {
      sqrt(SquaredLength())
    }

    /** `Subtracted`: the difference; adding `other` back gives this value. */
    function Subtracted(other: Coords2d): (r: Coords2d)
      ensures r.X + other.X == X && r.Y + other.Y == Y
    {
      Coords2d(X - other.X, Y - other.Y)
    }

    /** The value `Scale(s)` leaves behind. */
    function Scaled(s: real): Coords2d {
      Coords2d(X * s, Y * s)
    }

    /** The value `Normalize` leaves behind: unchanged when the length is exactly 0. */
    function Normalized(sqrt: real -> real): Coords2d {
      var length := Length(sqrt);
      if length == 0.0 then this else Scaled(1.0 / length)
    }

    /** `Distance`: the length of the difference. */
    function Distance(other: Coords2d, sqrt: real -> real): real {
      Subtracted(other).Length(sqrt)
    }

    /** `Equals`: the distance is below `DefaultTolerance`. */
    predicate Equals(other: Coords2d, sqrt: real -> real) {
      Distance(other, sqrt) < DEFAULT_TOLERANCE
    }
  }

  /** A 3D coordinate triple. */
  datatype Coords3d = Coords3d(X: real, Y: real, Z: real) {

    /** The square of the Euclidean length; `Length` is its square root. */
    function SquaredLength(): (r: real)
      ensures 0.0 <= r
    {
      SquareNonNegative(X);
      SquareNonNegative(Y);
      SquareNonNegative(Z);
      X * X + Y * Y + Z * Z
    }

    /** `Length`: the square root of `X*X + Y*Y + Z*Z`. */
    function Length(sqrt: real -> real): real {
      sqrt(SquaredLength())
    }

    /** `Subtracted`: the difference; adding `other` back gives this value. */
    function Subtracted(other: Coords3d): (r: Coords3d)
      ensures r.Added(other) == this
    {
      Coords3d(X - other.X, Y - other.Y, Z - other.Z)
    }

    /** The value `Add(other)` leaves behind; subtracting `other` again gives this value. */
    function Added(other: Coords3d): (r: Coords3d)
      ensures r.X - other.X == X && r.Y - other.Y == Y && r.Z - other.Z == Z
    {
      Coords3d(X + other.X, Y + other.Y, Z + other.Z)
    }

    /** The value `Scale(s)` leaves behind. */
    function Scaled(s: real): Coords3d {
      Coords3d(X * s, Y * s, Z * s)
    }

    /** The value `Normalize` leaves behind: unchanged when the length is exactly 0. */
    function Normalized(sqrt: real -> real): Coords3d {
      var length := Length(sqrt);
      if length == 0.0 then this else Scaled(1.0 / length)
    }

    /** `Distance`: the length of the difference. */
    function Distance(other: Coords3d, sqrt: real -> real): real {
      Subtracted(other).Length(sqrt)
    }

    /** `Equals`: every axis differs by less than `DefaultTolerance`. */
    predicate Equals(other: Coords3d) {
      Abs(X - other.X) < DEFAULT_TOLERANCE &&
      Abs(Y - other.Y) < DEFAULT_TOLERANCE &&
      Abs(Z - other.Z) < DEFAULT_TOLERANCE
    }
  }

  /** The 2D distance does not depend on the order of its arguments. */
  lemma Distance2dSymmetric(a: Coords2d, b: Coords2d, sqrt: real -> real)
    ensures a.Distance(b, sqrt) == b.Distance(a, sqrt)
  {
    var d, e := a.Subtracted(b), b.Subtracted(a);
    assert d.X == -e.X && d.Y == -e.Y;
    assert d.X * d.X == e.X * e.X && d.Y * d.Y == e.Y * e.Y;
    assert d.SquaredLength() == e.SquaredLength();
  }

  /** 2D `Equals` is symmetric, whatever the square root. */
  lemma Equals2dSymmetric(a: Coords2d, b: Coords2d, sqrt: real -> real)
    ensures a.Equals(b, sqrt) <==> b.Equals(a, sqrt)
  {
    Distance2dSymmetric(a, b, sqrt);
  }

  /** The 2D distance from a point to itself is zero once the square root of 0 is 0. */
  lemma Distance2dToItself(a: Coords2d, sqrt: real -> real)
    requires sqrt(0.0) == 0.0
    ensures a.Distance(a, sqrt) == 0.0
  {
    assert a.Subtracted(a) == Coords2d(0.0, 0.0);
  }

  /** 2D `Equals` is reflexive as soon as the square root of 0 is 0. */
  lemma Equals2dReflexive(a: Coords2d, sqrt: real -> real)
    requires sqrt(0.0) == 0.0
    ensures a.Equals(a, sqrt)
  {
    Distance2dToItself(a, sqrt);
  }

  /** The 3-4-5 triangle: the length of (3, 4) is 5. */
  lemma Length2dOfThreeFour(sqrt: real -> real)
    requires IsSqrt(sqrt)
    ensures Coords2d(3.0, 4.0).Length(sqrt) == 5.0
  {
    SqrtOfSquare(sqrt, 5.0);
  }

  /** (1, 2) does not equal (1, 2.000001): an offset of 1e-6 is far above the tolerance. */
  lemma Equals2dTolerance(sqrt: real -> real)
    requires IsSqrt(sqrt)
    ensures !Coords2d(1.0, 2.0).Equals(Coords2d(1.0, 2.000001), sqrt)
  {
    var d := Coords2d(1.0, 2.0).Subtracted(Coords2d(1.0, 2.000001));
    assert d == Coords2d(0.0, -0.000001);
    assert d.SquaredLength() == 0.000001 * 0.000001;
    SqrtOfSquare(sqrt, 0.000001);
  }

  /** 3D `Equals` is reflexive and symmetric. */
  lemma Equals3dReflexiveSymmetric(a: Coords3d, b: Coords3d)
    ensures a.Equals(a)
    ensures a.Equals(b) <==> b.Equals(a)
  {
    assert Abs(a.X - b.X) == Abs(b.X - a.X);
    assert Abs(a.Y - b.Y) == Abs(b.Y - a.Y);
    assert Abs(a.Z - b.Z) == Abs(b.Z - a.Z);
  }

  /** The 3D distance from a point to itself is zero once the square root of 0 is 0. */
  lemma Distance3dToItself(a: Coords3d, sqrt: real -> real)
    requires sqrt(0.0) == 0.0
    ensures a.Distance(a, sqrt) == 0.0
  {
    assert a.Subtracted(a) == Coords3d(0.0, 0.0, 0.0);
  }

  /** The 3D distance does not depend on the order of its arguments. */
  lemma Distance3dSymmetric(a: Coords3d, b: Coords3d, sqrt: real -> real)
    ensures a.Distance(b, sqrt) == b.Distance(a, sqrt)
  {
    var d, e := a.Subtracted(b), b.Subtracted(a);
    assert d.X == -e.X && d.Y == -e.Y && d.Z == -e.Z;
    assert d.X * d.X == e.X * e.X && d.Y * d.Y == e.Y * e.Y && d.Z * d.Z == e.Z * e.Z;
    assert d.SquaredLength() == e.SquaredLength();
  }

  /**
   * `Normalize` leaves a zero-length value unchanged, and otherwise scales it by
   * the positive factor `1 / length` when the square root is never negative, so
   * every coordinate keeps its sign.
   */
  lemma Normalized3dDirection(c: Coords3d, sqrt: real -> real)
    requires forall x :: 0.0 <= x ==> 0.0 <= sqrt(x)
    ensures c.Length(sqrt) == 0.0 ==> c.Normalized(sqrt) == c
    ensures c.Length(sqrt) != 0.0 ==> 0.0 < 1.0 / c.Length(sqrt) && c.Normalized(sqrt) == c.Scaled(1.0 / c.Length(sqrt))
  {
    var l := c.Length(sqrt);
    assert 0.0 <= l;
  }

  /** (0, 6, 8) normalizes to (0, 0.6, 0.8), and the zero triple to itself. */
  lemma Normalized3dExamples(sqrt: real -> real)
    requires IsSqrt(sqrt)
    ensures Coords3d(0.0, 6.0, 8.0).Normalized(sqrt) == Coords3d(0.0, 0.6, 0.8)
    ensures Coords3d(0.0, 0.0, 0.0).Normalized(sqrt) == Coords3d(0.0, 0.0, 0.0)
  {
    SqrtOfSquare(sqrt, 10.0);
    SqrtOfSquare(sqrt, 0.0);
  }

  /** A `*Coords2d`: the location the pointer-receiver methods update. */
  class Coords2dRef {
    var X: real
    var Y: real

    constructor (c: Coords2d)
      ensures Value() == c
    {
      X, Y := c.X, c.Y;
    }

    /** The Go value stored at this location. */
    function Value(): Coords2d
      reads this
    {
      Coords2d(X, Y)
    }

    /** `Subtract`: both fields decrease by the other's. */
    method Subtract(other: Coords2d)
      modifies this
      ensures X == old(X) - other.X && Y == old(Y) - other.Y
      ensures Value() == old(Value()).Subtracted(other)
    {
      X := X - other.X;
      Y := Y - other.Y;
    }

    /** `Subtracted`: copies the value, subtracts in the copy, returns the copy. */
    method Subtracted(other: Coords2d) returns (res: Coords2d)
      ensures res == Value().Subtracted(other)
    {
      var copy := new Coords2dRef(Value());
      copy.Subtract(other);
      res := copy.Value();
    }

    /** `Scale`: both fields are multiplied by `scalar`. */
    method Scale(scalar: real)
      modifies this
      ensures X == old(X) * scalar && Y == old(Y) * scalar
    {
      X := X * scalar;
      Y := Y * scalar;
    }

    /** `Normalize`: divides by the length, and does nothing when it is 0. */
    method Normalize(sqrt: real -> real)
      modifies this
      ensures Value() == old(Value()).Normalized(sqrt)
      ensures old(Value()).Length(sqrt) == 0.0 ==> Value() == old(Value())
    {
      var length := Value().Length(sqrt);
      if length == 0.0 {
        return;
      }
      Scale(1.0 / length);
    }
  }

  /** A `*Coords3d`: the location the pointer-receiver methods update. */
  class Coords3dRef {
    var X: real
    var Y: real
    var Z: real

    constructor (c: Coords3d)
      ensures Value() == c
    {
      X, Y, Z := c.X, c.Y, c.Z;
    }

    /** The Go value stored at this location. */
    function Value(): Coords3d
      reads this
    {
      Coords3d(X, Y, Z)
    }

    /** `Subtract`: each axis decreases by the other's. */
    method Subtract(other: Coords3d)
      modifies this
      ensures X == old(X) - other.X && Y == old(Y) - other.Y && Z == old(Z) - other.Z
      ensures Value() == old(Value()).Subtracted(other)
    {
      X := X - other.X;
      Y := Y - other.Y;
      Z := Z - other.Z;
    }

    /** `Add`: each axis increases by the other's. */
    method Add(other: Coords3d)
      modifies this
      ensures X == old(X) + other.X && Y == old(Y) + other.Y && Z == old(Z) + other.Z
      ensures Value() == old(Value()).Added(other)
    {
      X := X + other.X;
      Y := Y + other.Y;
      Z := Z + other.Z;
    }

    /** `Subtracted`: copies the value, subtracts in the copy, returns the copy. */
    method Subtracted(other: Coords3d) returns (res: Coords3d)
      ensures res == Value().Subtracted(other)
    {
      var copy := new Coords3dRef(Value());
      copy.Subtract(other);
      res := copy.Value();
    }

    /** `Scale`: each axis is multiplied by `scalar`. */
    method Scale(scalar: real)
      modifies this
      ensures X == old(X) * scalar && Y == old(Y) * scalar && Z == old(Z) * scalar
    {
      X := X * scalar;
      Y := Y * scalar;
      Z := Z * scalar;
    }

    /** `Normalize`: divides by the length, and does nothing when it is 0. */
    method Normalize(sqrt: real -> real)
      modifies this
      ensures Value() == old(Value()).Normalized(sqrt)
      ensures old(Value()).Length(sqrt) == 0.0 ==> Value() == old(Value())
    {
      var length := Value().Length(sqrt);
      if length == 0.0 {
        return;
      }
      Scale(1.0 / length);
    }
  }
}
