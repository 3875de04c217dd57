/**
 * The parts of Go's `math` package that the geometry relies on. Coordinates are
 * modelled as mathematical reals. `math.Sqrt`, `math.Acos`, `math.Sin` and
 * `math.Cos` are not defined here: the operations that call them take them as
 * function parameters, and the lemmas that need a property of the square root
 * state it with `IsSqrt`.
 */
module RealMath {

  /** The float64 value of Go's `math.Pi`. */
  const PI: real := 3.141592653589793

  /** `2 * math.Pi`, the period of the camera's polar angle. */
  const TWO_PI: real := 2.0 * PI

  /** The four abstract functions of Go's `math` package used by the core. */
  datatype MathLib = MathLib(sqrt: real -> real, acos: real -> real, sin: real -> real, cos: real -> real)

  /** `sqrt` is the non-negative square root on the non-negative reals. */
  ghost predicate IsSqrt(sqrt: real -> real) {
    forall x :: 0.0 <= x ==> 0.0 <= sqrt(x) && sqrt(x) * sqrt(x) == x
  }

  /** `math.Abs`. */
  function Abs(x: real): (r: real)
    ensures 0.0 <= r && (r == x || r == -x)
  {
    if x < 0.0 then -x else x
  }

  /** `math.Min`, without the NaN and signed-zero cases. */
  function Min(a: real, b: real): (r: real)
    ensures r <= a && r <= b && (r == a || r == b)
  {
    if a <= b then a else b
  }

  /** `math.Max`, without the NaN and signed-zero cases. */
  function Max(a: real, b: real): (r: real)
    ensures a <= r && b <= r && (r == a || r == b)
  {
    if a <= b then b else a
  }

  /** The integer part of `q`, rounded toward zero. */
  function Trunc(q: real): (t: int)
    ensures 0.0 <= q ==> t as real <= q < t as real + 1.0
    ensures q < 0.0 ==> t as real - 1.0 < q <= t as real
  {
    if 0.0 <= q then q.Floor else -((-q).Floor)
  }

  /**
   * `math.Round`: the nearest integer, halves rounded away from zero. The
   * result is within one half of `x` and has the sign of `x`.
   */
  function Round(x: real): (r: int)
    ensures x - 0.5 <= r as real <= x + 0.5
    ensures 0.0 <= x ==> 0 <= r && x - 0.5 < r as real
    ensures x < 0.0 ==> r <= 0 && r as real < x + 0.5
  {
    if 0.0 <= x then (x + 0.5).Floor else -((-x + 0.5).Floor)
  }

  /** True when `x` is an integer multiple of `m`. */
  ghost predicate IsMultipleOf(x: real, m: real)
    requires m != 0.0
  {
    (x / m).Floor as real == x / m
  }

  /**
   * Go's `math.Mod(x, y)` for `y > 0`: the remainder of the quotient truncated
   * toward zero, so its sign agrees with that of `x` and its magnitude is less than `y`.
   */
  function Mod(x: real, y: real): (r: real)
    requires 0.0 < y
    ensures 0.0 <= x ==> 0.0 <= r < y
    ensures x < 0.0 ==> -y < r <= 0.0
    ensures IsMultipleOf(x - r, y)
  {
    var t := Trunc(x / y);
    QuotientBounds(x, y, t);
    IntegerMultiple(t, y);
    assert x - (x - t as real * y) == t as real * y;
    x - t as real * y
  }

  /** Multiplying the truncation bounds of `x / y` by `y`. */
  lemma QuotientBounds(x: real, y: real, t: int)
    requires 0.0 < y && t == Trunc(x / y)
    ensures 0.0 <= x ==> 0.0 <= x - t as real * y < y
    ensures x < 0.0 ==> -y < x - t as real * y <= 0.0
  {
    var tr := t as real;
    DivMul(x, y);
    ShiftByOne(tr, y);
    if 0.0 <= x {
      ScaleBounds(x, y, tr, tr + 1.0);
    } else {
      ScaleBounds(x, y, tr - 1.0, tr);
    }
  }

  /** `lo <= x / y <= hi` scaled by a positive `y`. */
  lemma ScaleBounds(x: real, y: real, lo: real, hi: real)
    requires 0.0 < y && lo <= x / y <= hi
    ensures lo * y <= x <= hi * y
    ensures x / y < hi ==> x < hi * y
    ensures lo < x / y ==> lo * y < x
  {
    DivMul(x, y);
  }

  lemma IntegerMultiple(t: int, y: real)
    requires y != 0.0
    ensures IsMultipleOf(t as real * y, y)
  {
    MulDiv(t as real, y);
  }

  lemma DivMul(x: real, y: real)
    requires 0.0 < y
    ensures (x / y) * y == x
    ensures 0.0 <= x ==> 0.0 <= x / y
    ensures x < 0.0 ==> x / y < 0.0
  {
  }

  lemma MulDiv(x: real, y: real)
    requires y != 0.0
    ensures (x * y) / y == x
  {
  }

  lemma ShiftByOne(a: real, c: real)
    ensures (a + 1.0) * c == a * c + c && (a - 1.0) * c == a * c - c
  {
  }

  lemma SquareNonNegative(x: real)
    ensures 0.0 <= x * x
  {
  }

  lemma ZeroProduct(a: real, b: real)
    requires a * b == 0.0
    ensures a == 0.0 || b == 0.0
  {
  }

  lemma PositiveProduct(a: real, b: real)
    requires 0.0 < a && 0.0 < b
    ensures 0.0 < a * b
  {
  }

  /** The square root of the square of a non-negative number is that number. */
  lemma SqrtOfSquare(sqrt: real -> real, q: real)
    requires IsSqrt(sqrt)
    requires 0.0 <= q
    ensures sqrt(q * q) == q
  {
    var r := sqrt(q * q);
    assert 0.0 <= r && r * r == q * q by { SquareNonNegative(q); }
    assert (r - q) * (r + q) == r * r - q * q;
    ZeroProduct(r - q, r + q);
  }
}
