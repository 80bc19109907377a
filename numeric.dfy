/** Real-number helpers shared by all shapes: Python's math.sqrt, math.isclose, math.pi,
    abs and min over exact reals, and the errors the shapes raise. */
module Numeric {

  /** math.pi, as Python prints it. */
  const Pi: real := 3.141592653589793

  /** The default relative tolerance of math.isclose (1e-9); its absolute tolerance is 0. */
  const RelTol: real := 0.000000001

  /** The Python exceptions the shapes raise, with their messages. */
  datatype ShapeError = ValueError(message: string) | TypeError(message: string)

  /** A value, or the exception raised instead of producing it. */
  datatype Result<+T> = Success(value: T) | Failure(error: ShapeError)

  /** The outcome of a validation step that produces no value. */
  datatype Outcome = Pass | Fail(error: ShapeError)

  /** The right operand of a comparison operator: an instance of the receiver's
      class, or an object of some other class. */
  datatype Operand<+T> = Same(obj: T) | Foreign

  function Abs(x: real): (r: real)
    ensures r >= 0.0 && (r == x || r == -x)
  {
    if x < 0.0 then -x else x
  }

  /** Python's min of two numbers. */
  function Min(x: real, y: real): (r: real)
    ensures r <= x && r <= y && (r == x || r == y)
  {
    if y < x then y else x
  }

  /** The identity on reals; see Sq. */
  function Id(x: real): real {
    x
  }

  /** x ** 2. The second factor goes through Id so that the verifier's arithmetic sees a
      product of two terms rather than a power, which it reasons about far less reliably. */
  function Sq(x: real): real {
    x * Id(x)
  }

  /** r is what math.sqrt(x) returns for x >= 0: the non-negative square root. */
  predicate IsSqrt(x: real, r: real) {
    r >= 0.0 && Sq(r) == x
  }

  /** The message of the ValueError math.sqrt raises for a negative argument. */
  const DomainMessage := "math domain error"

  /** r is the outcome of math.sqrt(x): a ValueError for a negative argument,
      the non-negative root otherwise. */
  predicate SqrtOutcome(x: real, r: Result<real>) {
    if x < 0.0 then r == Failure(ValueError(DomainMessage))
    else r.Success? && IsSqrt(x, r.value)
  }

  /** math.isclose(x, y) with its defaults (rel_tol = 1e-9, abs_tol = 0), in the
      order CPython evaluates it. */
  predicate IsClose(x: real, y: real) {
    x == y
    || Abs(y - x) <= Abs(RelTol * y)
    || Abs(y - x) <= Abs(RelTol * x)
    || Abs(y - x) <= 0.0
  }

  /** A square root is determined by its argument, so a parameter standing for
      math.sqrt(x) is exactly the value math.sqrt returns. */
  lemma SqrtUnique(x: real, r: real, s: real)
    requires IsSqrt(x, r) && IsSqrt(x, s)
    ensures r == s
  {
    assert (r - s) * (r + s) == r * r - s * s == 0.0;
    if r + s == 0.0 {
      assert r == 0.0 && s == 0.0;
    } else {
      assert r - s == 0.0;
    }
  }

  /** sqrt(x) * sqrt(y) == sqrt(x * y). */
  lemma SqrtOfProduct(x: real, r: real, y: real, s: real)
    requires IsSqrt(x, r) && IsSqrt(y, s)
    ensures IsSqrt(x * y, r * s)
  {
    assert (r * s) * (r * s) == (r * r) * (s * s);
  }

  /** sqrt(1/k) == 1/sqrt(k): dividing in place by k scales lengths by the
      reciprocal of the factor multiplying by k would use. */
  lemma SqrtOfReciprocal(k: real, r: real)
    requires k > 0.0 && IsSqrt(k, r)
    ensures r > 0.0 && IsSqrt(1.0 / k, 1.0 / r)
  {
    assert r != 0.0;
    assert (1.0 / r) * (1.0 / r) == 1.0 / (r * r);
  }

  /** sqrt is strictly increasing. */
  lemma SqrtStrictlyIncreasing(x: real, r: real, y: real, s: real)
    requires IsSqrt(x, r) && IsSqrt(y, s)
    ensures x < y <==> r < s
  {
    if r < s {
      DifferenceOfSquares(r, s);
      PositiveProduct(s - r, s + r);
    } else if s < r {
      DifferenceOfSquares(s, r);
      PositiveProduct(r - s, r + s);
    }
  }

  /** sqrt(f² * x) == f * sqrt(x) for f > 0. */
  lemma SqrtOfScaledSquare(x: real, r: real, f: real)
    requires IsSqrt(x, r) && f > 0.0
    ensures IsSqrt(Sq(f) * x, f * r)
  {
    SquareOfProduct(f, r);
    NonNegativeProduct(f, r);
  }

  lemma IsCloseReflexive(x: real)
    ensures IsClose(x, x)
  {
  }

  lemma {:induction false} IsCloseSymmetric(x: real, y: real)
    ensures IsClose(x, y) <==> IsClose(y, x)
  {
    assert Abs(y - x) == Abs(x - y);
  }

  // Arithmetic facts the shapes use, one nonlinear step each.

  lemma SqrtPositive(k: real, root: real)
    requires k > 0.0 && IsSqrt(k, root)
    ensures root > 0.0
  {
  }

  lemma NonNegativeProduct(x: real, y: real)
    requires x >= 0.0 && y >= 0.0
    ensures x * y >= 0.0
  {
  }

  lemma SquareOfProduct(x: real, f: real)
    ensures Sq(x * f) == Sq(x) * Sq(f)
  {
  }

  lemma Distribute(x: real, y: real, z: real)
    ensures x * z + y * z == (x + y) * z
  {
  }

  lemma PositiveSquare(x: real)
    requires x != 0.0
    ensures Sq(x) > 0.0
  {
    if x > 0.0 {
      assert x * x > 0.0;
    } else {
      assert (-x) * (-x) > 0.0;
    }
  }

  lemma NonNegativeSquare(x: real)
    ensures Sq(x) >= 0.0
  {
    if x != 0.0 {
      PositiveSquare(x);
    }
  }

  lemma QuotientTimes(x: real, y: real)
    requires y != 0.0
    ensures (x / y) * y == x
  {
  }

  /** A term known to be x / y times y is x; called with the term itself, so that the
      product in the conclusion is the one the caller states. */
  lemma QuotientIs(r: real, x: real, y: real)
    requires y != 0.0 && r == x / y
    ensures r * y == x
  {
  }

  lemma QuotientPositive(x: real, y: real)
    requires x > 0.0 && y > 0.0
    ensures x / y > 0.0
  {
  }

  /** Dividing by a positive number keeps the sign. */
  lemma {:induction false} QuotientSign(x: real, y: real)
    requires y > 0.0
    ensures x / y < 0.0 <==> x < 0.0
    ensures x / y == 0.0 <==> x == 0.0
  {
    QuotientTimes(x, y);
    ScaledOrder(x / y, 0.0, y);
  }

  lemma PositiveProduct(x: real, y: real)
    requires x > 0.0 && y > 0.0
    ensures x * y > 0.0
  {
  }

  lemma DifferenceOfSquares(x: real, y: real)
    ensures Sq(y) - Sq(x) == (y - x) * (y + x)
  {
  }

  lemma ProductPositive(x: real, y: real, z: real)
    requires x > 0.0 && y > 0.0 && z > 0.0
    ensures x * y * z > 0.0
  {
    assert x * y > 0.0;
  }

  lemma SquareMonotone(x: real, y: real)
    requires 0.0 <= x <= y
    ensures Sq(x) <= Sq(y)
  {
    assert x * x <= x * y;
  }

  lemma SquareOfQuotient(x: real, y: real)
    requires y != 0.0
    ensures Sq(y) != 0.0 && Sq(x / y) == Sq(x) / Sq(y)
  {
    PositiveSquare(y);
    QuotientTimes(x, y);
    SquareOfProduct(x / y, y);
    QuotientOfProduct(Sq(x / y), Sq(y), Sq(x));
  }

  lemma QuotientOfProduct(u: real, w: real, x: real)
    requires w != 0.0 && u * w == x
    ensures u == x / w
  {
  }

  lemma SumOverCommon(x: real, y: real, z: real)
    requires z != 0.0
    ensures x / z + y / z == (x + y) / z
  {
  }

  lemma SelfQuotient(x: real, y: real)
    requires x == y && y != 0.0
    ensures x / y == 1.0
  {
  }

  /** Multiplying both sides of a comparison by g > 0 keeps it. */
  lemma ScaledOrder(u: real, v: real, g: real)
    requires g > 0.0
    ensures u * g > v * g <==> u > v
    ensures u * g < v * g <==> u < v
  {
    assert u * g - v * g == (u - v) * g;
  }
}
