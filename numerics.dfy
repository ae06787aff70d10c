/**
 * Numbers. Coordinates are modelled as mathematical reals, so rounding and
 * the tolerance helpers of the Java code become exact comparisons with zero.
 * Math.sqrt and Math.pow cannot be written down exactly, so the model takes
 * them as a parameter and states the laws it relies on.
 */
module Numerics {

  /** The two library functions the tracer calls, Math.sqrt and Math.pow. */
  datatype MathLib = MathLib(sqrt: real -> real, pow: (real, real) -> real)

  /** Math.sqrt. */
  function Sqrt(m: MathLib, x: real): real
  {
    m.sqrt(x)
  }

  /** Math.pow. */
  function Pow(m: MathLib, b: real, e: real): real
  {
    m.pow(b, e)
  }

  /** Math.sqrt is the non-negative square root on non-negative arguments,
    * and Math.pow of a non-negative base is non-negative. */
  ghost predicate Lawful(m: MathLib)
  {
    && (forall x: real {:trigger Sqrt(m, x)} :: 0.0 <= x ==> 0.0 <= Sqrt(m, x) && Sqrt(m, x) * Sqrt(m, x) == x)
    && (forall b: real, e: real {:trigger Pow(m, b, e)} :: 0.0 <= b ==> 0.0 <= Pow(m, b, e))
  }

  /** A double that may be Double.POSITIVE_INFINITY (the default bound of an
    * intersection query and the distance to a directional light). */
  datatype Extended = Finite(value: real) | Infinity
  {
    /** `this - t >= 0`, the bound test of the intersection queries. */
    predicate AtLeast(t: real) {
      Infinity? || value - t >= 0.0
    }
  }

  /** The Java double Double.MAX_VALUE, the initial "closest so far" distance. */
  const DOUBLE_MAX: real := 179769313486231570814527423731704356798070567525844996598917476803157260780028538760589558632766878171540458953514382464234321326889464182768467546703537516986049910576551282076245490090389328944075868508455133942304583236903222948165808559332123348274797826204144723168738177180919299881250404026184124858368.0

  lemma ProductZero(a: real, b: real)
    requires a * b == 0.0
    ensures a == 0.0 || b == 0.0
  {
  }

  lemma ProductPositive(a: real, b: real)
    requires 0.0 < a && 0.0 < b
    ensures 0.0 < a * b
  {
  }

  /** A square is never negative. */
  lemma SquareNonNegative(x: real)
    ensures 0.0 <= x * x
  {
  }

  /** A square is zero only at zero. */
  lemma SquareZero(x: real)
    requires x * x == 0.0
    ensures x == 0.0
  {
    ProductZero(x, x);
  }

  /** Math.sqrt of a positive number is positive. */
  lemma SqrtPositive(m: MathLib, x: real)
    requires Lawful(m) && 0.0 < x
    ensures 0.0 < Sqrt(m, x)
  {
  }

  /** Math.sqrt(0) == 0 and Math.sqrt(1) == 1. */
  lemma SqrtZeroOne(m: MathLib)
    requires Lawful(m)
    ensures Sqrt(m, 0.0) == 0.0 && Sqrt(m, 1.0) == 1.0
  {
    var r := Sqrt(m, 1.0);
    assert r * r == 1.0 && r >= 0.0;
    assert (r - 1.0) * (r + 1.0) == 0.0;
    ProductZero(r - 1.0, r + 1.0);
    SquareZero(Sqrt(m, 0.0));
  }

  /** Dividing a product by one of its non-zero factors gives the other. */
  lemma QuotientOfProduct(a: real, k: real)
    requires k != 0.0
    ensures a * k / k == a
  {
  }

  /** Two numbers with equal squares are equal or opposite. */
  lemma SquaresEqual(x: real, y: real)
    requires x * x == y * y
    ensures x == y || x == -y
  {
    assert (x - y) * (x + y) == 0.0;
    ProductZero(x - y, x + y);
  }

  /** Squaring is strictly increasing on the non-negative numbers. */
  lemma SquareMonotone(a: real, b: real)
    requires 0.0 <= a < b
    ensures a * a < b * b
  {
    assert b * b - a * a == (b - a) * (b + a);
    ProductPositive(b - a, b + a);
  }

  /** Math.sqrt of a square of a non-negative number gives the number back. */
  lemma SqrtOfSquare(m: MathLib, a: real)
    requires Lawful(m) && 0.0 <= a
    ensures Sqrt(m, a * a) == a
  {
    SquareNonNegative(a);
    SquaresEqual(Sqrt(m, a * a), a);
  }

  /** The law of Math.sqrt at one argument. */
  lemma SqrtLaw(m: MathLib, x: real)
    requires Lawful(m) && 0.0 <= x
    ensures 0.0 <= Sqrt(m, x) && Sqrt(m, x) * Sqrt(m, x) == x
  {
  }

  /** Squaring is increasing on the non-negative numbers. */
  lemma SquareMonotoneWeak(a: real, b: real)
    requires 0.0 <= a <= b
    ensures a * a <= b * b
  {
    if a < b {
      SquareMonotone(a, b);
    }
  }

  /** A number and its opposite have the same square. */
  lemma SquareOfEither(e: real, h: real)
    requires e == h || e == -h
    ensures e * e == h * h
  {
  }
}
