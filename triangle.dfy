/** The triangle hierarchy of shapes/triangle/triangle.py: an abstract Triangle with sides
    a, b, c and three concrete kinds. RightTriangle derives c from its two legs;
    AcuteTriangle and ObtuseTriangle validate their three sides in the constructor and
    compute their area with Heron's formula. */
module Triangles {
  import opened Numeric

  const InequalityMessage := "Sides must satisfy triangle inequality"
  const NotAcuteMessage := "All angles must be acute (less than 90 degrees)"
  const NotObtuseMessage := "Exactly one angle must be obtuse (greater than 90 degrees)"

  /** The three strict triangle inequalities the constructors check first. */
  predicate TriangleInequality(a: real, b: real, c: real) {
    a + b > c && a + c > b && b + c > a
  }

  /** All three angles are acute: each squared side is less than the sum of the other two. */
  predicate AllAcute(a: real, b: real, c: real) {
    SquaresExceed(a, b, c) && SquaresExceed(a, c, b) && SquaresExceed(b, c, a)
  }

  /** x² + y² > z²: the angle opposite z is acute. */
  predicate SquaresExceed(x: real, y: real, z: real) {
    Sq(x) + Sq(y) > Sq(z)
  }

  /** x² + y² < z²: the angle opposite z is obtuse. */
  predicate SquaresFallShort(x: real, y: real, z: real) {
    Sq(x) + Sq(y) < Sq(z)
  }

  /** obtuse_count: how many of the three strict "obtuse" comparisons hold. With positive
      sides it is at most one: two of the comparisons together would make a squared side
      negative. */
  function ObtuseCount(a: real, b: real, c: real): (n: nat)
    ensures a > 0.0 && b > 0.0 && c > 0.0 ==> n <= 1
  {
    var n := (if SquaresFallShort(a, b, c) then 1 else 0)
             + (if SquaresFallShort(a, c, b) then 1 else 0)
             + (if SquaresFallShort(b, c, a) then 1 else 0);
    if a > 0.0 && b > 0.0 && c > 0.0 then
      PositiveSquare(a);
      PositiveSquare(b);
      PositiveSquare(c);
      n
    else
      n
  }

  /** s(s-a)(s-b)(s-c) with s the semi-perimeter: the square of the area by Heron's formula. */
  function Radicand(a: real, b: real, c: real): real {
    var s := (a + b + c) / 2.0;
    s * (s - a) * (s - b) * (s - c)
  }

  /** AcuteTriangle's constructor checks: the triangle inequality first, then acuteness. */
  function AcuteCheck(a: real, b: real, c: real): (r: Outcome)
    ensures r == Pass <==> TriangleInequality(a, b, c) && AllAcute(a, b, c)
    ensures !TriangleInequality(a, b, c) ==> r == Fail(ValueError(InequalityMessage))
    ensures TriangleInequality(a, b, c) && !AllAcute(a, b, c) ==> r == Fail(ValueError(NotAcuteMessage))
  {
    if !TriangleInequality(a, b, c) then Fail(ValueError(InequalityMessage))
    else if !AllAcute(a, b, c) then Fail(ValueError(NotAcuteMessage))
    else Pass
  }

  /** ObtuseTriangle's constructor checks: the triangle inequality first, then exactly one
      obtuse comparison. */
  function ObtuseCheck(a: real, b: real, c: real): (r: Outcome)
    ensures r == Pass <==> TriangleInequality(a, b, c) && ObtuseCount(a, b, c) == 1
    ensures !TriangleInequality(a, b, c) ==> r == Fail(ValueError(InequalityMessage))
    ensures TriangleInequality(a, b, c) && ObtuseCount(a, b, c) != 1 ==> r == Fail(ValueError(NotObtuseMessage))
  {
    if !TriangleInequality(a, b, c) then Fail(ValueError(InequalityMessage))
    else if ObtuseCount(a, b, c) != 1 then Fail(ValueError(NotObtuseMessage))
    else Pass
  }

  /** The triangle inequality forces every side to be positive. */
  lemma TriangleSidesPositive(a: real, b: real, c: real)
    requires TriangleInequality(a, b, c)
    ensures a > 0.0 && b > 0.0 && c > 0.0
  {
  }

  /** For sides satisfying the triangle inequality Heron's radicand is strictly positive,
      so area() is positive and circumradius, altitudes and inradius are well defined. */
  lemma {:induction false} HeronRadicandPositive(a: real, b: real, c: real)
    requires TriangleInequality(a, b, c)
    ensures Radicand(a, b, c) > 0.0
  {
    var s := (a + b + c) / 2.0;
    assert s > 0.0 && s - a > 0.0 && s - b > 0.0 && s - c > 0.0;
    assert s * (s - a) > 0.0;
    assert s * (s - a) * (s - b) > 0.0;
  }

  /** So ObtuseTriangle rejects a genuine triangle exactly when none of the three strict
      comparisons holds (the right and the acute triangles). */
  lemma ObtuseRejectsExactlyNone(a: real, b: real, c: real)
    requires TriangleInequality(a, b, c)
    ensures ObtuseCheck(a, b, c) != Pass <==>
      !(SquaresFallShort(a, b, c) || SquaresFallShort(a, c, b) || SquaresFallShort(b, c, a))
  {
    TriangleSidesPositive(a, b, c);
  }

  /** Scaling all sides by one positive factor keeps the triangle inequality... */
  lemma ScalingPreservesInequality(a: real, b: real, c: real, f: real)
    requires f > 0.0
    ensures TriangleInequality(a * f, b * f, c * f) <==> TriangleInequality(a, b, c)
  {
    ScaledSumCompare(a, b, c, f);
    ScaledSumCompare(a, c, b, f);
    ScaledSumCompare(b, c, a, f);
  }

  /** ...the acute classification... */
  lemma ScalingPreservesAcute(a: real, b: real, c: real, f: real)
    requires f > 0.0
    ensures AllAcute(a * f, b * f, c * f) <==> AllAcute(a, b, c)
  {
    ScaledPythagoreanCompare(a, b, c, f);
    ScaledPythagoreanCompare(a, c, b, f);
    ScaledPythagoreanCompare(b, c, a, f);
  }

  /** ...and the obtuse count. */
  lemma ScalingPreservesObtuseCount(a: real, b: real, c: real, f: real)
    requires f > 0.0
    ensures ObtuseCount(a * f, b * f, c * f) == ObtuseCount(a, b, c)
  {
    ScaledPythagoreanCompare(a, b, c, f);
    ScaledPythagoreanCompare(a, c, b, f);
    ScaledPythagoreanCompare(b, c, a, f);
  }

  /** Comparing x² + y² with z² is unchanged when x, y and z are scaled by f > 0. */
  lemma ScaledPythagoreanCompare(x: real, y: real, z: real, f: real)
    requires f > 0.0
    ensures SquaresExceed(x * f, y * f, z * f) <==> SquaresExceed(x, y, z)
    ensures SquaresFallShort(x * f, y * f, z * f) <==> SquaresFallShort(x, y, z)
  {
    SquareOfProduct(x, f);
    SquareOfProduct(y, f);
    SquareOfProduct(z, f);
    Distribute(Sq(x), Sq(y), Sq(f));
    PositiveSquare(f);
    ScaledOrder(Sq(x) + Sq(y), Sq(z), Sq(f));
  }

  /** Comparing x + y with z is unchanged when x, y and z are scaled by f > 0. */
  lemma ScaledSumCompare(x: real, y: real, z: real, f: real)
    requires f > 0.0
    ensures x * f + y * f > z * f <==> x + y > z
  {
  }

  /** Heron's radicand is homogeneous of degree four: scaling the sides by f scales the
      squared area by f^4, so the area by f^2. */
  lemma {:induction false} RadicandScales(a: real, b: real, c: real, f: real)
    ensures Radicand(a * f, b * f, c * f) == (f * f) * (f * f) * Radicand(a, b, c)
  {
    var s := (a + b + c) / 2.0;
    var t := (f * a + f * b + f * c) / 2.0;
    assert t == f * s;
    assert t - f * a == f * (s - a);
    assert t - f * b == f * (s - b);
    assert t - f * c == f * (s - c);
    calc {
      t * (t - f * a) * (t - f * b) * (t - f * c);
      (f * s) * (f * (s - a)) * (f * (s - b)) * (f * (s - c));
      (f * f) * (f * f) * (s * (s - a) * (s - b) * (s - c));
    }
  }

  /** For a right triangle Heron's formula gives the square of ½ab: the two area formulas agree. */
  lemma {:induction false} RightHeron(a: real, b: real, c: real)
    requires Sq(c) == Sq(a) + Sq(b)
    ensures Radicand(a, b, c) == Sq(0.5 * a * b)
  {
    var s := (a + b + c) / 2.0;
    assert (a + b + c) * (a + b - c) == (a + b) * (a + b) - c * c == 2.0 * a * b;
    assert (b + c - a) * (a - b + c) == c * c - (a - b) * (a - b) == 2.0 * a * b;
    calc {
      s * (s - a) * (s - b) * (s - c);
      ((a + b + c) * (a + b - c)) * ((b + c - a) * (a - b + c)) / 16.0;
      (2.0 * a * b) * (2.0 * a * b) / 16.0;
    }
  }

  /** With non-negative legs ½ab is the root math.sqrt returns for Heron's radicand, so
      Heron's formula and ½ab give the same area; a negative leg makes ½ab negative. */
  lemma {:induction false} RightHeronRoot(a: real, b: real, c: real)
    requires Sq(c) == Sq(a) + Sq(b) && a >= 0.0 && b >= 0.0
    ensures IsSqrt(Radicand(a, b, c), 0.5 * a * b)
  {
    RightHeron(a, b, c);
    NonNegativeProduct(0.5 * a, b);
  }

  /** The three concrete subclasses of the abstract Triangle. */
  datatype Kind = RightTriangle | AcuteTriangle | ObtuseTriangle

  function KindName(k: Kind): string {
    match k
    case RightTriangle => "RightTriangle"
    case AcuteTriangle => "AcuteTriangle"
    case ObtuseTriangle => "ObtuseTriangle"
  }

  /** The TypeError a concrete subclass raises when compared with anything but its own kind. */
  function MismatchError(k: Kind): ShapeError {
    TypeError("Can only compare " + KindName(k) + " with another " + KindName(k))
  }

  /** What each kind's constructor establishes about its sides: the hypotenuse of a right
      triangle is the root of a² + b²; the other kinds passed their validation. */
  predicate Shaped(k: Kind, a: real, b: real, c: real) {
    match k
    case RightTriangle => IsSqrt(Sq(a) + Sq(b), c)
    case AcuteTriangle => TriangleInequality(a, b, c) && AllAcute(a, b, c)
    case ObtuseTriangle => TriangleInequality(a, b, c) && ObtuseCount(a, b, c) == 1
  }

  /** `heron` stands for math.sqrt of Heron's radicand wherever the kind's area uses it. */
  predicate HeronRootOf(k: Kind, a: real, b: real, c: real, heron: real) {
    k != RightTriangle ==> IsSqrt(Radicand(a, b, c), heron)
  }

  /** area(): ½ab for a right triangle, Heron's formula for the other kinds; an acute or
      obtuse triangle has positive area. */
  function AreaOf(k: Kind, a: real, b: real, c: real, heron: real): (r: real)
    requires Shaped(k, a, b, c) && HeronRootOf(k, a, b, c, heron)
    ensures k != RightTriangle ==> r > 0.0
  {
    if k == RightTriangle then
      0.5 * a * b
    else
      HeronRadicandPositive(a, b, c);
      heron
  }

  /** The two area formulas agree: every kind's area squares to Heron's radicand. */
  lemma AreaSquaresToRadicand(k: Kind, a: real, b: real, c: real, heron: real)
    requires Shaped(k, a, b, c) && HeronRootOf(k, a, b, c, heron)
    ensures Sq(AreaOf(k, a, b, c, heron)) == Radicand(a, b, c)
  {
    if k == RightTriangle {
      RightHeron(a, b, c);
    }
  }

  /** Multiplying the sides by f > 0 keeps every kind's constructor invariant. */
  lemma ScalingPreservesShape(k: Kind, a: real, b: real, c: real, f: real)
    requires Shaped(k, a, b, c) && f > 0.0
    ensures Shaped(k, a * f, b * f, c * f)
  {
    match k
    case RightTriangle =>
      RightScaledShape(a, b, c, f);
    case AcuteTriangle =>
      ScalingPreservesInequality(a, b, c, f);
      ScalingPreservesAcute(a, b, c, f);
    case ObtuseTriangle =>
      ScalingPreservesInequality(a, b, c, f);
      ScalingPreservesObtuseCount(a, b, c, f);
  }

  /** Multiplying the sides by sqrt(m) keeps the kind's invariant, turns m * heron into the
      root of the new radicand and multiplies the area by exactly m. */
  lemma AreaScales(k: Kind, a: real, b: real, c: real, m: real, root: real, heron: real)
    requires Shaped(k, a, b, c) && HeronRootOf(k, a, b, c, heron)
    requires m > 0.0 && IsSqrt(m, root)
    ensures Shaped(k, a * root, b * root, c * root)
    ensures HeronRootOf(k, a * root, b * root, c * root, m * heron)
    ensures AreaOf(k, a * root, b * root, c * root, m * heron) == m * AreaOf(k, a, b, c, heron)
  {
    SqrtPositive(m, root);
    ScalingPreservesShape(k, a, b, c, root);
    if k == RightTriangle {
      ProductScales(a, b, root);
    } else {
      HeronRootScales(a, b, c, m, root, heron);
    }
  }

  lemma HeronRootScales(a: real, b: real, c: real, m: real, root: real, heron: real)
    requires IsSqrt(Radicand(a, b, c), heron) && m > 0.0 && IsSqrt(m, root)
    ensures IsSqrt(Radicand(a * root, b * root, c * root), m * heron)
  {
    RadicandScales(a, b, c, root);
    SqrtOfScaledSquare(Radicand(a, b, c), heron, m);
  }

  lemma RightScaledShape(a: real, b: real, c: real, f: real)
    requires IsSqrt(Sq(a) + Sq(b), c) && f > 0.0
    ensures IsSqrt(Sq(a * f) + Sq(b * f), c * f)
  {
    SquareOfProduct(a, f);
    SquareOfProduct(b, f);
    SquareOfProduct(c, f);
    Distribute(Sq(a), Sq(b), Sq(f));
    NonNegativeProduct(c, f);
  }

  lemma ProductScales(a: real, b: real, f: real)
    ensures 0.5 * (a * f) * (b * f) == Sq(f) * (0.5 * a * b)
  {
  }

  /** For a right triangle the inradius ½ab / ½(a + b + c) is (a + b - c) / 2. */
  lemma {:induction false} RightInradius(a: real, b: real, c: real, area: real, half: real)
    requires Sq(c) == Sq(a) + Sq(b) && area == 0.5 * a * b
    requires half == 0.5 * (a + b + c) && half != 0.0
    ensures 2.0 * (area / half) == a + b - c
  {
    var p := a + b + c;
    var q := area / half;
    assert (a + b - c) * p == 2.0 * a * b;
    assert q * (0.5 * p) == 0.5 * a * b;
    assert (2.0 * q) * p == (a + b - c) * p;
  }

  /** For a right triangle half the hypotenuse is abc / (4 * area). */
  lemma RightCircumradius(a: real, b: real, c: real, area: real)
    requires area == 0.5 * a * b
    ensures (c / 2.0) * (4.0 * area) == a * b * c
  {
  }

  /** A hypotenuse is longer than either positive leg. */
  lemma LegShorterThanHypotenuse(a: real, b: real, c: real)
    requires IsSqrt(Sq(a) + Sq(b), c) && a > 0.0 && b > 0.0
    ensures c > b
  {
    if c <= b {
      SquareMonotone(c, b);
      PositiveSquare(a);
      assert false;
    }
  }

  lemma QuotientBelow(a: real, b: real, c: real)
    requires a > 0.0 && b > 0.0 && c > b
    ensures 0.0 < (a * b) / c < a
  {
  }

  /** The altitude ab / c to the hypotenuse of a right triangle is shorter than both legs. */
  lemma RightAltitudeBounds(a: real, b: real, c: real)
    requires IsSqrt(Sq(a) + Sq(b), c) && a > 0.0 && b > 0.0
    ensures 0.0 < (a * b) / c < a && (a * b) / c < b
  {
    LegShorterThanHypotenuse(a, b, c);
    LegShorterThanHypotenuse(b, a, c);
    QuotientBelow(a, b, c);
    QuotientBelow(b, a, c);
  }

  /** The inradius r = area / half, half being the semi-perimeter: r * half is the area; it is
      positive for an acute or obtuse triangle and (a + b - c) / 2 for a right one. */
  lemma {:induction false} InradiusFacts(k: Kind, a: real, b: real, c: real, heron: real,
                                         area: real, half: real, r: real)
    requires Shaped(k, a, b, c) && HeronRootOf(k, a, b, c, heron)
    requires area == AreaOf(k, a, b, c, heron) && half == 0.5 * (a + b + c) && half != 0.0
    requires r == area / half
    ensures r * half == area
    ensures k != RightTriangle ==> r > 0.0
    ensures k == RightTriangle ==> 2.0 * r == a + b - c
  {
    QuotientIs(r, area, half);
    if k == RightTriangle {
      RightInradius(a, b, c, area, half);
    } else {
      TriangleSidesPositive(a, b, c);
      QuotientPositive(area, half);
    }
  }

  /** The circumradius r (c / 2 for a right triangle, abc / (4 * area) otherwise) satisfies
      r * 4 * area == abc, and is positive for an acute or obtuse triangle. */
  lemma {:induction false} CircumradiusFacts(k: Kind, a: real, b: real, c: real, heron: real,
                                             area: real, r: real)
    requires Shaped(k, a, b, c) && HeronRootOf(k, a, b, c, heron)
    requires area == AreaOf(k, a, b, c, heron)
    requires r == if k == RightTriangle then c / 2.0 else (a * b * c) / (4.0 * area)
    ensures r * (4.0 * area) == a * b * c
    ensures k != RightTriangle ==> r > 0.0
  {
    if k == RightTriangle {
      RightCircumradius(a, b, c, area);
    } else {
      TriangleSidesPositive(a, b, c);
      ProductPositive(a, b, c);
      QuotientIs(r, a * b * c, 4.0 * area);
      QuotientPositive(a * b * c, 4.0 * area);
    }
  }

  /** The altitudes 2 * area / side of a triangle with positive sides and area are positive,
      and each times its side is twice the area. */
  lemma {:induction false} AltitudeFacts(a: real, b: real, c: real, area: real,
                                         ha: real, hb: real, hc: real)
    requires TriangleInequality(a, b, c) && area > 0.0
    requires ha == 2.0 * area / a && hb == 2.0 * area / b && hc == 2.0 * area / c
    ensures ha > 0.0 && ha * a == 2.0 * area
    ensures hb > 0.0 && hb * b == 2.0 * area
    ensures hc > 0.0 && hc * c == 2.0 * area
  {
    TriangleSidesPositive(a, b, c);
    QuotientIs(ha, 2.0 * area, a);
    QuotientIs(hb, 2.0 * area, b);
    QuotientIs(hc, 2.0 * area, c);
    QuotientPositive(2.0 * area, a);
    QuotientPositive(2.0 * area, b);
    QuotientPositive(2.0 * area, c);
  }

  /** The altitude h = ab / c to the hypotenuse: h * c == ab, twice the area, and with
      positive legs it is shorter than either leg. */
  lemma {:induction false} HypotenuseAltitude(a: real, b: real, c: real, h: real)
    requires IsSqrt(Sq(a) + Sq(b), c) && c != 0.0 && h == (a * b) / c
    ensures h * c == a * b
    ensures a > 0.0 && b > 0.0 ==> 0.0 < h < a && h < b
  {
    QuotientIs(h, a * b, c);
    if a > 0.0 && b > 0.0 {
      RightAltitudeBounds(a, b, c);
    }
  }

  /** The ratios of a right triangle with non-zero legs: sin² + cos² == 1, tan is sin over
      cos, and sec, csc and cot are the reciprocals of cos, sin and tan. */
  lemma {:induction false} RatioIdentities(a: real, b: real, c: real)
    requires Sq(c) == Sq(a) + Sq(b) && a != 0.0 && b != 0.0
    ensures c != 0.0
    ensures Sq(a / c) + Sq(b / c) == 1.0
    ensures a / b == (a / c) / (b / c)
    ensures (c / b) * (b / c) == 1.0 && (c / a) * (a / c) == 1.0 && (b / a) * (a / b) == 1.0
  {
    HypotenuseNonZero(a, b, c);
    UnitRatios(a, b, c);
    RatioOfRatios(a, b, c);
    ReciprocalRatio(c, b);
    ReciprocalRatio(c, a);
    ReciprocalRatio(b, a);
  }

  lemma HypotenuseNonZero(a: real, b: real, c: real)
    requires Sq(c) == Sq(a) + Sq(b) && a != 0.0
    ensures c != 0.0
  {
    PositiveSquare(a);
    NonNegativeSquare(b);
  }

  /** sin² + cos² == 1. */
  lemma {:induction false} UnitRatios(a: real, b: real, c: real)
    requires Sq(c) == Sq(a) + Sq(b) && c != 0.0
    ensures Sq(a / c) + Sq(b / c) == 1.0
  {
    SquareOfQuotient(a, c);
    SquareOfQuotient(b, c);
    SumOverCommon(Sq(a), Sq(b), Sq(c));
    SelfQuotient(Sq(a) + Sq(b), Sq(c));
  }

  lemma RatioOfRatios(a: real, b: real, c: real)
    requires b != 0.0 && c != 0.0
    ensures a / b == (a / c) / (b / c)
  {
  }

  lemma ReciprocalRatio(x: real, y: real)
    requires x != 0.0 && y != 0.0
    ensures (x / y) * (y / x) == 1.0
  {
  }

  /** A triangle with sides a, b and c. Every object is one of the three concrete kinds;
      `kind` selects the overriding methods, as Python's dynamic dispatch does. */
  class Triangle {
    const kind: Kind
    var a: real
    var b: real
    var c: real

    /** The constructor's invariant, which scaling must keep. */
    ghost predicate Valid()
      reads this
    {
      Shaped(kind, a, b, c)
    }

    /** `heron` is what math.sqrt returns for this triangle's Heron radicand (a right
        triangle ignores it). */
    ghost predicate HeronRoot(heron: real)
      reads this
    {
      HeronRootOf(kind, a, b, c, heron)
    }

    /** RightTriangle(a, b), where `hypotenuse` is what math.sqrt(a**2 + b**2) returns.
        The legs themselves are not checked. */
    constructor Right(a: real, b: real, hypotenuse: real)
      requires IsSqrt(Sq(a) + Sq(b), hypotenuse)
      ensures kind == RightTriangle && this.a == a && this.b == b && c == hypotenuse
      ensures Valid()
    {
      kind := RightTriangle;
      this.a, this.b, c := a, b, hypotenuse;
    }

    /** The field assignments of AcuteTriangle(a, b, c), reached only after both checks. */
    constructor Acute(a: real, b: real, c: real)
      requires AcuteCheck(a, b, c) == Pass
      ensures kind == AcuteTriangle && this.a == a && this.b == b && this.c == c
      ensures Valid()
    {
      kind := AcuteTriangle;
      this.a, this.b, this.c := a, b, c;
    }

    /** The field assignments of ObtuseTriangle(a, b, c), reached only after both checks. */
    constructor Obtuse(a: real, b: real, c: real)
      requires ObtuseCheck(a, b, c) == Pass
      ensures kind == ObtuseTriangle && this.a == a && this.b == b && this.c == c
      ensures Valid()
    {
      kind := ObtuseTriangle;
      this.a, this.b, this.c := a, b, c;
    }

    /** AcuteTriangle(a, b, c): raises the first failing check's ValueError and allocates
        nothing unless both checks pass. */
    static method NewAcute(a: real, b: real, c: real) returns (r: Result<Triangle>)
      ensures r.Success? <==> AcuteCheck(a, b, c) == Pass
      ensures r.Failure? ==> r.error == AcuteCheck(a, b, c).error
      ensures r.Success? ==> fresh(r.value) && r.value.kind == AcuteTriangle && r.value.Valid()
      ensures r.Success? ==> r.value.a == a && r.value.b == b && r.value.c == c
    {
      var check := AcuteCheck(a, b, c);
      if check.Fail? {
        return Failure(check.error);
      }
      var t := new Triangle.Acute(a, b, c);
      return Success(t);
    }

    /** ObtuseTriangle(a, b, c), likewise. */
    static method NewObtuse(a: real, b: real, c: real) returns (r: Result<Triangle>)
      ensures r.Success? <==> ObtuseCheck(a, b, c) == Pass
      ensures r.Failure? ==> r.error == ObtuseCheck(a, b, c).error
      ensures r.Success? ==> fresh(r.value) && r.value.kind == ObtuseTriangle && r.value.Valid()
      ensures r.Success? ==> r.value.a == a && r.value.b == b && r.value.c == c
    {
      var check := ObtuseCheck(a, b, c);
      if check.Fail? {
        return Failure(check.error);
      }
      var t := new Triangle.Obtuse(a, b, c);
      return Success(t);
    }

    /** perimeter(): positive for an acute or obtuse triangle. */
    function Perimeter(): (r: real)
      reads this
      requires Valid()
      ensures kind != RightTriangle ==> r > 0.0
    {
      if kind != RightTriangle then TriangleSidesPositive(a, b, c); a + b + c
      else a + b + c
    }

    function HeronRadicand(): real
      reads this
    {
      Radicand(a, b, c)
    }

    /** area() of each kind. */
    function Area(heron: real): (r: real)
      reads this
      requires Valid() && HeronRoot(heron)
      ensures kind != RightTriangle ==> r > 0.0
    {
      AreaOf(kind, a, b, c, heron)
    }

    /** inradius(): the area over the semi-perimeter. */
    function Inradius(heron: real): real
      reads this
      requires Valid() && HeronRoot(heron) && Perimeter() != 0.0
    {
      Area(heron) / (0.5 * Perimeter())
    }

    /** The inradius of an acute or obtuse triangle is positive, and that of a right
        triangle has the closed form (a + b - c) / 2. */
    lemma InradiusProperties(heron: real)
      requires Valid() && HeronRoot(heron) && Perimeter() != 0.0
      ensures kind != RightTriangle ==> Inradius(heron) > 0.0
      ensures kind == RightTriangle ==> 2.0 * Inradius(heron) == a + b - c
    {
      InradiusFacts(kind, a, b, c, heron, Area(heron), 0.5 * Perimeter(), Inradius(heron));
    }

    /** circumradius(): half the hypotenuse for a right triangle, abc / (4 * area) for the
        other kinds. */
    function Circumradius(heron: real): real
      reads this
      requires Valid() && HeronRoot(heron)
    {
      if kind == RightTriangle then c / 2.0
      else (a * b * c) / (4.0 * Area(heron))
    }

    /** The circumradius of an acute or obtuse triangle is positive. */
    lemma CircumradiusProperties(heron: real)
      requires Valid() && HeronRoot(heron)
      ensures kind != RightTriangle ==> Circumradius(heron) > 0.0
    {
      CircumradiusFacts(kind, a, b, c, heron, Area(heron), Circumradius(heron));
    }

    /** altitude_a() of an acute or obtuse triangle: 2 * area / a. */
    function AltitudeA(heron: real): real
      reads this
      requires Valid() && HeronRoot(heron) && kind != RightTriangle
    {
      TriangleSidesPositive(a, b, c);
      2.0 * Area(heron) / a
    }

    /** altitude_b(): 2 * area / b. */
    function AltitudeB(heron: real): real
      reads this
      requires Valid() && HeronRoot(heron) && kind != RightTriangle
    {
      TriangleSidesPositive(a, b, c);
      2.0 * Area(heron) / b
    }

    /** altitude_c(): 2 * area / c. */
    function AltitudeC(heron: real): real
      reads this
      requires Valid() && HeronRoot(heron) && kind != RightTriangle
    {
      TriangleSidesPositive(a, b, c);
      2.0 * Area(heron) / c
    }

    /** Each altitude of an acute or obtuse triangle is positive. */
    lemma AltitudeProperties(heron: real)
      requires Valid() && HeronRoot(heron) && kind != RightTriangle
      ensures AltitudeA(heron) > 0.0 && AltitudeB(heron) > 0.0 && AltitudeC(heron) > 0.0
    {
      AltitudeFacts(a, b, c, Area(heron), AltitudeA(heron), AltitudeB(heron), AltitudeC(heron));
    }

    /** altitude() of a right triangle: ab / c, the altitude to the hypotenuse. */
    function Altitude(): real
      reads this
      requires Valid() && kind == RightTriangle && c != 0.0
    {
      (a * b) / c
    }

    /** With positive legs the altitude to the hypotenuse is shorter than either leg. */
    lemma AltitudeToHypotenuse()
      requires Valid() && kind == RightTriangle && c != 0.0
      ensures a > 0.0 && b > 0.0 ==> 0.0 < Altitude() < a && Altitude() < b
    {
      HypotenuseAltitude(a, b, c, Altitude());
    }

    /** sin(): opposite (a) over hypotenuse. */
    function Sin(): real
      reads this
      requires kind == RightTriangle && c != 0.0
    {
      a / c
    }

    /** cos(): adjacent (b) over hypotenuse. */
    function Cos(): real
      reads this
      requires kind == RightTriangle && c != 0.0
    {
      b / c
    }

    /** tan(): opposite over adjacent. */
    function Tan(): real
      reads this
      requires kind == RightTriangle && b != 0.0
    {
      a / b
    }

    /** sec(): hypotenuse over adjacent. */
    function Sec(): real
      reads this
      requires kind == RightTriangle && b != 0.0
    {
      c / b
    }

    /** cot(): adjacent over opposite. */
    function Cot(): real
      reads this
      requires kind == RightTriangle && a != 0.0
    {
      b / a
    }

    /** csc(): hypotenuse over opposite. */
    function Csc(): real
      reads this
      requires kind == RightTriangle && a != 0.0
    {
      c / a
    }

    /** The ratios of a right triangle with non-zero legs obey the Pythagorean identity, and
        sec, csc and cot are the reciprocals of cos, sin and tan. */
    lemma TrigIdentities()
      requires Valid() && kind == RightTriangle && a != 0.0 && b != 0.0
      ensures c != 0.0
      ensures Sq(Sin()) + Sq(Cos()) == 1.0
      ensures Tan() == Sin() / Cos()
      ensures Sec() * Cos() == 1.0 && Csc() * Sin() == 1.0 && Cot() * Tan() == 1.0
    {
      RatioIdentities(a, b, c);
    }

    /** __imul__: multiplies every side by sqrt(k) (`root`), so the area is multiplied by
        exactly k. Nothing is re-validated, yet the kind's invariant still holds. `heron` is
        the root of the radicand before scaling; k * heron is the root after. The scale
        itself is ghost: the method computes with its square root only. */
    method MulAssign(ghost k: real, root: real, ghost heron: real)
      requires Valid() && HeronRoot(heron) && k > 0.0 && IsSqrt(k, root)
      modifies this
      ensures Valid() && HeronRootOf(kind, a, b, c, k * heron)
      ensures a == old(a) * root && b == old(b) * root && c == old(c) * root
      ensures AreaOf(kind, a, b, c, k * heron) == k * AreaOf(kind, old(a), old(b), old(c), heron)
    {
      var a1, b1, c1 := a * root, b * root, c * root;
      AreaScales(kind, a, b, c, k, root, heron);
      a, b, c := a1, b1, c1;
    }

    /** __itruediv__: self *= 1 / k, where `inv` stands for the reciprocal 1 / k and `root`
        for its square root; the area is multiplied by inv, that is divided by k. */
    method DivAssign(k: real, root: real, ghost inv: real, ghost heron: real)
      requires Valid() && HeronRoot(heron) && k > 0.0 && inv == 1.0 / k && IsSqrt(inv, root)
      modifies this
      ensures Valid() && HeronRootOf(kind, a, b, c, inv * heron)
      ensures a == old(a) * root && b == old(b) * root && c == old(c) * root
      ensures AreaOf(kind, a, b, c, inv * heron) == inv * AreaOf(kind, old(a), old(b), old(c), heron)
    {
      MulAssign(inv, root, heron);
    }

    /** A new triangle of the same kind with the same sides, as the constructor call in
        __mul__ and __truediv__ makes it. RightTriangle(a, b) recomputes the hypotenuse,
        which is c again because the square root is unique. */
    method Copy() returns (t: Triangle)
      requires Valid()
      ensures fresh(t) && t.kind == kind && t.Valid()
      ensures t.a == a && t.b == b && t.c == c
    {
      if kind == RightTriangle {
        t := new Triangle.Right(a, b, c);
      } else if kind == AcuteTriangle {
        t := new Triangle.Acute(a, b, c);
      } else {
        t := new Triangle.Obtuse(a, b, c);
      }
    }

    /** __mul__: a scaled copy; the receiver is left unchanged. */
    method Mul(k: real, root: real, ghost heron: real) returns (t: Triangle)
      requires Valid() && HeronRoot(heron) && k > 0.0 && IsSqrt(k, root)
      ensures fresh(t) && t.kind == kind && t.Valid() && HeronRootOf(kind, t.a, t.b, t.c, k * heron)
      ensures t.a == a * root && t.b == b * root && t.c == c * root
      ensures AreaOf(kind, t.a, t.b, t.c, k * heron) == k * AreaOf(kind, a, b, c, heron)
    {
      t := Copy();
      t.MulAssign(k, root, heron);
    }

    /** __truediv__: a copy scaled down by k; the receiver is left unchanged. */
    method Div(k: real, root: real, ghost inv: real, ghost heron: real) returns (t: Triangle)
      requires Valid() && HeronRoot(heron) && k > 0.0 && inv == 1.0 / k && IsSqrt(inv, root)
      ensures fresh(t) && t.kind == kind && t.Valid() && HeronRootOf(kind, t.a, t.b, t.c, inv * heron)
      ensures t.a == a * root && t.b == b * root && t.c == c * root
      ensures AreaOf(kind, t.a, t.b, t.c, inv * heron) == inv * AreaOf(kind, a, b, c, heron)
    {
      t := Copy();
      t.DivAssign(k, root, inv, heron);
    }

    /** __eq__: a TypeError unless the other operand is of the same concrete kind, otherwise
        math.isclose on a, b and c. */
    function Equals(other: Operand<Triangle>): (r: Result<bool>)
      reads this, if other.Same? then {other.obj} else {}
      ensures r.Failure? <==> other.Foreign? || other.obj.kind != kind
      ensures r.Failure? ==> r.error == MismatchError(kind)
      ensures r.Success? ==>
        (r.value <==> IsClose(a, other.obj.a) && IsClose(b, other.obj.b) && IsClose(c, other.obj.c))
    {
      if other.Foreign? || other.obj.kind != kind then Failure(MismatchError(kind))
      else Success(IsClose(a, other.obj.a) && IsClose(b, other.obj.b) && IsClose(c, other.obj.c))
    }

    /** __lt__: a TypeError unless the other operand is of the same concrete kind, otherwise
        the comparison of the two areas. */
    function Less(other: Operand<Triangle>, heron: real, otherHeron: real): (r: Result<bool>)
      reads this, if other.Same? then {other.obj} else {}
      requires Valid() && HeronRoot(heron)
      requires other.Same? && other.obj.kind == kind ==> other.obj.Valid() && other.obj.HeronRoot(otherHeron)
      ensures r.Failure? <==> other.Foreign? || other.obj.kind != kind
      ensures r.Failure? ==> r.error == MismatchError(kind)
      ensures r.Success? ==> (r.value <==> Area(heron) < other.obj.Area(otherHeron))
    {
      if other.Foreign? || other.obj.kind != kind then Failure(MismatchError(kind))
      else Success(Area(heron) < other.obj.Area(otherHeron))
    }

    /** Every triangle equals itself. */
    lemma EqualsReflexive()
      ensures Equals(Same(this)) == Success(true)
    {
      IsCloseReflexive(a);
      IsCloseReflexive(b);
      IsCloseReflexive(c);
    }

    /** Equality of two triangles of one kind does not depend on the operand order. */
    lemma EqualsSymmetric(other: Triangle)
      requires other.kind == kind
      ensures Equals(Same(other)) == other.Equals(Same(this))
    {
      IsCloseSymmetric(a, other.a);
      IsCloseSymmetric(b, other.b);
      IsCloseSymmetric(c, other.c);
    }

    /** No triangle is smaller than itself, and of two triangles of one kind at most one is
        smaller than the other. */
    lemma LessStrictOrder(other: Triangle, heron: real, otherHeron: real)
      requires Valid() && HeronRoot(heron) && other.kind == kind && other.Valid() && other.HeronRoot(otherHeron)
      ensures Less(Same(this), heron, heron) == Success(false)
      ensures Less(Same(other), heron, otherHeron).value ==> !other.Less(Same(this), otherHeron, heron).value
    {
    }

    /** For acute and obtuse triangles the area order is the order of the Heron radicands,
        so it does not depend on which roots stand for math.sqrt. */
    lemma LessByRadicand(other: Triangle, heron: real, otherHeron: real)
      requires Valid() && HeronRoot(heron) && other.kind == kind && other.Valid() && other.HeronRoot(otherHeron)
      requires kind != RightTriangle
      ensures Less(Same(other), heron, otherHeron) == Success(HeronRadicand() < other.HeronRadicand())
    {
      SqrtStrictlyIncreasing(HeronRadicand(), heron, other.HeronRadicand(), otherHeron);
    }
  }

  /** RightTriangle(3, 4): hypotenuse 5, perimeter 12, area 6, inradius 1, circumradius 2.5,
      altitude 2.4, sin 0.6, cos 0.8, tan 0.75 and sec 1.25. */
  lemma {:induction false} RightThreeFour(t: Triangle, heron: real)
    requires t.kind == RightTriangle && t.Valid() && t.a == 3.0 && t.b == 4.0
    ensures t.c == 5.0 && t.Perimeter() == 12.0 && t.Area(heron) == 6.0
    ensures t.Inradius(heron) == 1.0 && t.Circumradius(heron) == 2.5 && t.Altitude() == 2.4
    ensures t.Sin() == 0.6 && t.Cos() == 0.8 && t.Tan() == 0.75 && t.Sec() == 1.25
  {
    SqrtUnique(25.0, t.c, 5.0);
  }

  /** The validation order: (1, 2, 10) breaks the triangle inequality; (3, 4, 5) and
      (3, 4, 6) are triangles but not acute; (3, 4, 5) and (5, 6, 7) are not obtuse. */
  lemma CheckExamples()
    ensures AcuteCheck(1.0, 2.0, 10.0) == Fail(ValueError(InequalityMessage))
    ensures AcuteCheck(3.0, 4.0, 5.0) == Fail(ValueError(NotAcuteMessage))
    ensures AcuteCheck(3.0, 4.0, 6.0) == Fail(ValueError(NotAcuteMessage))
    ensures AcuteCheck(5.0, 6.0, 7.0) == Pass
    ensures ObtuseCheck(3.0, 4.0, 5.0) == Fail(ValueError(NotObtuseMessage))
    ensures ObtuseCheck(5.0, 6.0, 7.0) == Fail(ValueError(NotObtuseMessage))
    ensures ObtuseCheck(3.0, 4.0, 6.0) == Pass
  {
  }
}
