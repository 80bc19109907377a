/** The older, unvalidated RightTriangle: any legs are accepted and the hypotenuse is
    math.sqrt(a² + b²). Its formulas are those of the right triangle in Triangles, whose
    value-level facts it reuses; its equality is exact and it has no kind check. */
module LegacyTriangle {
  import opened Numeric
  import Triangles

  /** Multiplying the sides of a right triangle by sqrt(k) keeps the hypotenuse relation
      and multiplies the area ½ab by k. */
  lemma {:induction false} ScaledRight(a: real, b: real, c: real, k: real, root: real,
                                       a1: real, b1: real, c1: real)
    requires IsSqrt(Sq(a) + Sq(b), c) && k > 0.0 && IsSqrt(k, root)
    requires a1 == a * root && b1 == b * root && c1 == c * root
    ensures IsSqrt(Sq(a1) + Sq(b1), c1)
    ensures 0.5 * a1 * b1 == k * (0.5 * a * b)
  {
    SqrtPositive(k, root);
    Triangles.RightScaledShape(a, b, c, root);
    Triangles.ProductScales(a, b, root);
  }

  /** The fields a, b and c are public and set without validation. */
  class RightTriangle {
    var a: real
    var b: real
    var c: real

    /** c is math.sqrt(a² + b²), the only relation the constructor establishes. */
    ghost predicate Valid()
      reads this
    {
      IsSqrt(Sq(a) + Sq(b), c)
    }

    /** RightTriangle(a, b): stores the legs as given; `hypotenuse` is the value of
        math.sqrt(a**2 + b**2), which never fails because its argument is not negative. */
    constructor (a: real, b: real, hypotenuse: real)
      requires IsSqrt(Sq(a) + Sq(b), hypotenuse)
      ensures this.a == a && this.b == b && c == hypotenuse && Valid()
    {
      this.a, this.b, c := a, b, hypotenuse;
    }

    /** area(): ½ab. */
    function Area(): real
      reads this
    {
      0.5 * a * b
    }

    function Perimeter(): real
      reads this
    {
      a + b + c
    }

    /** inradius(): area / (0.5 * perimeter), which is (a + b - c) / 2. */
    function Inradius(): (r: real)
      reads this
      requires Valid() && Perimeter() != 0.0
      ensures r * (0.5 * Perimeter()) == Area()
      ensures 2.0 * r == a + b - c
    {
      var area := Area();
      var half := 0.5 * Perimeter();
      QuotientTimes(area, half);
      Triangles.RightInradius(a, b, c, area, half);
      area / half
    }

    /** circumradius(): half the hypotenuse, so R * 4 * area == abc. */
    function Circumradius(): (r: real)
      reads this
      requires Valid()
      ensures r * (4.0 * Area()) == a * b * c
    {
      Triangles.RightCircumradius(a, b, c, Area());
      c / 2.0
    }

    /** altitude(): ab / c, the height on the hypotenuse: it times c is twice the area, and
        with positive legs it is shorter than both. */
    function Altitude(): (r: real)
      reads this
      requires Valid() && c != 0.0
      ensures r * c == 2.0 * Area()
      ensures a > 0.0 && b > 0.0 ==> 0.0 < r < a && r < b
    {
      QuotientTimes(a * b, c);
      if a > 0.0 && b > 0.0 then
        Triangles.RightAltitudeBounds(a, b, c);
        (a * b) / c
      else
        (a * b) / c
    }

    /** sin(): opposite over hypotenuse. */
    function Sin(): real
      reads this
      requires c != 0.0
    {
      a / c
    }

    /** cos(): adjacent over hypotenuse. */
    function Cos(): real
      reads this
      requires c != 0.0
    {
      b / c
    }

    /** tan(): opposite over adjacent. */
    function Tan(): real
      reads this
      requires b != 0.0
    {
      a / b
    }

    /** sec(): hypotenuse over adjacent. */
    function Sec(): real
      reads this
      requires b != 0.0
    {
      c / b
    }

    /** cot(): adjacent over opposite. */
    function Cot(): real
      reads this
      requires a != 0.0
    {
      b / a
    }

    /** csc(): hypotenuse over opposite. */
    function Csc(): real
      reads this
      requires a != 0.0
    {
      c / a
    }

    /** With non-zero legs: sin² + cos² == 1, tan == sin / cos, and sec, csc and cot are
        the reciprocals of cos, sin and tan. */
    lemma TrigIdentities()
      requires Valid() && a != 0.0 && b != 0.0
      ensures c != 0.0
      ensures Sq(Sin()) + Sq(Cos()) == 1.0
      ensures Tan() == Sin() / Cos()
      ensures Sec() * Cos() == 1.0 && Csc() * Sin() == 1.0 && Cot() * Tan() == 1.0
    {
      Triangles.RatioIdentities(a, b, c);
    }

    /** __imul__: a, b and c times sqrt(k) (`root`); the hypotenuse relation still holds
        and the area is multiplied by k. */
    method MulAssign(ghost k: real, root: real)
      requires Valid() && k > 0.0 && IsSqrt(k, root)
      modifies this
      ensures Valid()
      ensures a == old(a) * root && b == old(b) * root && c == old(c) * root
      ensures Area() == k * old(Area())
    {
      a, b, c := a * root, b * root, c * root;
      ScaledRight(old(a), old(b), old(c), k, root, a, b, c);
    }

    /** __itruediv__: self *= 1 / k, where `inv` stands for the reciprocal 1 / k and `root`
        for its square root; the area is multiplied by inv, that is divided by k. */
    method DivAssign(k: real, root: real, ghost inv: real)
      requires Valid() && k > 0.0 && inv == 1.0 / k && IsSqrt(inv, root)
      modifies this
      ensures Valid()
      ensures a == old(a) * root && b == old(b) * root && c == old(c) * root
      ensures Area() == inv * old(Area())
    {
      MulAssign(inv, root);
    }

    /** __mul__: RightTriangle(a, b) scaled by k. The rebuilt hypotenuse is c again, since
        the square root is unique; the receiver is left unchanged. */
    method Mul(k: real, root: real) returns (t: RightTriangle)
      requires Valid() && k > 0.0 && IsSqrt(k, root)
      ensures fresh(t) && t.Valid()
      ensures t.a == a * root && t.b == b * root && t.c == c * root
      ensures t.Area() == k * Area()
    {
      t := new RightTriangle(a, b, c);
      t.MulAssign(k, root);
    }

    /** __truediv__: RightTriangle(a, b) scaled down by k; the receiver is left unchanged. */
    method Div(k: real, root: real, ghost inv: real) returns (t: RightTriangle)
      requires Valid() && k > 0.0 && inv == 1.0 / k && IsSqrt(inv, root)
      ensures fresh(t) && t.Valid()
      ensures t.a == a * root && t.b == b * root && t.c == c * root
      ensures t.Area() == inv * Area()
    {
      t := new RightTriangle(a, b, c);
      t.DivAssign(k, root, inv);
    }

    /** __eq__: exact equality of a, b and c, with no tolerance. */
    function Equals(other: RightTriangle): bool
      reads this, other
    {
      a == other.a && b == other.b && c == other.c
    }

    /** For two triangles that keep the hypotenuse relation, equality is equality of the
        legs: the hypotenuses then agree because the square root is unique. */
    lemma EqualsByLegs(other: RightTriangle)
      requires Valid() && other.Valid()
      ensures Equals(other) <==> a == other.a && b == other.b
    {
      if a == other.a && b == other.b {
        SqrtUnique(Sq(a) + Sq(b), c, other.c);
      }
    }

    /** __lt__: the areas compared with no tolerance. */
    function Less(other: RightTriangle): bool
      reads this, other
    {
      Area() < other.Area()
    }

    /** The area of a triangle with the hypotenuse relation squares to the Heron radicand
        of its sides, and with non-negative legs it is the radicand's square root: Heron's
        formula gives the same area. */
    lemma AreaIsHeron()
      requires Valid()
      ensures Sq(Area()) == Triangles.Radicand(a, b, c)
      ensures a >= 0.0 && b >= 0.0 ==> IsSqrt(Triangles.Radicand(a, b, c), Area())
    {
      Triangles.RightHeron(a, b, c);
      if a >= 0.0 && b >= 0.0 {
        Triangles.RightHeronRoot(a, b, c);
      }
    }

    /** So for legacy triangles with non-negative legs __lt__ is the order of the Heron
        radicands. */
    lemma LessByHeron(other: RightTriangle)
      requires Valid() && other.Valid()
      requires a >= 0.0 && b >= 0.0 && other.a >= 0.0 && other.b >= 0.0
      ensures Less(other) <==> Triangles.Radicand(a, b, c) < Triangles.Radicand(other.a, other.b, other.c)
    {
      AreaIsHeron();
      other.AreaIsHeron();
      SqrtStrictlyIncreasing(Triangles.Radicand(a, b, c), Area(),
                             Triangles.Radicand(other.a, other.b, other.c), other.Area());
    }
  }

  /** The legs are not validated: RightTriangle(-3, 4) has area -6 and is less than
      RightTriangle(3, 4), although both have Heron radicand 36. */
  lemma {:induction false} NegativeLeg(t: RightTriangle, u: RightTriangle)
    requires t.Valid() && t.a == -3.0 && t.b == 4.0
    requires u.Valid() && u.a == 3.0 && u.b == 4.0
    ensures t.Area() == -6.0 && u.Area() == 6.0 && t.Less(u)
    ensures Triangles.Radicand(t.a, t.b, t.c) == 36.0 && Triangles.Radicand(u.a, u.b, u.c) == 36.0
  {
    SqrtUnique(25.0, t.c, 5.0);
    SqrtUnique(25.0, u.c, 5.0);
  }

  /** RightTriangle(3, 4): hypotenuse 5, area 6, perimeter 12, inradius 1, circumradius
      2.5, altitude 2.4, sin 0.6, cos 0.8, tan 0.75 and sec 1.25. */
  lemma {:induction false} ThreeFour(t: RightTriangle)
    requires t.Valid() && t.a == 3.0 && t.b == 4.0
    ensures t.c == 5.0 && t.Area() == 6.0 && t.Perimeter() == 12.0
    ensures t.Inradius() == 1.0 && t.Circumradius() == 2.5 && t.Altitude() == 2.4
    ensures t.Sin() == 0.6 && t.Cos() == 0.8 && t.Tan() == 0.75 && t.Sec() == 1.25
  {
    SqrtUnique(25.0, t.c, 5.0);
  }
}
