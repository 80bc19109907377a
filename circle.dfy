/** Circle: the radius check, the formulas in the radius (linear: diameter, circumference,
    arc length; quadratic: area, sector area), area scaling in place and by copy, and the
    comparisons. The formulas are stated once, over the radius, and shared with the legacy
    circle. */
module Circles {
  import opened Numeric

  const RadiusMessage := "Radius must be positive"

  const MismatchError := TypeError("Can only compare Circle with another Circle")

  /** The constructor's check. */
  function CheckRadius(radius: real): (r: Outcome)
    ensures r == Pass <==> radius > 0.0
    ensures r.Fail? ==> r.error == ValueError(RadiusMessage)
  {
    if radius <= 0.0 then Fail(ValueError(RadiusMessage)) else Pass
  }

  /** diameter(): 2r. */
  function DiameterOf(radius: real): real {
    2.0 * radius
  }

  /** circumference(): 2πr. */
  function CircumferenceOf(radius: real): real {
    2.0 * Pi * radius
  }

  /** area(): πr², positive for a non-zero radius. */
  function AreaOf(radius: real): (r: real)
    ensures radius != 0.0 ==> r > 0.0
  {
    if radius != 0.0 then PositiveSquare(radius); Pi * Sq(radius)
    else Pi * Sq(radius)
  }

  /** arc_length(angle): rθ, for any angle. */
  function ArcLengthOf(radius: real, angle: real): real {
    radius * angle
  }

  /** sector_area(angle): ½r²θ, for any angle. */
  function SectorAreaOf(radius: real, angle: real): real {
    0.5 * Sq(radius) * angle
  }

  /** The circumference is π times the diameter, and the area is half the circumference
      times the radius. */
  lemma {:induction false} CircumferenceAndArea(radius: real)
    ensures CircumferenceOf(radius) == Pi * DiameterOf(radius)
    ensures AreaOf(radius) == 0.5 * CircumferenceOf(radius) * radius
  {
    assert Sq(radius) == radius * radius;
  }

  /** The arc and the sector of a full turn are the circumference and the area; those of a
      zero angle are 0. */
  lemma {:induction false} FullTurnAndZeroAngle(radius: real)
    ensures ArcLengthOf(radius, 2.0 * Pi) == CircumferenceOf(radius)
    ensures SectorAreaOf(radius, 2.0 * Pi) == AreaOf(radius)
    ensures ArcLengthOf(radius, 0.0) == 0.0 && SectorAreaOf(radius, 0.0) == 0.0
  {
    assert 0.5 * Sq(radius) * (2.0 * Pi) == Pi * Sq(radius);
  }

  /** Multiplying the radius by sqrt(k) multiplies the area by k. */
  lemma {:induction false} AreaScales(radius: real, k: real, root: real)
    requires IsSqrt(k, root)
    ensures AreaOf(radius * root) == k * AreaOf(radius)
  {
    SquareOfProduct(radius, root);
  }

  /** A positive radius times sqrt(k) is positive again, and larger exactly when k > 1. */
  lemma {:induction false} ScaledRadius(radius: real, k: real, root: real, scaled: real)
    requires radius > 0.0 && k > 0.0 && IsSqrt(k, root) && scaled == radius * root
    ensures scaled > 0.0
    ensures radius < scaled <==> k > 1.0
  {
    SqrtPositive(k, root);
    PositiveProduct(radius, root);
    SqrtStrictlyIncreasing(1.0, 1.0, k, root);
    SqrtStrictlyIncreasing(k, root, 1.0, 1.0);
    ScaledOrder(1.0, root, radius);
  }

  /** For positive radii the area order is the radius order. */
  lemma {:induction false} AreaOrder(r: real, s: real)
    requires r > 0.0 && s > 0.0
    ensures AreaOf(r) < AreaOf(s) <==> r < s
  {
    SqrtStrictlyIncreasing(Sq(r), r, Sq(s), s);
    ScaledOrder(Sq(r), Sq(s), Pi);
  }

  /** Circle(3) * 4 has radius 6, Circle(8) / 4 has radius 4, and scaling by 4 and then
      down by 2 doubles the area. */
  lemma {:induction false} ScalingExamples(root4: real, rootQuarter: real, rootHalf: real, radius: real)
    requires IsSqrt(4.0, root4) && IsSqrt(1.0 / 4.0, rootQuarter) && IsSqrt(1.0 / 2.0, rootHalf)
    ensures 3.0 * root4 == 6.0 && 8.0 * rootQuarter == 4.0
    ensures AreaOf(radius * root4 * rootHalf) == 2.0 * AreaOf(radius)
  {
    SqrtUnique(4.0, root4, 2.0);
    SqrtUnique(1.0 / 4.0, rootQuarter, 0.5);
    AreaScales(radius, 4.0, root4);
    AreaScales(radius * root4, 1.0 / 2.0, rootHalf);
  }

  /** A Circle; its radius is private and positive. */
  class Circle {
    var radius: real

    ghost predicate Valid()
      reads this
    {
      radius > 0.0
    }

    /** The field assignment of Circle(radius), reached only after the check. */
    constructor (radius: real)
      requires CheckRadius(radius) == Pass
      ensures this.radius == radius && Valid()
    {
      this.radius := radius;
    }

    /** Circle(radius): a ValueError for a non-positive radius, nothing allocated. */
    static method New(radius: real) returns (r: Result<Circle>)
      ensures r.Success? <==> radius > 0.0
      ensures r.Failure? ==> r.error == ValueError(RadiusMessage)
      ensures r.Success? ==> fresh(r.value) && r.value.radius == radius && r.value.Valid()
    {
      var check := CheckRadius(radius);
      if check.Fail? {
        return Failure(check.error);
      }
      var c := new Circle(radius);
      return Success(c);
    }

    function Diameter(): real
      reads this
    {
      DiameterOf(radius)
    }

    function Circumference(): real
      reads this
    {
      CircumferenceOf(radius)
    }

    function Area(): real
      reads this
    {
      AreaOf(radius)
    }

    function ArcLength(angle: real): real
      reads this
    {
      ArcLengthOf(radius, angle)
    }

    function SectorArea(angle: real): real
      reads this
    {
      SectorAreaOf(radius, angle)
    }

    /** __imul__: the radius times sqrt(k) (`root`), so the area times k. */
    method MulAssign(k: real, root: real)
      requires Valid() && k > 0.0 && IsSqrt(k, root)
      modifies this
      ensures Valid() && radius == old(radius) * root
      ensures Area() == k * old(Area())
    {
      SqrtPositive(k, root);
      PositiveProduct(radius, root);
      AreaScales(radius, k, root);
      radius := radius * root;
    }

    /** __itruediv__: self *= 1 / k, where `root` is sqrt(1 / k). */
    method DivAssign(k: real, root: real)
      requires Valid() && k > 0.0 && IsSqrt(1.0 / k, root)
      modifies this
      ensures Valid() && radius == old(radius) * root
      ensures Area() == old(Area()) / k
    {
      MulAssign(1.0 / k, root);
    }

    /** __mul__: Circle(radius) scaled by k; the receiver is left unchanged. */
    method Mul(k: real, root: real) returns (t: Circle)
      requires Valid() && k > 0.0 && IsSqrt(k, root)
      ensures fresh(t) && t.Valid() && t.radius == radius * root
      ensures t.Area() == k * Area()
    {
      t := new Circle(radius);
      t.MulAssign(k, root);
    }

    /** A circle whose radius is this one's times sqrt(k), as Mul makes it, is larger than
        this one exactly when k > 1. */
    lemma LessThanScaled(t: Circle, k: real, root: real)
      requires Valid() && k > 0.0 && IsSqrt(k, root) && t.radius == radius * root
      ensures t.Valid()
      ensures Less(Same(t)) == Success(k > 1.0)
    {
      ScaledRadius(radius, k, root, t.radius);
    }

    /** __truediv__: Circle(radius) scaled down by k; the receiver is left unchanged. */
    method Div(k: real, root: real) returns (t: Circle)
      requires Valid() && k > 0.0 && IsSqrt(1.0 / k, root)
      ensures fresh(t) && t.Valid() && t.radius == radius * root
      ensures t.Area() == Area() / k
    {
      t := new Circle(radius);
      t.DivAssign(k, root);
    }

    /** __eq__: a TypeError for anything but a Circle, otherwise math.isclose on the radii. */
    function Equals(other: Operand<Circle>): (r: Result<bool>)
      reads this, if other.Same? then {other.obj} else {}
      ensures r.Failure? <==> other.Foreign?
      ensures r.Failure? ==> r.error == MismatchError
      ensures r.Success? ==> (r.value <==> IsClose(radius, other.obj.radius))
    {
      if other.Foreign? then Failure(MismatchError)
      else Success(IsClose(radius, other.obj.radius))
    }

    /** __lt__: a TypeError for anything but a Circle, otherwise the area comparison,
        which for two valid circles is the radius comparison. */
    function Less(other: Operand<Circle>): (r: Result<bool>)
      reads this, if other.Same? then {other.obj} else {}
      requires Valid() && (other.Same? ==> other.obj.Valid())
      ensures r.Failure? <==> other.Foreign?
      ensures r.Failure? ==> r.error == MismatchError
      ensures r.Success? ==> (r.value <==> radius < other.obj.radius)
    {
      if other.Foreign? then Failure(MismatchError)
      else
        AreaOrder(radius, other.obj.radius);
        Success(Area() < other.obj.Area())
    }

    /** Every circle equals itself. */
    lemma EqualsReflexive()
      ensures Equals(Same(this)) == Success(true)
    {
      IsCloseReflexive(radius);
    }

    /** Equality does not depend on the operand order. */
    lemma EqualsSymmetric(other: Circle)
      ensures Equals(Same(other)) == other.Equals(Same(this))
    {
      IsCloseSymmetric(radius, other.radius);
    }
  }
}
