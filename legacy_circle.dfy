/** The older Circle: the same check and formulas as Circles, but the radius is a public
    field that callers may overwrite, __mul__ and __truediv__ re-run the check on the
    current radius, and comparing with anything but a Circle returns NotImplemented. */
module LegacyCircle {
  import opened Numeric
  import Circles

  /** What __eq__ and __lt__ return: a bool, or the NotImplemented marker. */
  datatype Comparison = Answer(value: bool) | NotImplemented

  class Circle {
    var radius: real

    /** The field assignment of Circle(radius), reached only after the check. */
    constructor (radius: real)
      requires Circles.CheckRadius(radius) == Pass
      ensures this.radius == radius
    {
      this.radius := radius;
    }

    /** Circle(radius): a ValueError for a non-positive radius, nothing allocated. */
    static method New(radius: real) returns (r: Result<Circle>)
      ensures r.Success? <==> radius > 0.0
      ensures r.Failure? ==> r.error == ValueError(Circles.RadiusMessage)
      ensures r.Success? ==> fresh(r.value) && r.value.radius == radius
    {
      var check := Circles.CheckRadius(radius);
      if check.Fail? {
        return Failure(check.error);
      }
      var c := new Circle(radius);
      return Success(c);
    }

    function Diameter(): real
      reads this
    {
      Circles.DiameterOf(radius)
    }

    function Circumference(): real
      reads this
    {
      Circles.CircumferenceOf(radius)
    }

    function Area(): real
      reads this
    {
      Circles.AreaOf(radius)
    }

    function ArcLength(angle: real): real
      reads this
    {
      Circles.ArcLengthOf(radius, angle)
    }

    function SectorArea(angle: real): real
      reads this
    {
      Circles.SectorAreaOf(radius, angle)
    }

    /** __imul__: the radius times sqrt(k) (`root`), whatever the radius currently is, so
        the area times k. */
    method MulAssign(k: real, root: real)
      requires IsSqrt(k, root)
      modifies this
      ensures radius == old(radius) * root
      ensures Area() == k * old(Area())
    {
      Circles.AreaScales(radius, k, root);
      radius := radius * root;
    }

    /** __itruediv__: self *= 1 / k, where `root` is sqrt(1 / k). */
    method DivAssign(k: real, root: real)
      requires k != 0.0 && IsSqrt(1.0 / k, root)
      modifies this
      ensures radius == old(radius) * root
      ensures Area() == old(Area()) / k
    {
      MulAssign(1.0 / k, root);
    }

    /** __mul__: Circle(self.radius) scaled by k. Building the copy re-runs the check, so a
        radius overwritten with a non-positive value raises ValueError here; the receiver is
        left unchanged. */
    method Mul(k: real, root: real) returns (r: Result<Circle>)
      requires IsSqrt(k, root)
      ensures r.Success? <==> radius > 0.0
      ensures r.Failure? ==> r.error == ValueError(Circles.RadiusMessage)
      ensures r.Success? ==> fresh(r.value) && r.value.radius == radius * root
      ensures r.Success? ==> r.value.Area() == k * Area()
    {
      r := New(radius);
      if r.Success? {
        r.value.MulAssign(k, root);
      }
    }

    /** __truediv__: Circle(self.radius) scaled down by k, with the same re-check. */
    method Div(k: real, root: real) returns (r: Result<Circle>)
      requires k != 0.0 && IsSqrt(1.0 / k, root)
      ensures r.Success? <==> radius > 0.0
      ensures r.Failure? ==> r.error == ValueError(Circles.RadiusMessage)
      ensures r.Success? ==> fresh(r.value) && r.value.radius == radius * root
      ensures r.Success? ==> r.value.Area() == Area() / k
    {
      r := New(radius);
      if r.Success? {
        r.value.DivAssign(k, root);
      }
    }

    /** __eq__: NotImplemented for anything but a Circle, otherwise math.isclose on the
        radii. */
    function Equals(other: Operand<Circle>): (r: Comparison)
      reads this, if other.Same? then {other.obj} else {}
      ensures r == NotImplemented <==> other.Foreign?
      ensures r.Answer? ==> (r.value <==> IsClose(radius, other.obj.radius))
    {
      if other.Foreign? then NotImplemented
      else Answer(IsClose(radius, other.obj.radius))
    }

    /** __lt__: NotImplemented for anything but a Circle, otherwise the area comparison,
        which for positive radii is the radius comparison. */
    function Less(other: Operand<Circle>): (r: Comparison)
      reads this, if other.Same? then {other.obj} else {}
      ensures r == NotImplemented <==> other.Foreign?
      ensures r.Answer? && radius > 0.0 && other.obj.radius > 0.0 ==>
        (r.value <==> radius < other.obj.radius)
    {
      if other.Foreign? then NotImplemented
      else
        if radius > 0.0 && other.obj.radius > 0.0 then
          Circles.AreaOrder(radius, other.obj.radius);
          Answer(Area() < other.obj.Area())
        else
          Answer(Area() < other.obj.Area())
    }

    /** Every circle equals itself, whatever its radius. */
    lemma EqualsReflexive()
      ensures Equals(Same(this)) == Answer(true)
    {
      IsCloseReflexive(radius);
    }

    /** Equality does not depend on the operand order. */
    lemma EqualsSymmetric(other: Circle)
      ensures Equals(Same(other)) == other.Equals(Same(this))
    {
      IsCloseSymmetric(radius, other.radius);
    }
  }
}
