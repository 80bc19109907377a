/** Rectangle and its special case Square: positivity checks, the closed-form metrics,
    the derived rectangles (rotated, scaled to an area, scaled to fit a box), area scaling
    in place and by copy, and the comparisons. */
module Rectangles {
  import opened Numeric

  const WidthMessage := "Width must be positive"
  const HeightMessage := "Height must be positive"

  /** The absolute area difference below which __lt__ treats two areas as equal. */
  const AreaEpsilon: real := 0.000000001

  /** __eq__ and __lt__ accept any Rectangle, a Square included, and nothing else. */
  const MismatchError := TypeError("Can only compare Rectangle with another Rectangle")

  /** The constructor's checks, width first: both dimensions must be positive. */
  function Check(width: real, height: real): (r: Outcome)
    ensures r == Pass <==> width > 0.0 && height > 0.0
    ensures width <= 0.0 ==> r == Fail(ValueError(WidthMessage))
    ensures width > 0.0 && height <= 0.0 ==> r == Fail(ValueError(HeightMessage))
  {
    if width <= 0.0 then Fail(ValueError(WidthMessage))
    else if height <= 0.0 then Fail(ValueError(HeightMessage))
    else Pass
  }

  /** The factor scale_to_fit applies: the smaller of the two ratios to the bounds. */
  function FitScale(width: real, height: real, maxWidth: real, maxHeight: real): real
    requires width > 0.0 && height > 0.0
  {
    Min(maxWidth / width, maxHeight / height)
  }

  /** area() of a rectangle with the given dimensions. */
  function AreaOf(width: real, height: real): real {
    width * height
  }

  /** aspect_ratio() of a rectangle with the given dimensions. */
  function AspectOf(width: real, height: real): real
    requires height != 0.0
  {
    width / height
  }

  // Value-level facts behind the class members.

  /** Multiplying both sides by sqrt(k) multiplies the area by k. */
  lemma {:induction false} AreaScales(w: real, h: real, k: real, root: real)
    requires IsSqrt(k, root)
    ensures (w * root) * (h * root) == k * (w * h)
  {
    assert Sq(root) == root * root;
    assert (w * root) * (h * root) == (w * h) * (root * root);
  }

  /** Dimensions w1, h1 that are w and h times sqrt(k) are positive again, their product
      is k times the old area and their ratio is the old aspect ratio. */
  lemma {:induction false} ScaledDimensions(w: real, h: real, k: real, root: real,
                                            w1: real, h1: real)
    requires w > 0.0 && h > 0.0 && k > 0.0 && IsSqrt(k, root)
    requires w1 == w * root && h1 == h * root
    ensures w1 > 0.0 && h1 > 0.0
    ensures AreaOf(w1, h1) == k * AreaOf(w, h)
    ensures AspectOf(w1, h1) == AspectOf(w, h)
  {
    SqrtPositive(k, root);
    PositiveProduct(w, root);
    PositiveProduct(h, root);
    AreaScales(w, h, k, root);
    AspectScales(w, h, root);
  }

  /** The same for a square of side s whose dimensions are both s: the new side s1 is
      each dimension times sqrt(k). */
  lemma {:induction false} ScaledSquare(s: real, w: real, h: real, k: real, root: real, s1: real)
    requires w == s && h == s && s > 0.0 && k > 0.0 && IsSqrt(k, root) && s1 == s * root
    ensures s1 == w * root && s1 == h * root && s1 > 0.0
    ensures AreaOf(s1, s1) == k * AreaOf(w, h)
    ensures AspectOf(s1, s1) == AspectOf(w, h)
  {
    ScaledDimensions(s, s, k, root, s1, s1);
  }

  /** Multiplying both sides by the same positive factor keeps the aspect ratio. */
  lemma {:induction false} AspectScales(w: real, h: real, f: real)
    requires h != 0.0 && f > 0.0
    ensures h * f != 0.0 && (w * f) / (h * f) == w / h
  {
    PositiveSquare(f);
    var q := w / h;
    QuotientTimes(w, h);
    assert q * (h * f) == w * f;
    QuotientOfProduct(q, h * f, w * f);
  }

  /** scale_to_area's factor sqrt(t / area) turns w by h into w1 by h1 of area t, positive
      exactly when t is and then of the same aspect ratio. */
  lemma {:induction false} AreaTargetReached(w: real, h: real, t: real, root: real,
                                             w1: real, h1: real)
    requires w > 0.0 && h > 0.0 && t >= 0.0 && IsSqrt(t / AreaOf(w, h), root)
    requires w1 == w * root && h1 == h * root
    ensures AreaOf(w1, h1) == t
    ensures t > 0.0 <==> w1 > 0.0
    ensures w1 > 0.0 ==> h1 > 0.0 && AspectOf(w1, h1) == AspectOf(w, h)
  {
    PositiveProduct(w, h);
    AreaScales(w, h, t / (w * h), root);
    QuotientTimes(t, w * h);
    if t > 0.0 {
      QuotientPositive(t, w * h);
      SqrtPositive(t / (w * h), root);
      PositiveProduct(w, root);
      PositiveProduct(h, root);
      AspectScales(w, h, root);
    } else {
      SqrtUnique(0.0, root, 0.0);
    }
  }

  /** scale_to_fit's factor is positive exactly when both bounds are. */
  lemma {:induction false} FitScalePositive(w: real, h: real, mw: real, mh: real)
    requires w > 0.0 && h > 0.0
    ensures FitScale(w, h, mw, mh) > 0.0 <==> mw > 0.0 && mh > 0.0
  {
    QuotientTimes(mw, w);
    QuotientTimes(mh, h);
    if mw > 0.0 { QuotientPositive(mw, w); }
    if mh > 0.0 { QuotientPositive(mh, h); }
    var s := FitScale(w, h, mw, mh);
    if s > 0.0 && mw <= 0.0 {
      assert mw / w * w <= 0.0;
      ScaledOrder(mw / w, 0.0, w);
    }
    if s > 0.0 && mh <= 0.0 {
      ScaledOrder(mh / h, 0.0, h);
    }
  }

  /** The rectangle scale_to_fit builds lies within the bounds and touches at least one. */
  lemma {:induction false} FitWithinBounds(w: real, h: real, mw: real, mh: real)
    requires w > 0.0 && h > 0.0
    ensures w * FitScale(w, h, mw, mh) <= mw && h * FitScale(w, h, mw, mh) <= mh
    ensures w * FitScale(w, h, mw, mh) == mw || h * FitScale(w, h, mw, mh) == mh
  {
    var s := FitScale(w, h, mw, mh);
    QuotientTimes(mw, w);
    QuotientTimes(mh, h);
    assert s * w <= mw / w * w by { ScaledOrder(s, mw / w, w); }
    assert s * h <= mh / h * h by { ScaledOrder(s, mh / h, h); }
  }

  /** The dimensions w1, h1 that scale_to_fit computes: positive exactly when both bounds
      are, within the bounds and touching one of them, and then of the same aspect ratio. */
  lemma {:induction false} FittedDimensions(w: real, h: real, mw: real, mh: real, s: real,
                                            w1: real, h1: real)
    requires w > 0.0 && h > 0.0 && s == FitScale(w, h, mw, mh)
    requires w1 == w * s && h1 == h * s
    ensures w1 > 0.0 <==> mw > 0.0 && mh > 0.0
    ensures w1 > 0.0 ==> h1 > 0.0 && AspectOf(w1, h1) == AspectOf(w, h)
    ensures w1 <= mw && h1 <= mh && (w1 == mw || h1 == mh)
  {
    FitScalePositive(w, h, mw, mh);
    FitWithinBounds(w, h, mw, mh);
    if s > 0.0 {
      PositiveProduct(w, s);
      PositiveProduct(h, s);
      AspectScales(w, h, s);
    } else {
      NonPositiveProduct(w, s);
    }
  }

  /** A square's diagonal side * sqrt(2) is the rectangle diagonal sqrt(w² + h²) at
      w = h = side. */
  lemma {:induction false} SquareDiagonal(side: real, root2: real)
    requires side > 0.0 && IsSqrt(2.0, root2)
    ensures IsSqrt(Sq(side) + Sq(side), side * root2)
  {
    SqrtOfScaledSquare(2.0, root2, side);
  }

  datatype Kind = Plain | Square

  /** A Rectangle, or a Square (kind == Square), whose `side` is its own field kept equal to
      both dimensions. A plain Rectangle has no such attribute; its `side` field is 0.0 and
      nothing reads it. */
  class Rectangle {
    const kind: Kind
    var width: real
    var height: real
    var side: real

    /** What the constructors establish: positive dimensions, and for a Square
        width == height == side. */
    ghost predicate Valid()
      reads this
    {
      width > 0.0 && height > 0.0 && (kind == Square ==> width == side && height == side)
    }

    /** The field assignments of Rectangle(width, height), reached only after both checks. */
    constructor (width: real, height: real)
      requires Check(width, height) == Pass
      ensures kind == Plain && this.width == width && this.height == height
      ensures Valid()
    {
      kind := Plain;
      this.width, this.height := width, height;
      side := 0.0;
    }

    /** Square(side): the Rectangle constructor with both dimensions equal to side,
        followed by the side field. */
    constructor SquareOf(side: real)
      requires Check(side, side) == Pass
      ensures kind == Square && width == side && height == side && this.side == side
      ensures Valid()
    {
      kind := Square;
      width, height := side, side;
      this.side := side;
    }

    /** Rectangle(width, height): a ValueError naming the first non-positive dimension,
        width first; nothing is allocated on failure. */
    static method New(width: real, height: real) returns (r: Result<Rectangle>)
      ensures r.Success? <==> width > 0.0 && height > 0.0
      ensures r.Failure? ==> r.error == Check(width, height).error
      ensures r.Success? ==> fresh(r.value) && r.value.kind == Plain && r.value.Valid()
      ensures r.Success? ==> r.value.width == width && r.value.height == height
    {
      var check := Check(width, height);
      if check.Fail? {
        return Failure(check.error);
      }
      var t := new Rectangle(width, height);
      return Success(t);
    }

    /** Square(side): rejected with the width message when side <= 0. */
    static method NewSquare(side: real) returns (r: Result<Rectangle>)
      ensures r.Success? <==> side > 0.0
      ensures r.Failure? ==> r.error == ValueError(WidthMessage)
      ensures r.Success? ==> fresh(r.value) && r.value.kind == Square && r.value.Valid()
      ensures r.Success? ==> r.value.side == side
    {
      var check := Check(side, side);
      if check.Fail? {
        return Failure(check.error);
      }
      var t := new Rectangle.SquareOf(side);
      return Success(t);
    }

    /** area(): width * height, positive. */
    function Area(): (r: real)
      reads this
      requires Valid()
      ensures r > 0.0
    {
      PositiveProduct(width, height);
      AreaOf(width, height)
    }

    /** perimeter(): 2 * (width + height), at least four times the smaller side and
        exactly four sides for a Square. */
    function Perimeter(): (r: real)
      reads this
      requires Valid()
      ensures r >= 4.0 * Min(width, height) && (kind == Square ==> r == 4.0 * side)
    {
      2.0 * (width + height)
    }

    /** The value math.sqrt returns inside diagonal(): sqrt(w² + h²) for a Rectangle,
        sqrt(2) for a Square. */
    ghost predicate DiagonalRoot(root: real)
      reads this
    {
      if kind == Plain then IsSqrt(Sq(width) + Sq(height), root) else IsSqrt(2.0, root)
    }

    /** diagonal(): the Rectangle formula and the Square override agree, both being the
        non-negative root of w² + h². */
    function Diagonal(root: real): (r: real)
      reads this
      requires Valid() && DiagonalRoot(root)
      ensures IsSqrt(Sq(width) + Sq(height), r)
    {
      if kind == Plain then root
      else
        SquareDiagonal(side, root);
        side * root
    }

    /** aspect_ratio(): width / height, the positive r with r * height == width. */
    function AspectRatio(): (r: real)
      reads this
      requires Valid()
      ensures r > 0.0 && r * height == width
    {
      QuotientTimes(width, height);
      QuotientPositive(width, height);
      AspectOf(width, height)
    }

    /** is_square(): math.isclose on width and height; true for every Square. */
    function IsSquare(): (r: bool)
      reads this
      requires Valid()
      ensures r <==> IsClose(width, height)
      ensures kind == Square ==> r
    {
      IsCloseReflexive(width);
      IsClose(width, height)
    }

    /** circumradius(): half the diagonal, in both the Rectangle and the Square formula. */
    function Circumradius(root: real): (r: real)
      reads this
      requires Valid() && DiagonalRoot(root)
      ensures IsSqrt(Sq(width) + Sq(height), 2.0 * r)
    {
      if kind == Plain then Diagonal(root) / 2.0
      else
        SquareDiagonal(side, root);
        side * root / 2.0
    }

    /** inradius(): min(width, height) / 2 for a Rectangle and side / 2 for a Square; the
        two agree, and the circle of that radius fits both dimensions. */
    function Inradius(): (r: real)
      reads this
      requires Valid()
      ensures 2.0 * r == Min(width, height)
      ensures r > 0.0 && 2.0 * r <= width && 2.0 * r <= height
    {
      if kind == Plain then Min(width, height) / 2.0 else side / 2.0
    }

    /** apothem() of a Square: side / 2, equal to its inradius. */
    function Apothem(): (r: real)
      reads this
      requires Valid() && kind == Square
      ensures 2.0 * r == width && 2.0 * r == height && r == Inradius()
    {
      side / 2.0
    }

    /** scale_to_area(target): a new Rectangle (even from a Square) whose sides are this
        one's times math.sqrt(target / area); `root` is that call's outcome. A negative
        target fails inside math.sqrt, a zero target in the constructor; any other gives
        exactly the target area with the same aspect ratio. */
    method ScaleToArea(target: real, root: Result<real>) returns (r: Result<Rectangle>)
      requires Valid() && SqrtOutcome(target / Area(), root)
      ensures target < 0.0 ==> r == Failure(ValueError(DomainMessage))
      ensures target == 0.0 ==> r == Failure(ValueError(WidthMessage))
      ensures target > 0.0 ==> r.Success? && fresh(r.value) && r.value.kind == Plain && r.value.Valid()
      ensures r.Success? ==> r.value.width == width * root.value && r.value.height == height * root.value
      ensures r.Success? ==> r.value.Area() == target && r.value.AspectRatio() == AspectRatio()
    {
      QuotientSign(target, Area());
      if target < 0.0 {
        return Failure(root.error);
      }
      var s := root.value;
      var w1, h1 := width * s, height * s;
      AreaTargetReached(width, height, target, s, w1, h1);
      r := New(w1, h1);
    }

    /** scale_to_fit(maxWidth, maxHeight): a new Rectangle scaled by the smaller of the two
        ratios to the bounds. It exists exactly when both bounds are positive (otherwise the
        constructor rejects the width), lies within them, touches at least one and keeps
        the aspect ratio; it may be larger than this one. */
    method ScaleToFit(maxWidth: real, maxHeight: real) returns (r: Result<Rectangle>)
      requires Valid()
      ensures r.Success? <==> maxWidth > 0.0 && maxHeight > 0.0
      ensures r.Failure? ==> r.error == ValueError(WidthMessage)
      ensures r.Success? ==> fresh(r.value) && r.value.kind == Plain && r.value.Valid()
      ensures r.Success? ==> r.value.width <= maxWidth && r.value.height <= maxHeight
      ensures r.Success? ==> r.value.width == maxWidth || r.value.height == maxHeight
      ensures r.Success? ==> r.value.AspectRatio() == AspectRatio()
    {
      var widthScale := maxWidth / width;
      var heightScale := maxHeight / height;
      var scale := Min(widthScale, heightScale);
      var w1, h1 := width * scale, height * scale;
      FittedDimensions(width, height, maxWidth, maxHeight, scale, w1, h1);
      r := New(w1, h1);
    }

    /** rotate_90(): a new Rectangle with the dimensions swapped, so of the same area and
        the reciprocal aspect ratio; rotating that one again gives this one's dimensions. */
    method Rotate90() returns (t: Rectangle)
      requires Valid()
      ensures fresh(t) && t.kind == Plain && t.Valid()
      ensures t.width == height && t.height == width
      ensures t.Area() == Area() && t.AspectRatio() * AspectRatio() == 1.0
    {
      t := new Rectangle(height, width);
      ReciprocalAspect(width, height);
    }

    /** Rectangle.__imul__: both dimensions times sqrt(k) (`root`), so the area is
        multiplied by k and the aspect ratio is kept. */
    method MulAssignRectangle(ghost k: real, root: real)
      requires Valid() && kind == Plain && k > 0.0 && IsSqrt(k, root)
      modifies this
      ensures Valid() && side == old(side)
      ensures width == old(width) * root && height == old(height) * root
      ensures AreaOf(width, height) == k * AreaOf(old(width), old(height))
      ensures AspectOf(width, height) == AspectOf(old(width), old(height))
    {
      var w1, h1 := width * root, height * root;
      ScaledDimensions(width, height, k, root, w1, h1);
      width, height := w1, h1;
    }

    /** Square.__imul__: the side times sqrt(k), copied into both dimensions, so the
        square stays a square, its area is multiplied by k and its aspect ratio is kept. */
    method MulAssignSquare(ghost k: real, root: real)
      requires Valid() && kind == Square && k > 0.0 && IsSqrt(k, root)
      modifies this
      ensures Valid() && side == old(side) * root
      ensures width == old(width) * root && height == old(height) * root
      ensures AreaOf(width, height) == k * AreaOf(old(width), old(height))
      ensures AspectOf(width, height) == AspectOf(old(width), old(height))
    {
      var s1 := side * root;
      ScaledSquare(side, width, height, k, root, s1);
      side := s1;
      width := side;
      height := side;
    }

    /** __imul__, dispatched on the kind as Python dispatches on the class. */
    method MulAssign(ghost k: real, root: real)
      requires Valid() && k > 0.0 && IsSqrt(k, root)
      modifies this
      ensures Valid()
      ensures width == old(width) * root && height == old(height) * root
      ensures side == if kind == Square then old(side) * root else old(side)
      ensures AreaOf(width, height) == k * AreaOf(old(width), old(height))
      ensures AspectOf(width, height) == AspectOf(old(width), old(height))
    {
      if kind == Plain {
        MulAssignRectangle(k, root);
      } else {
        MulAssignSquare(k, root);
      }
    }

    /** __itruediv__ (inherited by Square): self *= 1 / k, where `inv` stands for the
        reciprocal 1 / k and `root` for its square root; the area is multiplied by inv,
        that is divided by k. */
    method DivAssign(k: real, root: real, ghost inv: real)
      requires Valid() && k > 0.0 && inv == 1.0 / k && IsSqrt(inv, root)
      modifies this
      ensures Valid()
      ensures width == old(width) * root && height == old(height) * root
      ensures side == if kind == Square then old(side) * root else old(side)
      ensures AreaOf(width, height) == inv * AreaOf(old(width), old(height))
      ensures AspectOf(width, height) == AspectOf(old(width), old(height))
    {
      MulAssign(inv, root);
    }

    /** The constructor call at the start of __mul__ and __truediv__: Rectangle(width,
        height), or Square(side) for a Square. */
    method Copy() returns (t: Rectangle)
      requires Valid()
      ensures fresh(t) && t.kind == kind && t.Valid()
      ensures t.width == width && t.height == height && (kind == Square ==> t.side == side)
    {
      if kind == Plain {
        t := new Rectangle(width, height);
      } else {
        t := new Rectangle.SquareOf(side);
      }
    }

    /** __mul__: a scaled copy of the same kind; the receiver is left unchanged. */
    method Mul(k: real, root: real) returns (t: Rectangle)
      requires Valid() && k > 0.0 && IsSqrt(k, root)
      ensures fresh(t) && t.kind == kind && t.Valid()
      ensures t.width == width * root && t.height == height * root
      ensures t.Area() == k * Area() && t.AspectRatio() == AspectRatio()
    {
      t := Copy();
      t.MulAssign(k, root);
    }

    /** __truediv__: a copy of the same kind scaled down by k; the receiver is left
        unchanged. */
    method Div(k: real, root: real, ghost inv: real) returns (t: Rectangle)
      requires Valid() && k > 0.0 && inv == 1.0 / k && IsSqrt(inv, root)
      ensures fresh(t) && t.kind == kind && t.Valid()
      ensures t.width == width * root && t.height == height * root
      ensures t.Area() == inv * Area() && t.AspectRatio() == AspectRatio()
    {
      t := Copy();
      t.DivAssign(k, root, inv);
    }

    /** __eq__: a TypeError for anything but a Rectangle, otherwise math.isclose on the
        widths and on the heights separately. */
    function Equals(other: Operand<Rectangle>): (r: Result<bool>)
      reads this, if other.Same? then {other.obj} else {}
      ensures r.Failure? <==> other.Foreign?
      ensures r.Failure? ==> r.error == MismatchError
      ensures r.Success? ==> (r.value <==> IsClose(width, other.obj.width) && IsClose(height, other.obj.height))
    {
      if other.Foreign? then Failure(MismatchError)
      else Success(IsClose(width, other.obj.width) && IsClose(height, other.obj.height))
    }

    /** __lt__: a TypeError for anything but a Rectangle; otherwise areas closer than
        AreaEpsilon count as equal, so this one is smaller exactly when its area is at
        least AreaEpsilon below the other's. */
    function Less(other: Operand<Rectangle>): (r: Result<bool>)
      reads this, if other.Same? then {other.obj} else {}
      requires Valid() && (other.Same? ==> other.obj.Valid())
      ensures r.Failure? <==> other.Foreign?
      ensures r.Failure? ==> r.error == MismatchError
      ensures r.Success? ==> (r.value <==> Area() <= other.obj.Area() - AreaEpsilon)
    {
      if other.Foreign? then Failure(MismatchError)
      else
        var areaDiff := Area() - other.obj.Area();
        if Abs(areaDiff) < AreaEpsilon then Success(false)
        else Success(areaDiff < 0.0)
    }

    /** __ge__ as functools.total_ordering derives it: the negation of __lt__, whose
        TypeError it passes on. */
    function GreaterOrEqual(other: Operand<Rectangle>): (r: Result<bool>)
      reads this, if other.Same? then {other.obj} else {}
      requires Valid() && (other.Same? ==> other.obj.Valid())
      ensures r.Failure? <==> other.Foreign?
      ensures r.Success? ==> (r.value <==> Area() > other.obj.Area() - AreaEpsilon)
    {
      var lt := Less(other);
      if lt.Failure? then lt else Success(!lt.value)
    }

    /** __gt__ as functools.total_ordering derives it: not __lt__ and not __eq__. Because
        __eq__ compares the sides and __lt__ the areas, two rectangles of equal area and
        different shape are each greater than the other. */
    function Greater(other: Operand<Rectangle>): (r: Result<bool>)
      reads this, if other.Same? then {other.obj} else {}
      requires Valid() && (other.Same? ==> other.obj.Valid())
      ensures r.Failure? <==> other.Foreign?
      ensures r.Success? ==> (r.value <==> Area() > other.obj.Area() - AreaEpsilon && !SameSides(this, other.obj))
    {
      var lt := Less(other);
      if lt.Failure? then lt else Success(!lt.value && !Equals(other).value)
    }

    /** __le__ as functools.total_ordering derives it: __lt__ or __eq__. */
    function LessOrEqual(other: Operand<Rectangle>): (r: Result<bool>)
      reads this, if other.Same? then {other.obj} else {}
      requires Valid() && (other.Same? ==> other.obj.Valid())
      ensures r.Failure? <==> other.Foreign?
      ensures r.Success? ==> (r.value <==> Area() <= other.obj.Area() - AreaEpsilon || SameSides(this, other.obj))
    {
      var lt := Less(other);
      if lt.Failure? then lt else Success(lt.value || Equals(other).value)
    }

    /** The `>` the class evidently intends: the converse of __lt__, so this area is at least
        AreaEpsilon above the other's. */
    function Exceeds(other: Rectangle): (r: bool)
      reads this, other
      requires Valid() && other.Valid()
      ensures r <==> Area() >= other.Area() + AreaEpsilon
    {
      other.Less(Same(this)).value
    }

    /** The `<=` the class evidently intends: the negation of that `>`. */
    function AtMost(other: Rectangle): (r: bool)
      reads this, other
      requires Valid() && other.Valid()
      ensures r <==> Area() < other.Area() + AreaEpsilon
    {
      !Exceeds(other)
    }

    /** Every rectangle equals itself. */
    lemma EqualsReflexive()
      ensures Equals(Same(this)) == Success(true)
    {
      IsCloseReflexive(width);
      IsCloseReflexive(height);
    }

    /** Equality of two rectangles does not depend on the operand order. */
    lemma EqualsSymmetric(other: Rectangle)
      ensures Equals(Same(other)) == other.Equals(Same(this))
    {
      IsCloseSymmetric(width, other.width);
      IsCloseSymmetric(height, other.height);
    }

    /** __lt__ is irreflexive and asymmetric, and two rectangles whose areas differ by
        less than AreaEpsilon (equal areas in particular) are each >= the other. */
    lemma LessStrictOrder(other: Rectangle)
      requires Valid() && other.Valid()
      ensures Less(Same(this)) == Success(false)
      ensures Less(Same(other)).value ==> !other.Less(Same(this)).value
      ensures Abs(Area() - other.Area()) < AreaEpsilon ==>
        GreaterOrEqual(Same(other)) == Success(true) && other.GreaterOrEqual(Same(this)) == Success(true)
    {
    }
  }

  /** With the corrected `>` and `<=` the four comparisons form one order on areas: exactly
      one of `<`, `>` and "equal within AreaEpsilon" holds, `<` and `>` are converses, and
      so are `<=` and `>=`. */
  lemma {:induction false} AreaOrderConsistent(x: Rectangle, y: Rectangle)
    requires x.Valid() && y.Valid()
    ensures x.Less(Same(y)).value <==> y.Exceeds(x)
    ensures x.AtMost(y) <==> y.GreaterOrEqual(Same(x)).value
    ensures x.Exceeds(y) <==> !x.AtMost(y)
    ensures !(x.Less(Same(y)).value && x.Exceeds(y))
    ensures !x.Less(Same(y)).value && !x.Exceeds(y) <==> Abs(x.Area() - y.Area()) < AreaEpsilon
  {
  }

  /** __eq__'s test on two rectangles: math.isclose on the widths and on the heights. */
  predicate SameSides(x: Rectangle, y: Rectangle)
    reads x, y
  {
    IsClose(x.width, y.width) && IsClose(x.height, y.height)
  }

  /** Whether CPython tries the right operand's reflected method first: the right operand's
      class is a proper subclass of the left one's, which here means a Square on the right
      of a plain Rectangle. */
  predicate ReflectedFirst(x: Rectangle, y: Operand<Rectangle>) {
    y.Same? && x.kind == Plain && y.obj.kind == Square
  }

  /** The expression x < y: Square's inherited __gt__ on (y, x) when that is tried first,
      otherwise x.__lt__(y). */
  function LessOp(x: Rectangle, y: Operand<Rectangle>): (r: Result<bool>)
    reads x, if y.Same? then {y.obj} else {}
    requires x.Valid() && (y.Same? ==> y.obj.Valid())
    ensures r.Failure? <==> y.Foreign?
    ensures r.Failure? ==> r.error == MismatchError
    ensures r.Success? && !ReflectedFirst(x, y) ==> (r.value <==> x.Area() <= y.obj.Area() - AreaEpsilon)
    ensures ReflectedFirst(x, y) ==> r.Success? && (r.value <==>
      (x.Area() < y.obj.Area() + AreaEpsilon && !SameSides(y.obj, x)))
  {
    if ReflectedFirst(x, y) then y.obj.Greater(Same(x)) else x.Less(y)
  }

  /** The expression x > y: Square's __lt__ on (y, x) when that is tried first, otherwise
      the derived x.__gt__(y). */
  function GreaterOp(x: Rectangle, y: Operand<Rectangle>): (r: Result<bool>)
    reads x, if y.Same? then {y.obj} else {}
    requires x.Valid() && (y.Same? ==> y.obj.Valid())
    ensures r.Failure? <==> y.Foreign?
    ensures r.Success? && !ReflectedFirst(x, y) ==> (r.value <==>
      (x.Area() > y.obj.Area() - AreaEpsilon && !SameSides(x, y.obj)))
    ensures ReflectedFirst(x, y) ==> r.Success? && (r.value <==> x.Area() >= y.obj.Area() + AreaEpsilon)
  {
    if ReflectedFirst(x, y) then y.obj.Less(Same(x)) else x.Greater(y)
  }

  /** The expression x <= y: Square's derived __ge__ on (y, x) when that is tried first,
      otherwise the derived x.__le__(y). */
  function LessEqualOp(x: Rectangle, y: Operand<Rectangle>): (r: Result<bool>)
    reads x, if y.Same? then {y.obj} else {}
    requires x.Valid() && (y.Same? ==> y.obj.Valid())
    ensures r.Failure? <==> y.Foreign?
    ensures r.Success? && !ReflectedFirst(x, y) ==> (r.value <==>
      (x.Area() <= y.obj.Area() - AreaEpsilon || SameSides(x, y.obj)))
    ensures ReflectedFirst(x, y) ==> r.Success? && (r.value <==> x.Area() < y.obj.Area() + AreaEpsilon)
  {
    if ReflectedFirst(x, y) then y.obj.GreaterOrEqual(Same(x)) else x.LessOrEqual(y)
  }

  /** The expression x >= y: Square's derived __le__ on (y, x) when that is tried first,
      otherwise the derived x.__ge__(y). */
  function GreaterEqualOp(x: Rectangle, y: Operand<Rectangle>): (r: Result<bool>)
    reads x, if y.Same? then {y.obj} else {}
    requires x.Valid() && (y.Same? ==> y.obj.Valid())
    ensures r.Failure? <==> y.Foreign?
    ensures r.Success? && !ReflectedFirst(x, y) ==> (r.value <==> x.Area() > y.obj.Area() - AreaEpsilon)
    ensures ReflectedFirst(x, y) ==> r.Success? && (r.value <==>
      (x.Area() >= y.obj.Area() + AreaEpsilon || SameSides(y.obj, x)))
  {
    if ReflectedFirst(x, y) then y.obj.LessOrEqual(Same(x)) else x.GreaterOrEqual(y)
  }

  /** Between two plain rectangles, or with the Square on the left, the operators are the
      left operand's methods, so `<` and `>=` compare the areas as __lt__ does. */
  lemma {:induction false} OperatorsByArea(x: Rectangle, y: Rectangle)
    requires x.Valid() && y.Valid() && !(x.kind == Plain && y.kind == Square)
    ensures LessOp(x, Same(y)) == Success(x.Area() <= y.Area() - AreaEpsilon)
    ensures GreaterEqualOp(x, Same(y)) == Success(x.Area() > y.Area() - AreaEpsilon)
  {
  }

  /** A plain Rectangle and a Square of the same area, 16: Square(4) >= Rectangle(2, 8)
      holds, but Rectangle(2, 8) >= Square(4) runs Square's __le__ and is false, although
      the Rectangle's own __ge__ says true. Likewise Rectangle(2, 0.5) < Square(1), both of
      area 1, runs Square's __gt__ and is true, although the Rectangle's __lt__ says false. */
  lemma {:induction false} SquareOnTheRight(r: Rectangle, s: Rectangle, u: Rectangle, t: Rectangle)
    requires r.kind == Plain && r.width == 2.0 && r.height == 8.0 && r.Valid()
    requires s.kind == Square && s.side == 4.0 && s.Valid()
    requires u.kind == Plain && u.width == 2.0 && u.height == 0.5 && u.Valid()
    requires t.kind == Square && t.side == 1.0 && t.Valid()
    ensures GreaterEqualOp(s, Same(r)) == Success(true)
    ensures GreaterEqualOp(r, Same(s)) == Success(false)
    ensures r.GreaterOrEqual(Same(s)) == Success(true)
    ensures LessOp(u, Same(t)) == Success(true)
    ensures u.Less(Same(t)) == Success(false)
  {
    assert !IsClose(4.0, 2.0) && !IsClose(1.0, 2.0);
  }

  /** Rectangle(4, 6) and Rectangle(3, 8) have the same area, 24, and different sides, so
      the derived `>` holds both ways and the derived `<=` neither way. */
  lemma {:induction false} SameAreaDifferentShape(r: Rectangle, s: Rectangle)
    requires r.kind == Plain && r.width == 4.0 && r.height == 6.0 && r.Valid()
    requires s.kind == Plain && s.width == 3.0 && s.height == 8.0 && s.Valid()
    ensures GreaterOp(r, Same(s)) == Success(true) && GreaterOp(s, Same(r)) == Success(true)
    ensures LessEqualOp(r, Same(s)) == Success(false) && LessEqualOp(s, Same(r)) == Success(false)
    ensures !r.Exceeds(s) && !s.Exceeds(r) && r.AtMost(s) && s.AtMost(r)
  {
    assert !IsClose(4.0, 3.0);
    assert !IsClose(3.0, 4.0);
  }

  /** x * y <= 0 for positive x and non-positive y. */
  lemma NonPositiveProduct(x: real, y: real)
    requires x > 0.0 && y <= 0.0
    ensures x * y <= 0.0
  {
    NonNegativeProduct(x, -y);
  }

  /** The aspect ratios of w by h and h by w are reciprocal. */
  lemma {:induction false} ReciprocalAspect(w: real, h: real)
    requires w > 0.0 && h > 0.0
    ensures (h / w) * (w / h) == 1.0
  {
    QuotientTimes(h, w);
    QuotientTimes(w, h);
    assert (h / w) * (w / h) * (w * h) == (h / w * w) * (w / h * h);
    PositiveProduct(w, h);
    QuotientOfProduct((h / w) * (w / h), w * h, w * h);
  }

  /** Rectangle(4, 6) has area 24 and perimeter 20; Rectangle(6, 8) has inradius 3; a 5 by
      10 rectangle does not equal a 10 by 5 one. */
  lemma {:induction false} RectangleExamples(r: Rectangle, s: Rectangle, u: Rectangle, t: Rectangle)
    requires r.kind == Plain && r.width == 4.0 && r.height == 6.0 && r.Valid()
    requires s.kind == Plain && s.width == 6.0 && s.height == 8.0 && s.Valid()
    requires u.width == 5.0 && u.height == 10.0 && t.width == 10.0 && t.height == 5.0
    ensures r.Area() == 24.0 && r.Perimeter() == 20.0 && s.Inradius() == 3.0
    ensures u.Equals(Same(t)) == Success(false)
  {
  }
}
