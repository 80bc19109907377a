# shapes in Dafny

A model of the `shapes` geometry package: value types for triangles, rectangles and circles.
Each type checks its parameters in its constructor and derives metrics from closed-form
formulas. It scales its *area* by a factor `k`, in place (`*=`, `/=`) or on a copy (`*`, `/`),
and it is compared by area. Five source files make up the core:

| Dafny file | module | source |
|---|---|---|
| `numeric.dfy` | `Numeric` | `math.sqrt`, `math.isclose`, `math.pi`, `abs`, `min` and the raised exceptions, shared by all shapes |
| `triangle.dfy` | `Triangles` | `shapes/triangle/triangle.py`: the abstract `Triangle` and `RightTriangle`, `AcuteTriangle`, `ObtuseTriangle` |
| `rectangle.dfy` | `Rectangles` | `shapes/rectangles/rectangle.py`: `Rectangle` and `Square` |
| `circle.dfy` | `Circles` | `shapes/circle/circle.py`: `Circle` |
| `legacy_circle.dfy` | `LegacyCircle` | `circle/circle.py`: the older `Circle` with a public radius |
| `legacy_triangle.dfy` | `LegacyTriangle` | `shapes/triangle.py`: the older, unvalidated `RightTriangle` |

How the model is built:

- Numbers are exact `real`s.
- Every square `x**2` is written `Sq(x)`.
- `math.pi` is the constant `Pi` (3.141592653589793).
- `math.isclose(x, y)` is `IsClose`, with CPython's defaults: relative tolerance 1e-9 and no absolute tolerance.
- **Square roots.** Each value `math.sqrt(x)` computes is a parameter of the member that uses it. The requirement `IsSqrt(x, r)` makes `r` the non-negative root, and `SqrtUnique` shows there is only one such `r`. `SqrtOutcome` also covers the `ValueError` for a negative argument, where the source can reach that case (`scale_to_area`).
- **Subclasses.** Each class hierarchy becomes one Dafny `class` with a `const kind`. Triangles have `RightTriangle`, `AcuteTriangle` and `ObtuseTriangle`; rectangles have `Plain` and `Square`.
- **Invariants.** `Valid()` is what the constructors establish. Fields the source updates in place are `var` fields, changed by `MulAssign`/`DivAssign` under `modifies this`.
- **Constructors.** A Dafny constructor is the field assignments that run after the checks. The static `New…` methods are the Python constructor calls: they return `Failure(ValueError(message))` exactly when the source raises.
- **Comparisons.** The right operand of `__eq__`/`__lt__` is an `Operand`: an object of the class (`Same`) or of any other class (`Foreign`). The result is a `TypeError`, or `NotImplemented` in the legacy circle, exactly where the source gives one.

## Model

| member | source | states |
|---|---|---|
| Numeric.SqrtUnique | shapes/triangle/triangle.py:95 | a value standing for `math.sqrt(x)` is determined by `x`, so the model's root parameters are exactly what `math.sqrt` returns |
| Numeric.SqrtStrictlyIncreasing | shapes/triangle/triangle.py:232-235 | square roots preserve and reflect strict order, so comparing Heron areas compares radicands |
| Numeric.SqrtOfScaledSquare | shapes/triangle/triangle.py:253-259 | the root of `f² · x` is `f` times the root of `x` for `f > 0` |
| Numeric.SqrtOfReciprocal | shapes/triangle/triangle.py:55-58 | `sqrt(1/k)` is the reciprocal of `sqrt(k)` for `k > 0`, so `/= k` undoes `*= k` |
| Numeric.SqrtOfProduct | shapes/triangle/triangle.py:253-259 | the root of a product is the product of the roots |
| Numeric.IsClose | shapes/rectangles/rectangle.py:130-132 | math.isclose with rel_tol 1e-9 and abs_tol 0; reflexive and symmetric by IsCloseReflexive and IsCloseSymmetric |
| Numeric.IsCloseReflexive | shapes/rectangles/rectangle.py:61 | `math.isclose(x, x)` holds for every `x` |
| Numeric.IsCloseSymmetric | shapes/rectangles/rectangle.py:130-132 | `math.isclose` does not depend on argument order |
| Triangles.AcuteCheck | shapes/triangle/triangle.py:222-228 | passes iff the three strict triangle inequalities and the three strict `x² + y² > z²` hold; the inequality message wins when both fail |
| Triangles.ObtuseCheck | shapes/triangle/triangle.py:310-319 | passes iff the triangle inequality holds and exactly one strict `x² + y² < z²` holds; the inequality message first |
| Triangles.ObtuseCount | shapes/triangle/triangle.py:315-316 | the number of strict `x² + y² < z²` comparisons that hold; with positive sides at most one holds |
| Triangles.TriangleSidesPositive | shapes/triangle/triangle.py:222-223 | sides passing the triangle-inequality check are all positive |
| Triangles.HeronRadicandPositive | shapes/triangle/triangle.py:232-235 | for sides passing the triangle inequality Heron's radicand `s(s-a)(s-b)(s-c)` is strictly positive |
| Triangles.ObtuseRejectsExactlyNone | shapes/triangle/triangle.py:315-319 | for a genuine triangle ObtuseTriangle rejects exactly when none of the three comparisons holds |
| Triangles.ScalingPreservesInequality | shapes/triangle/triangle.py:253-259 | scaling by `f > 0` keeps the triangle inequality, both ways |
| Triangles.ScalingPreservesAcute | shapes/triangle/triangle.py:253-259 | scaling by `f > 0` keeps the acute predicate of line 227, both ways |
| Triangles.ScalingPreservesObtuseCount | shapes/triangle/triangle.py:344-350 | scaling by `f > 0` leaves the obtuse count unchanged |
| Triangles.ScaledPythagoreanCompare | shapes/triangle/triangle.py:227 | comparing `x² + y²` with `z²` is invariant under scaling by `f > 0` |
| Triangles.ScaledSumCompare | shapes/triangle/triangle.py:222 | comparing `x + y` with `z` is invariant under scaling by `f > 0` |
| Triangles.RadicandScales | shapes/triangle/triangle.py:323-326 | Heron's radicand is homogeneous of degree four in the sides |
| Triangles.RightHeron | shapes/triangle/triangle.py:110-112 | for a right triangle Heron's radicand is the square of ½ab, whatever the signs of the legs |
| Triangles.RightHeronRoot | shapes/triangle/triangle.py:110-112 | with non-negative legs ½ab is the square root of Heron's radicand: the two area formulas agree there (a negative leg makes ½ab negative) |
| Triangles.AreaOf | shapes/triangle/triangle.py:110-112 | each kind's area; acute and obtuse areas are positive (also lines 232-235, 323-326) |
| Triangles.InradiusFacts | shapes/triangle/triangle.py:32-34 | area / (½ perimeter) times the semi-perimeter is the area; it is positive for acute and obtuse triangles and (a + b - c)/2 for a right one |
| Triangles.CircumradiusFacts | shapes/triangle/triangle.py:114-116 | c/2 for a right triangle and abc/(4 · area) otherwise both satisfy R · 4 · area = abc; positive for acute and obtuse triangles (also lines 237-239, 328-330) |
| Triangles.AltitudeFacts | shapes/triangle/triangle.py:241-251 | each altitude 2 · area / side is positive and times its side gives twice the area (also lines 332-342) |
| Triangles.HypotenuseAltitude | shapes/triangle/triangle.py:118-120 | ab/c times c is ab, and with positive legs it lies strictly between 0 and each leg |
| Triangles.AreaSquaresToRadicand | shapes/triangle/triangle.py:110-112 | every kind's area squares to Heron's radicand (also lines 232-235) |
| Triangles.ScalingPreservesShape | shapes/triangle/triangle.py:166-171 | scaling the sides by `f > 0` keeps each kind's constructor invariant (also lines 253-259, 344-350) |
| Triangles.AreaScales | shapes/triangle/triangle.py:166-171 | sides times `sqrt(m)` keep the invariant, make `m · heron` the new Heron root and multiply the area by exactly `m` (also lines 253-259, 344-350) |
| Triangles.HeronRootScales | shapes/triangle/triangle.py:253-259 | the Heron root of the scaled sides is `m` times the old root |
| Triangles.RightScaledShape | shapes/triangle/triangle.py:166-171 | `c = sqrt(a² + b²)` still holds after multiplying all sides by `f > 0` |
| Triangles.ProductScales | shapes/triangle/triangle.py:110-112 | ½ab scales by `f²` when both legs scale by `f` |
| Triangles.RightInradius | shapes/triangle/triangle.py:32-34 | for a right triangle area / (½ perimeter) is (a + b - c) / 2 |
| Triangles.RightCircumradius | shapes/triangle/triangle.py:114-116 | c/2 times 4 · ½ab is abc, the general circumradius relation |
| Triangles.LegShorterThanHypotenuse | shapes/triangle/triangle.py:95 | with positive legs the hypotenuse exceeds each leg |
| Triangles.RightAltitudeBounds | shapes/triangle/triangle.py:118-120 | the altitude ab/c lies strictly between 0 and each positive leg |
| Triangles.RatioIdentities | shapes/triangle/triangle.py:142-164 | sin² + cos² = 1, tan = sin/cos, and sec, csc, cot are the reciprocals of cos, sin, tan |
| Triangles.HypotenuseNonZero | shapes/triangle/triangle.py:142-148 | a right triangle with a non-zero leg has a non-zero hypotenuse |
| Triangles.UnitRatios | shapes/triangle/triangle.py:142-148 | (a/c)² + (b/c)² = 1 when c² = a² + b² |
| Triangles.RatioOfRatios | shapes/triangle/triangle.py:150-152 | a/b equals (a/c)/(b/c) |
| Triangles.ReciprocalRatio | shapes/triangle/triangle.py:154-164 | (x/y)(y/x) = 1 |
| Triangles.Triangle.Right | shapes/triangle/triangle.py:89-96 | RightTriangle(a, b) stores a, b and c = sqrt(a² + b²) with no validation |
| Triangles.Triangle.Acute | shapes/triangle/triangle.py:212-230 | fields set only after both checks pass |
| Triangles.Triangle.Obtuse | shapes/triangle/triangle.py:300-321 | fields set only after both checks pass |
| Triangles.Triangle.NewAcute | shapes/triangle/triangle.py:212-230 | succeeds iff AcuteCheck passes, else raises that check's ValueError |
| Triangles.Triangle.NewObtuse | shapes/triangle/triangle.py:300-321 | succeeds iff ObtuseCheck passes, else raises that check's ValueError |
| Triangles.Triangle.Perimeter | shapes/triangle/triangle.py:28-30 | positive for acute and obtuse triangles |
| Triangles.Triangle.Area | shapes/triangle/triangle.py:110-112 | positive for acute and obtuse triangles (also lines 232-235, 323-326) |
| Triangles.Triangle.Inradius | shapes/triangle/triangle.py:32-34 | area / (½ perimeter); its properties are stated by InradiusProperties and InradiusFacts |
| Triangles.Triangle.InradiusProperties | shapes/triangle/triangle.py:32-34 | the inradius of an acute or obtuse triangle is positive; a right triangle's is (a + b - c)/2 |
| Triangles.Triangle.Circumradius | shapes/triangle/triangle.py:114-116 | c/2 for a right triangle, abc/(4 · area) otherwise (also lines 237-239, 328-330); stated by CircumradiusProperties and CircumradiusFacts |
| Triangles.Triangle.CircumradiusProperties | shapes/triangle/triangle.py:237-239 | the circumradius of an acute or obtuse triangle is positive (also lines 328-330) |
| Triangles.Triangle.AltitudeA | shapes/triangle/triangle.py:241-243 | 2 · area / a (also lines 332-334); stated by AltitudeProperties and AltitudeFacts |
| Triangles.Triangle.AltitudeB | shapes/triangle/triangle.py:245-247 | 2 · area / b (also lines 336-338); stated by AltitudeProperties and AltitudeFacts |
| Triangles.Triangle.AltitudeC | shapes/triangle/triangle.py:249-251 | 2 · area / c (also lines 340-342); stated by AltitudeProperties and AltitudeFacts |
| Triangles.Triangle.AltitudeProperties | shapes/triangle/triangle.py:241-251 | the three altitudes of an acute or obtuse triangle are positive (also lines 332-342) |
| Triangles.Triangle.Altitude | shapes/triangle/triangle.py:118-120 | ab / c; stated by AltitudeToHypotenuse and HypotenuseAltitude |
| Triangles.Triangle.AltitudeToHypotenuse | shapes/triangle/triangle.py:118-120 | with positive legs the altitude to the hypotenuse is positive and shorter than both legs |
| Triangles.Triangle.Sin | shapes/triangle/triangle.py:142-144 | a / c; its identities are stated by TrigIdentities |
| Triangles.Triangle.Cos | shapes/triangle/triangle.py:146-148 | b / c; stated by TrigIdentities |
| Triangles.Triangle.Tan | shapes/triangle/triangle.py:150-152 | a / b, equal to sin / cos by TrigIdentities |
| Triangles.Triangle.Sec | shapes/triangle/triangle.py:154-156 | c / b, the reciprocal of cos by TrigIdentities |
| Triangles.Triangle.Cot | shapes/triangle/triangle.py:158-160 | b / a, the reciprocal of tan by TrigIdentities |
| Triangles.Triangle.Csc | shapes/triangle/triangle.py:162-164 | c / a, the reciprocal of sin by TrigIdentities |
| Triangles.Triangle.TrigIdentities | shapes/triangle/triangle.py:142-164 | sin() and cos() satisfy sin² + cos² = 1; tan = sin/cos; sec, csc, cot are reciprocals |
| Triangles.Triangle.MulAssign | shapes/triangle/triangle.py:166-171 | sides times sqrt(k); the object keeps its kind's invariant without re-validation, k · heron is the new Heron root, and the area becomes exactly k times the old (also lines 253-259, 344-350) |
| Triangles.Triangle.DivAssign | shapes/triangle/triangle.py:55-58 | `*= 1/k`: still valid, sides times sqrt(1/k), area times 1/k |
| Triangles.Triangle.Copy | shapes/triangle/triangle.py:175 | a fresh triangle of the same kind with the same sides (the rebuilt hypotenuse is c again) (also lines 263, 354) |
| Triangles.Triangle.Mul | shapes/triangle/triangle.py:173-177 | a fresh valid triangle of the same kind, sides times sqrt(k), with k times the area; the receiver is untouched (also lines 261-265, 352-356) |
| Triangles.Triangle.Div | shapes/triangle/triangle.py:179-183 | a fresh valid triangle of the same kind with the area times 1/k (also lines 267-271, 358-362) |
| Triangles.Triangle.Equals | shapes/triangle/triangle.py:60-68 | TypeError iff the operand is not the same kind (message names the kind), else isclose on a, b, c (also lines 185-190, 273-278, 364-369) |
| Triangles.Triangle.Less | shapes/triangle/triangle.py:70-74 | TypeError iff the operand is not the same kind, else area comparison (also lines 192-197, 280-285, 371-376) |
| Triangles.Triangle.EqualsReflexive | shapes/triangle/triangle.py:60-68 | every triangle equals itself |
| Triangles.Triangle.EqualsSymmetric | shapes/triangle/triangle.py:60-68 | equality is symmetric within one kind |
| Triangles.Triangle.LessStrictOrder | shapes/triangle/triangle.py:70-74 | `<` is irreflexive and asymmetric |
| Triangles.Triangle.LessByRadicand | shapes/triangle/triangle.py:70-74 | for acute/obtuse triangles `<` is the order of Heron radicands, whatever roots are used (also lines 232-235) |
| Triangles.RightThreeFour | shapes/triangle/triangle.py:95-164 | RightTriangle(3, 4): c 5, perimeter 12, area 6, inradius 1, circumradius 2.5, altitude 2.4, sin .6, cos .8, tan .75, sec 1.25 |
| Triangles.CheckExamples | shapes/triangle/triangle.py:222-228 | (1,2,10) fails the inequality; (3,4,5), (3,4,6) are not acute; (3,4,5), (5,6,7) are not obtuse (also lines 310-319) |
| Rectangles.Check | shapes/rectangles/rectangle.py:28-31 | passes iff both dimensions are positive; the width message wins |
| Rectangles.AreaScales | shapes/rectangles/rectangle.py:102-107 | both sides times sqrt(k) multiply the area by k |
| Rectangles.AspectScales | shapes/rectangles/rectangle.py:102-107 | scaling both sides by a positive factor keeps the aspect ratio |
| Rectangles.ScaledDimensions | shapes/rectangles/rectangle.py:102-107 | sides times sqrt(k) stay positive, the area is multiplied by k and the aspect ratio kept |
| Rectangles.ScaledSquare | shapes/rectangles/rectangle.py:188-193 | a square's side times sqrt(k) is each dimension times sqrt(k), positive, with k times the area and the same aspect ratio |
| Rectangles.AreaTargetReached | shapes/rectangles/rectangle.py:80-83 | sides times sqrt(t / area) give exactly area t, positive iff t > 0, and then the same aspect ratio |
| Rectangles.FitScalePositive | shapes/rectangles/rectangle.py:93-96 | the fit factor is positive iff both bounds are |
| Rectangles.FitWithinBounds | shapes/rectangles/rectangle.py:93-96 | the fitted sides are within the bounds and one of them meets its bound |
| Rectangles.FittedDimensions | shapes/rectangles/rectangle.py:93-96 | the fitted sides are positive iff both bounds are, then keep the aspect ratio; they lie within the bounds and touch one |
| Rectangles.SquareDiagonal | shapes/rectangles/rectangle.py:172-174 | side · sqrt(2) is the Rectangle diagonal sqrt(w² + h²) at w = h = side |
| Rectangles.ReciprocalAspect | shapes/rectangles/rectangle.py:98-100 | the rotated rectangle's aspect ratio is the reciprocal |
| Rectangles.Rectangle.constructor | shapes/rectangles/rectangle.py:28-33 | fields set only after both checks |
| Rectangles.Rectangle.SquareOf | shapes/rectangles/rectangle.py:158-166 | width = height = side after the Rectangle checks |
| Rectangles.Rectangle.New | shapes/rectangles/rectangle.py:20-33 | succeeds iff width > 0 and height > 0, otherwise the first failing check's ValueError |
| Rectangles.Rectangle.NewSquare | shapes/rectangles/rectangle.py:158-166 | succeeds iff side > 0, otherwise "Width must be positive" |
| Rectangles.Rectangle.Area | shapes/rectangles/rectangle.py:43-45 | positive |
| Rectangles.Rectangle.Perimeter | shapes/rectangles/rectangle.py:47-49 | at least four times the smaller side, exactly 4 · side for a Square |
| Rectangles.Rectangle.Diagonal | shapes/rectangles/rectangle.py:51-53 | both formulas give the root of w² + h² (also lines 172-174) |
| Rectangles.Rectangle.AspectRatio | shapes/rectangles/rectangle.py:55-57 | positive r with r · height = width |
| Rectangles.Rectangle.IsSquare | shapes/rectangles/rectangle.py:59-61 | isclose(width, height); always true for a Square |
| Rectangles.Rectangle.Circumradius | shapes/rectangles/rectangle.py:63-65 | twice it is the diagonal in both formulas (also lines 176-178) |
| Rectangles.Rectangle.Inradius | shapes/rectangles/rectangle.py:67-69 | both formulas give min(w, h)/2, positive and fitting both sides (also lines 180-182) |
| Rectangles.Rectangle.Apothem | shapes/rectangles/rectangle.py:184-186 | half the side, equal to the inradius |
| Rectangles.Rectangle.ScaleToArea | shapes/rectangles/rectangle.py:75-83 | negative target: math domain error; zero: width error; positive: a new Rectangle of exactly that area and the same aspect ratio |
| Rectangles.Rectangle.ScaleToFit | shapes/rectangles/rectangle.py:85-96 | succeeds iff both bounds are positive; within the bounds, touching one, same aspect ratio |
| Rectangles.Rectangle.Rotate90 | shapes/rectangles/rectangle.py:98-100 | a new Rectangle with swapped sides, same area, reciprocal aspect ratio (so rotating twice restores the sides) |
| Rectangles.Rectangle.MulAssignRectangle | shapes/rectangles/rectangle.py:102-107 | width and height times sqrt(k): still valid, area times k, aspect kept |
| Rectangles.Rectangle.MulAssignSquare | shapes/rectangles/rectangle.py:188-193 | side times sqrt(k) copied into both dimensions: still a square, area times k, aspect kept |
| Rectangles.Rectangle.MulAssign | shapes/rectangles/rectangle.py:102-107 | the kind's own `*=`: sides times sqrt(k), area times k, aspect kept; a Square keeps width = height = side (also lines 188-193) |
| Rectangles.Rectangle.DivAssign | shapes/rectangles/rectangle.py:109-112 | `*= 1/k` through the kind's own `*=`: still valid, area times 1/k, aspect kept |
| Rectangles.Rectangle.Copy | shapes/rectangles/rectangle.py:116 | a fresh object of the same kind and dimensions (also lines 122, 197, 203) |
| Rectangles.Rectangle.Mul | shapes/rectangles/rectangle.py:114-118 | a fresh copy of the same kind with k times the area and the same aspect ratio; the receiver is untouched (also lines 195-199) |
| Rectangles.Rectangle.Div | shapes/rectangles/rectangle.py:120-124 | a fresh copy of the same kind with the area times 1/k and the same aspect ratio (also lines 201-205) |
| Rectangles.Rectangle.Equals | shapes/rectangles/rectangle.py:126-132 | TypeError iff not a Rectangle, else isclose on widths and on heights separately |
| Rectangles.Rectangle.Less | shapes/rectangles/rectangle.py:134-143 | the method `__lt__` called on the receiver: TypeError iff not a Rectangle, else true iff the area is at least 1e-9 below the other's; the operator `<` is LessOp |
| Rectangles.Rectangle.GreaterOrEqual | shapes/rectangles/rectangle.py:134-143 | the method `__ge__` that total_ordering derives (line 16): true iff the area exceeds the other's minus 1e-9 |
| Rectangles.Rectangle.Greater | shapes/rectangles/rectangle.py:126-143 | the derived method `__gt__`, not `__lt__` and not `__eq__`: the area exceeds the other's minus 1e-9 and the sides are not both close |
| Rectangles.Rectangle.LessOrEqual | shapes/rectangles/rectangle.py:126-143 | the derived method `__le__`, `__lt__` or `__eq__`: the area is at least 1e-9 below, or both sides are close |
| Rectangles.Rectangle.Exceeds | shapes/rectangles/rectangle.py:134-143 | the `>` the class evidently intends, the converse of `__lt__`: the area is at least 1e-9 above the other's |
| Rectangles.Rectangle.AtMost | shapes/rectangles/rectangle.py:134-143 | the `<=` the class evidently intends, the negation of Exceeds: the area is less than the other's plus 1e-9 |
| Rectangles.Rectangle.EqualsReflexive | shapes/rectangles/rectangle.py:126-132 | every rectangle equals itself |
| Rectangles.Rectangle.EqualsSymmetric | shapes/rectangles/rectangle.py:126-132 | equality is symmetric |
| Rectangles.Rectangle.LessStrictOrder | shapes/rectangles/rectangle.py:134-143 | the methods: `__lt__` is irreflexive and asymmetric, and for areas within 1e-9 each receiver's `__ge__` says true |
| Rectangles.RectangleExamples | shapes/rectangles/rectangle.py:43-49 | 4×6 has area 24, perimeter 20; 6×8 has inradius 3; 5×10 ≠ 10×5 (also lines 67-69, 126-132) |
| Rectangles.AreaOrderConsistent | shapes/rectangles/rectangle.py:134-143 | with Exceeds and AtMost the comparisons form one area order: `<` and `>` are converses, so are `<=` and `>=`, and exactly one of `<`, `>`, equal-within-1e-9 holds |
| Rectangles.LessOp | shapes/rectangles/rectangle.py:134-143 | the operator `x < y`: `__lt__`'s area test, except that a Square right of a plain Rectangle runs the Square's derived `__gt__`, true iff the Rectangle's area is below the Square's plus 1e-9 and the sides differ |
| Rectangles.GreaterOp | shapes/rectangles/rectangle.py:16 | the operator `x > y`: the derived `__gt__`, or for a Square on the right the Square's `__lt__`, an area test |
| Rectangles.LessEqualOp | shapes/rectangles/rectangle.py:16 | the operator `x <= y`: the derived `__le__`, or for a Square on the right the Square's `__ge__`, an area test |
| Rectangles.GreaterEqualOp | shapes/rectangles/rectangle.py:16 | the operator `x >= y`: the derived `__ge__`, or for a Square on the right the Square's `__le__`, which also accepts close sides |
| Rectangles.OperatorsByArea | shapes/rectangles/rectangle.py:134-143 | without a Square right of a plain Rectangle, `<` and `>=` are exactly the area tests of `__lt__` and its negation |
| Rectangles.SquareOnTheRight | shapes/rectangles/rectangle.py:154-155 | Rectangle(2, 8) >= Square(4) is false while Square(4) >= Rectangle(2, 8) holds, and Rectangle(2, 0.5) < Square(1) holds, all of equal area |
| Rectangles.SameAreaDifferentShape | shapes/rectangles/rectangle.py:126-143 | Rectangle(4, 6) > Rectangle(3, 8) and the reverse both hold, and `<=` holds neither way, while Exceeds and AtMost order them as equal |
| Circles.CheckRadius | shapes/circle/circle.py:27-28 | passes iff radius > 0 |
| Circles.DiameterOf | shapes/circle/circle.py:35-37 | 2r; CircumferenceAndArea relates it to the circumference |
| Circles.CircumferenceOf | shapes/circle/circle.py:39-41 | 2πr, π times the diameter by CircumferenceAndArea |
| Circles.ArcLengthOf | shapes/circle/circle.py:47-52 | rθ; FullTurnAndZeroAngle gives the circumference at 2π and 0 at 0 |
| Circles.SectorAreaOf | shapes/circle/circle.py:54-59 | ½r²θ; FullTurnAndZeroAngle gives the area at 2π and 0 at 0 |
| Circles.AreaOf | shapes/circle/circle.py:43-45 | πr² is positive for a non-zero radius |
| Circles.CircumferenceAndArea | shapes/circle/circle.py:35-45 | circumference = π · diameter and area = ½ · circumference · r |
| Circles.FullTurnAndZeroAngle | shapes/circle/circle.py:47-59 | arc and sector of 2π are the circumference and the area; of 0 they are 0 |
| Circles.AreaScales | shapes/circle/circle.py:75-78 | radius times sqrt(k) multiplies the area by k |
| Circles.ScaledRadius | shapes/circle/circle.py:75-78 | a positive radius times sqrt(k) is positive and larger exactly when k > 1 |
| Circles.AreaOrder | shapes/circle/circle.py:103-107 | for positive radii the area order is the radius order |
| Circles.ScalingExamples | shapes/circle/circle.py:75-95 | Circle(3)·4 has radius 6, Circle(8)/4 radius 4, and `*4 /2` doubles the area |
| Circles.Circle.constructor | shapes/circle/circle.py:27-29 | the radius is stored only after the check |
| Circles.Circle.New | shapes/circle/circle.py:27-29 | succeeds iff radius > 0, otherwise "Radius must be positive" |
| Circles.Circle.Diameter | shapes/circle/circle.py:35-37 | DiameterOf on the radius |
| Circles.Circle.Circumference | shapes/circle/circle.py:39-41 | CircumferenceOf on the radius |
| Circles.Circle.Area | shapes/circle/circle.py:43-45 | AreaOf on the radius, positive; scaled by MulAssign and ordered by Less |
| Circles.Circle.ArcLength | shapes/circle/circle.py:47-52 | ArcLengthOf on the radius |
| Circles.Circle.SectorArea | shapes/circle/circle.py:54-59 | SectorAreaOf on the radius |
| Circles.Circle.MulAssign | shapes/circle/circle.py:75-78 | radius times sqrt(k), still valid, area times k |
| Circles.Circle.DivAssign | shapes/circle/circle.py:80-83 | `*= 1/k`: area divided by k |
| Circles.Circle.Mul | shapes/circle/circle.py:85-89 | a fresh valid circle, radius times sqrt(k), with k times the area; the receiver is untouched |
| Circles.Circle.LessThanScaled | shapes/circle/circle.py:85-89 | the receiver is `<` a circle scaled from it by k exactly when k > 1 (also lines 103-107) |
| Circles.Circle.Div | shapes/circle/circle.py:91-95 | a fresh circle with the area divided by k |
| Circles.Circle.Equals | shapes/circle/circle.py:97-101 | TypeError iff not a Circle, else isclose on the radii |
| Circles.Circle.Less | shapes/circle/circle.py:103-107 | TypeError iff not a Circle, else true iff its radius is smaller |
| Circles.Circle.EqualsReflexive | shapes/circle/circle.py:97-101 | every circle equals itself |
| Circles.Circle.EqualsSymmetric | shapes/circle/circle.py:97-101 | equality is symmetric |
| LegacyCircle.Circle.constructor | circle/circle.py:18-20 | the radius is stored only after the check |
| LegacyCircle.Circle.New | circle/circle.py:18-20 | succeeds iff radius > 0, otherwise "Radius must be positive" |
| LegacyCircle.Circle.Diameter | circle/circle.py:22-24 | the same formula as Circles.DiameterOf, on the public radius |
| LegacyCircle.Circle.Circumference | circle/circle.py:26-28 | the same formula as Circles.CircumferenceOf |
| LegacyCircle.Circle.Area | circle/circle.py:30-32 | the same formula as Circles.AreaOf; scaled by MulAssign |
| LegacyCircle.Circle.ArcLength | circle/circle.py:34-39 | the same formula as Circles.ArcLengthOf |
| LegacyCircle.Circle.SectorArea | circle/circle.py:41-46 | the same formula as Circles.SectorAreaOf |
| LegacyCircle.Circle.MulAssign | circle/circle.py:62-65 | radius times sqrt(k) whatever its value; area times k |
| LegacyCircle.Circle.DivAssign | circle/circle.py:67-70 | `*= 1/k`: area divided by k |
| LegacyCircle.Circle.Mul | circle/circle.py:72-76 | re-checks the current public radius: ValueError iff it is not positive, else a fresh circle with k times the area |
| LegacyCircle.Circle.Div | circle/circle.py:78-82 | the same re-check, else a fresh circle with the area divided by k |
| LegacyCircle.Circle.Equals | circle/circle.py:84-88 | NotImplemented iff not a Circle, else isclose on the radii |
| LegacyCircle.Circle.Less | circle/circle.py:90-94 | NotImplemented iff not a Circle; for positive radii the answer is the radius order |
| LegacyCircle.Circle.EqualsReflexive | circle/circle.py:84-88 | every circle equals itself, whatever its radius |
| LegacyCircle.Circle.EqualsSymmetric | circle/circle.py:84-88 | equality does not depend on the operand order |
| LegacyTriangle.ScaledRight | shapes/triangle.py:85-90 | scaling by sqrt(k) keeps c = sqrt(a² + b²) and multiplies ½ab by k |
| LegacyTriangle.RightTriangle.constructor | shapes/triangle.py:11-19 | stores a, b as given and c = sqrt(a² + b²) |
| LegacyTriangle.RightTriangle.Area | shapes/triangle.py:33-35 | ½ab; its relation to Heron's radicand is AreaIsHeron |
| LegacyTriangle.RightTriangle.Perimeter | shapes/triangle.py:37-39 | a + b + c; used by Inradius |
| LegacyTriangle.RightTriangle.Inradius | shapes/triangle.py:41-43 | r · ½ perimeter = area and 2r = a + b - c |
| LegacyTriangle.RightTriangle.Circumradius | shapes/triangle.py:45-47 | R · 4 · area = abc |
| LegacyTriangle.RightTriangle.Altitude | shapes/triangle.py:49-51 | h · c = 2 · area, and with positive legs 0 < h < a, b |
| LegacyTriangle.RightTriangle.Sin | shapes/triangle.py:61-63 | a / c; stated by TrigIdentities |
| LegacyTriangle.RightTriangle.Cos | shapes/triangle.py:65-67 | b / c; stated by TrigIdentities |
| LegacyTriangle.RightTriangle.Tan | shapes/triangle.py:69-71 | a / b, equal to sin / cos by TrigIdentities |
| LegacyTriangle.RightTriangle.Sec | shapes/triangle.py:73-75 | c / b, the reciprocal of cos by TrigIdentities |
| LegacyTriangle.RightTriangle.Cot | shapes/triangle.py:77-79 | b / a, the reciprocal of tan by TrigIdentities |
| LegacyTriangle.RightTriangle.Csc | shapes/triangle.py:81-83 | c / a, the reciprocal of sin by TrigIdentities |
| LegacyTriangle.RightTriangle.TrigIdentities | shapes/triangle.py:61-83 | sin² + cos² = 1, tan = sin/cos, sec, csc, cot are reciprocals of cos, sin, tan |
| LegacyTriangle.RightTriangle.MulAssign | shapes/triangle.py:85-90 | sides times sqrt(k): c = sqrt(a² + b²) still holds and the area is multiplied by k |
| LegacyTriangle.RightTriangle.DivAssign | shapes/triangle.py:92-95 | `*= 1/k`: relation kept, area times 1/k |
| LegacyTriangle.RightTriangle.Mul | shapes/triangle.py:97-101 | a fresh triangle rebuilt from (a, b) and scaled: k times the area |
| LegacyTriangle.RightTriangle.Div | shapes/triangle.py:103-107 | a fresh triangle rebuilt from (a, b) and scaled down: area times 1/k |
| LegacyTriangle.RightTriangle.Equals | shapes/triangle.py:109-111 | exact equality of a, b and c; EqualsByLegs reduces it to the legs |
| LegacyTriangle.RightTriangle.EqualsByLegs | shapes/triangle.py:109-111 | exact equality of a, b, c is equality of the legs for triangles keeping c = sqrt(a² + b²) |
| LegacyTriangle.RightTriangle.Less | shapes/triangle.py:113-115 | the areas ½ab compared exactly; LessByHeron relates it to Heron's radicand |
| LegacyTriangle.RightTriangle.AreaIsHeron | shapes/triangle.py:33-35 | ½ab squares to the Heron radicand, and with non-negative legs it is the radicand's root |
| LegacyTriangle.RightTriangle.LessByHeron | shapes/triangle.py:113-115 | for non-negative legs `<` is the order of the Heron radicands |
| LegacyTriangle.NegativeLeg | shapes/triangle.py:11-19 | RightTriangle(-3, 4) has area -6 and is `<` RightTriangle(3, 4), though both radicands are 36 |
| LegacyTriangle.ThreeFour | shapes/triangle.py:11-83 | RightTriangle(3, 4): c 5, area 6, perimeter 12, inradius 1, circumradius 2.5, altitude 2.4, sin .6, cos .8, tan .75, sec 1.25 |

## Left out

- Transcendental functions have no theory in the verifier and are not modelled: the `angle_a/b/c` methods (law of cosines with `math.acos`), `alpha`, `beta` and `angle_*` of the right triangles (`math.atan`), `Rectangle.angle_diagonal`, and `chord_length`/`segment_area` of both circles (`math.sin`).
- IEEE floating point: all arithmetic is over exact reals, so rounding, overflow and the float-exact test expectations are not captured; `float(x)` conversions are the identity.
- `math.sqrt` is not computed: each root is a parameter constrained to be the unique non-negative root (`IsSqrt`), so every member needing one takes it as an argument.
- `__str__`/`__repr__` (Python float formatting), `main.py` (a console demo that only prints) and `shapes/__init__.py` (package wiring) are not part of this model.
- The accessors `width()`, `height()`, `side()`, `radius()`, `adjacent()`, `opposite()` and `hypotenuse()` are field reads in the model.
- Triangles.Triangle.MulAssign: requires k > 0; the source never checks it, and `k = 0` silently produces zero-length sides while a negative `k` raises in `math.sqrt`. The same precondition is on Triangles.Triangle.DivAssign, Mul and Div.
- Rectangles.Rectangle.MulAssign: requires k > 0 for the same reason (zero sides for `k = 0`, a math domain error for `k < 0`); likewise its DivAssign, Mul and Div.
- Circles.Circle.MulAssign: requires k > 0 for the same reason; likewise its DivAssign, Mul and Div.
- LegacyTriangle.RightTriangle.MulAssign: requires k > 0 for the same reason; likewise its DivAssign, Mul and Div.
- Triangles.Triangle.DivAssign: the reciprocal `1 / scale` is an exact real passed alongside `k` as a ghost value `inv` with `inv == 1 / k`, and the area is stated as multiplied by `inv`; the same holds for Triangles.Triangle.Div, Rectangles.Rectangle.DivAssign and Div, and LegacyTriangle.RightTriangle.DivAssign and Div. In the `*=` of Triangles.Triangle, Rectangles.Rectangle and LegacyTriangle.RightTriangle the scale itself is ghost, since only its square root enters the computation; the two circles take it as an ordinary parameter.
- Triangles.Triangle.Inradius, Circumradius, AltitudeA, AltitudeB, AltitudeC and Altitude carry no contract of their own: their positivity and closed forms are stated by the class lemmas InradiusProperties, CircumradiusProperties, AltitudeProperties and AltitudeToHypotenuse, and the product relations (r · ½ perimeter = area, R · 4 · area = abc, h · side = 2 · area) by the value lemmas InradiusFacts, CircumradiusFacts, AltitudeFacts and HypotenuseAltitude over the same expressions.
- LegacyCircle.Circle.DivAssign: requires k != 0; the ZeroDivisionError of `1 / scale` is not modelled (nor in the other `DivAssign`s, which require k > 0).
- Triangles.Triangle.Inradius: requires a non-zero perimeter; for a right triangle with both legs 0 the source raises ZeroDivisionError, which is not modelled. The same holds for the altitude to a zero hypotenuse and the trig ratios with a zero denominator (Altitude, Sin, Cos, Tan, Sec, Cot, Csc, and LegacyTriangle.RightTriangle.Inradius).
- LegacyTriangle.RightTriangle.Equals and Less take another legacy RightTriangle; the AttributeError Python raises for an operand without `a`/`b`/`c` or `area` is not modelled.
- The right operand of a comparison is either an object of the same Dafny class or `Foreign`; a subclass of a triangle kind defined elsewhere cannot be expressed.
- Cross-kind triangle ordering (a RightTriangle compared with an AcuteTriangle) raises TypeError as the code is written; expectations elsewhere that such comparisons succeed are not followed.
- The `functools.total_ordering` operators `>`, `<=` and `>=` of the triangles and circles are not modelled. Neither module has a subclass relation between its comparable classes, so each such operator is the left operand's derived method: `>` is not `__lt__` and not `__eq__`, `<=` is `__lt__` or `__eq__`, `>=` is not `__lt__`. For Rectangle and Square all four operators are modelled (LessOp, GreaterOp, LessEqualOp, GreaterEqualOp).
- LegacyTriangle.RightTriangle.AreaIsHeron: states that ½ab is the Heron root only for non-negative legs, and LessByHeron orders by radicand only for non-negative legs. Neither RightTriangle validates its legs, so with a negative leg the area is negative and `<` is not Heron's order (NegativeLeg: RightTriangle(-3, 4) < RightTriangle(3, 4) with equal radicands). Triangles.RightHeronRoot has the same restriction.
- Rectangles.Rectangle.Less, GreaterOrEqual, Greater and LessOrEqual model the methods called on the receiver. The operators, with CPython's rule that a Square on the right of a plain Rectangle has its reflected method tried first, are LessOp, GreaterOp, LessEqualOp and GreaterEqualOp. The mutual `>=` of LessStrictOrder holds for the methods, not for the operator `>=` with a Square on the right (see Findings).
- Python typing and import quirks (the `Self` fallbacks, the unquoted forward annotation in `shapes/triangle.py`) have no counterpart.

## Findings

| source | as written | input that shows it | evidently intended | confidence | as-written member | corrected member |
|---|---|---|---|---|---|---|
| shapes/rectangles/rectangle.py:154-155 | Square subclasses Rectangle, so in `rect <op> square` CPython runs the Square's reflected method first, and total_ordering derives it from `__lt__` and `__eq__` | `Rectangle(2, 8) >= Square(4)` is False while `Square(4) >= Rectangle(2, 8)` is True; `Rectangle(2, 0.5) < Square(1)` is True; all areas equal | the comparison is by area with a 1e-9 tolerance, whichever operand is the Square | medium, not executed | Rectangles.SquareOnTheRight | Rectangles.Rectangle.LessStrictOrder |
| shapes/rectangles/rectangle.py:126-143 | total_ordering derives `>` as not `__lt__` and not `__eq__`, and `<=` as `__lt__` or `__eq__`, but `__eq__` compares the sides while `__lt__` compares the areas | `Rectangle(4, 6) > Rectangle(3, 8)` and `Rectangle(3, 8) > Rectangle(4, 6)` are both True; `<=` is False both ways | `>` is the converse of `<` and `<=` the converse of `>=`, all by area | medium, not executed | Rectangles.SameAreaDifferentShape | Rectangles.AreaOrderConsistent |
