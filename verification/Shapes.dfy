/** The closed set of shapes (circle, triangle, rectangle): their validating
    constructors, their areas, and the per-kind predicates and descriptions. */
module Shapes {
  import opened Wrappers
  import opened Sorting

  /** `math.pi`: the double nearest to π, written as its shortest decimal. */
  const Pi: real := 3.141592653589793

  /** The fixed absolute tolerance of the right-angle and square checks, 1e-10. */
  const Tolerance: real := 0.0000000001

  /** A shape as it is stored. A triangle keeps its sides in argument order
      (for its description) and an ascending copy `sides` (for its arithmetic). */
  datatype Shape =
    | Circle(radius: real)
    | Triangle(side1: real, side2: real, side3: real, sides: seq<real>)
    | Rectangle(width: real, height: real)

  /** Why a constructor refused its arguments; every case is a `ValueError`. */
  datatype ShapeError =
    | RadiusNotPositive
    | SideNotPositive
    | NotATriangle
    | DimensionNotPositive

  /** The common ending of the three positivity refusals. */
  const MustBePositive: string := " must be positive"

  /** The `ValueError` message of a refusal. Every refusal but the failed
      triangle inequality complains that something must be positive. */
  function Message(e: ShapeError): (m: string)
    ensures e != NotATriangle <==> |m| >= |MustBePositive| && m[|m| - |MustBePositive|..] == MustBePositive
  {
    match e
    case RadiusNotPositive => "Radius" + MustBePositive
    case SideNotPositive => "All sides" + MustBePositive
    case NotATriangle =>
      var m := "Sides don't form a valid triangle";
      assert m[|m| - 2] == 'l' && MustBePositive[|MustBePositive| - 2] == 'v';
      m
    case DimensionNotPositive => "Width and height" + MustBePositive
  }

  /** The four refusals carry four different messages, so a caller can tell
      a non-positive side from a failed triangle inequality. */
  lemma MessagesDistinct(e1: ShapeError, e2: ShapeError)
    ensures Message(e1) == Message(e2) <==> e1 == e2
  {
  }

  function Abs(x: real): real {
    if x < 0.0 then -x else x
  }

  /** `x ** n` for a natural exponent. */
  function Power(x: real, n: nat): real {
    if n == 0 then 1.0 else x * Power(x, n - 1)
  }

  /** The sum of any two sides is strictly greater than the third. */
  predicate StrictTriangle(a: real, b: real, c: real) {
    a + b > c && b + c > a && a + c > b
  }

  /** What a constructed shape satisfies: the object invariant. */
  predicate Valid(shape: Shape) {
    match shape
    case Circle(r) => r > 0.0
    case Triangle(a, b, c, sorted) =>
      && a > 0.0 && b > 0.0 && c > 0.0 && StrictTriangle(a, b, c)
      && |sorted| == 3 && Ascending(sorted) && multiset(sorted) == multiset{a, b, c}
    case Rectangle(w, h) => w > 0.0 && h > 0.0
  }

  /** The class name of the shape's kind; each kind has its own name. */
  function KindName(shape: Shape): (name: string)
    ensures name == "Circle" <==> shape.Circle?
    ensures name == "Triangle" <==> shape.Triangle?
    ensures name == "Rectangle" <==> shape.Rectangle?
  {
    match shape
    case Circle(_) => "Circle"
    case Triangle(_, _, _, _) => "Triangle"
    case Rectangle(_, _) => "Rectangle"
  }

  // ---------------------------------------------------------------- constructors

  function NewCircle(radius: real): (r: Result<Shape, ShapeError>)
    ensures r.Success? <==> radius > 0.0
    ensures r.Success? ==> r.value.Circle? && r.value.radius == radius && Valid(r.value)
    ensures r.Failure? ==> r.error == RadiusNotPositive
  {
    if radius <= 0.0 then Failure(RadiusNotPositive) else Success(Circle(radius))
  }

  /** Positivity is checked before the triangle inequality, so a non-positive
      side is always reported as such. */
  function NewTriangle(side1: real, side2: real, side3: real): (r: Result<Shape, ShapeError>)
    ensures r.Success? <==>
      && side1 > 0.0 && side2 > 0.0 && side3 > 0.0
      && side1 + side2 > side3 && side2 + side3 > side1 && side1 + side3 > side2
    ensures !(side1 > 0.0 && side2 > 0.0 && side3 > 0.0) ==> r == Failure(SideNotPositive)
    ensures side1 > 0.0 && side2 > 0.0 && side3 > 0.0 && r.Failure? ==> r.error == NotATriangle
    ensures r.Success? ==>
      && r.value.Triangle?
      && r.value.side1 == side1 && r.value.side2 == side2 && r.value.side3 == side3
      && |r.value.sides| == 3
      && Ascending(r.value.sides)
      && multiset(r.value.sides) == multiset{side1, side2, side3}
      && Valid(r.value)
  {
    if !(side1 > 0.0 && side2 > 0.0 && side3 > 0.0) then
      Failure(SideNotPositive)
    else if side1 + side2 <= side3 || side2 + side3 <= side1 || side1 + side3 <= side2 then
      Failure(NotATriangle)
    else
      Success(Triangle(side1, side2, side3, Sort([side1, side2, side3])))
  }

  function NewRectangle(width: real, height: real): (r: Result<Shape, ShapeError>)
    ensures r.Success? <==> width > 0.0 && height > 0.0
    ensures r.Success? ==>
      r.value.Rectangle? && r.value.width == width && r.value.height == height && Valid(r.value)
    ensures r.Failure? ==> r.error == DimensionNotPositive
  {
    if width <= 0.0 || height <= 0.0 then Failure(DimensionNotPositive)
    else Success(Rectangle(width, height))
  }

  // ---------------------------------------------------------------- area

  /** A real square root, as `math.sqrt` computes it on non-negative input. */
  ghost predicate IsSqrt(sqrt: real -> real) {
    forall x :: 0.0 <= x ==> 0.0 <= sqrt(x) && Power(sqrt(x), 2) == x
  }

  /** Heron's s(s-a)(s-b)(s-c), s the semi-perimeter (a+b+c)/2. */
  function Heron(a: real, b: real, c: real): real {
    var s := (a + b + c) / 2.0;
    s * (s - a) * (s - b) * (s - c)
  }

  /** Heron's radicand over the sorted sides, as a triangle computes it. */
  function HeronRadicand(t: Shape): real
    requires t.Triangle? && |t.sides| == 3
  {
    Heron(t.sides[0], t.sides[1], t.sides[2])
  }

  /** The area; the square root of a triangle's Heron radicand is taken by
      the `sqrt` it is given. A triangle's area depends on its sides only
      through Heron's formula, whatever order they were given in, and every
      area is positive (for a triangle, as soon as `sqrt` is a real root). */
  function Area(shape: Shape, sqrt: real -> real): (area: real)
    requires Valid(shape)
    ensures shape.Triangle? ==> area == sqrt(Heron(shape.side1, shape.side2, shape.side3))
    ensures !shape.Triangle? ==> area > 0.0
    ensures IsSqrt(sqrt) ==> area > 0.0
  {
    match shape
    case Circle(r) =>
      PowerPositive(r, 2);
      Pi * Power(r, 2)
    case Triangle(_, _, _, _) =>
      RootOfRadicand(shape, sqrt);
      sqrt(HeronRadicand(shape))
    case Rectangle(w, h) =>
      MulPositive(w, h);
      w * h
  }

  // ---------------------------------------------------------------- per-kind predicates

  /** The largest of three lengths. */
  function Longest(a: real, b: real, c: real): real {
    if a >= b && a >= c then a else if b >= c then b else c
  }

  /** Pythagoras on the sorted sides, within the fixed tolerance. Put in terms
      of the arguments: the squares of the two shorter sides add up to the
      square of the longest one, to within the tolerance, whatever order the
      sides were given in. */
  function IsRightTriangle(t: Shape): (right: bool)
    requires t.Triangle? && Valid(t)
    ensures var a, b, c := t.side1, t.side2, t.side3;
      right <==> Abs(Power(a, 2) + Power(b, 2) + Power(c, 2) - 2.0 * Power(Longest(a, b, c), 2)) < Tolerance
  {
    SortedSquares(t);
    var a, b, c := t.sides[0], t.sides[1], t.sides[2];
    Abs(Power(a, 2) + Power(b, 2) - Power(c, 2)) < Tolerance
  }

  /** Width and height agree to within the fixed tolerance, in either direction. */
  function IsSquare(rect: Shape): (square: bool)
    requires rect.Rectangle?
    ensures square <==> -Tolerance < rect.height - rect.width < Tolerance
    ensures rect.width == rect.height ==> square
  {
    Abs(rect.width - rect.height) < Tolerance
  }

  // ---------------------------------------------------------------- descriptions

  /** The textual form of a shape; `show` renders one number the way `str`
      does. A triangle shows its sides in argument order. */
  function Describe(shape: Shape, show: real -> string): (d: string)
    ensures KindName(shape) + "(" <= d
    ensures d[|d| - 1] == ')'
  {
    match shape
    case Circle(r) => "Circle(radius=" + show(r) + ")"
    case Triangle(a, b, c, _) =>
      "Triangle(sides=" + show(a) + ", " + show(b) + ", " + show(c) + ")"
    case Rectangle(w, h) => "Rectangle(width=" + show(w) + ", height=" + show(h) + ")"
  }

  // ---------------------------------------------------------------- properties

  lemma Permutation2(y: real, z: real, b: real, c: real)
    requires multiset{y, z} == multiset{b, c}
    ensures (y == b && z == c) || (y == c && z == b)
  {
    assert y in multiset{b, c};
    if y == b {
      assert multiset{z} == multiset{y, z} - multiset{y} == multiset{c};
      assert z in multiset{c};
    } else {
      assert multiset{z} == multiset{y, z} - multiset{y} == multiset{b};
      assert z in multiset{b};
    }
  }

  lemma DropCommon(x: real, y: real, z: real, p: real, q: real)
    requires multiset{x, y, z} == multiset{x, p, q}
    ensures multiset{y, z} == multiset{p, q}
  {
    assert multiset{y, z} == multiset{x, y, z} - multiset{x};
    assert multiset{p, q} == multiset{x, p, q} - multiset{x};
  }

  /** Three values holding the same elements as (a, b, c) are one of its six orderings. */
  lemma Permutation3(x: real, y: real, z: real, a: real, b: real, c: real)
    requires multiset{x, y, z} == multiset{a, b, c}
    ensures || (x == a && y == b && z == c) || (x == a && y == c && z == b)
            || (x == b && y == a && z == c) || (x == b && y == c && z == a)
            || (x == c && y == a && z == b) || (x == c && y == b && z == a)
  {
    assert x in multiset{a, b, c};
    if x == a {
      DropCommon(x, y, z, b, c);
      Permutation2(y, z, b, c);
    } else if x == b {
      assert multiset{a, b, c} == multiset{b, a, c};
      DropCommon(x, y, z, a, c);
      Permutation2(y, z, a, c);
    } else {
      assert multiset{a, b, c} == multiset{c, a, b};
      DropCommon(x, y, z, a, b);
      Permutation2(y, z, a, b);
    }
  }

  /** The sorted copy of a constructed triangle is an ordering of its three arguments. */
  lemma SortedSidesAreArguments(t: Shape)
    requires t.Triangle? && Valid(t)
    ensures |t.sides| == 3
    ensures multiset{t.sides[0], t.sides[1], t.sides[2]} == multiset{t.side1, t.side2, t.side3}
  {
    assert t.sides == [t.sides[0], t.sides[1], t.sides[2]];
  }

  /** The last entry of a triangle's sorted copy is its longest argument, and
      the copy has the same sum of squares as the arguments. */
  lemma SortedSquares(t: Shape)
    requires t.Triangle? && Valid(t)
    ensures t.sides[2] == Longest(t.side1, t.side2, t.side3)
    ensures Power(t.sides[0], 2) + Power(t.sides[1], 2) + Power(t.sides[2], 2)
         == Power(t.side1, 2) + Power(t.side2, 2) + Power(t.side3, 2)
  {
    SortedSidesAreArguments(t);
    Permutation3(t.sides[0], t.sides[1], t.sides[2], t.side1, t.side2, t.side3);
    assert t.sides[0] <= t.sides[1] <= t.sides[2];
  }

  lemma MulPositive(x: real, y: real)
    requires x > 0.0 && y > 0.0
    ensures x * y > 0.0
  {
  }

  /** The strict triangle inequality makes every Heron factor s - side
      strictly positive, hence the radicand too. */
  lemma HeronFactors(a: real, b: real, c: real)
    requires a > 0.0 && b > 0.0 && c > 0.0 && StrictTriangle(a, b, c)
    ensures var s := (a + b + c) / 2.0; s > 0.0 && s - a > 0.0 && s - b > 0.0 && s - c > 0.0
    ensures Heron(a, b, c) > 0.0
  {
    var s := (a + b + c) / 2.0;
    assert s > 0.0 && s - a > 0.0 && s - b > 0.0 && s - c > 0.0;
    MulPositive(s, s - a);
    MulPositive(s * (s - a), s - b);
    MulPositive(s * (s - a) * (s - b), s - c);
  }

  /** Heron's formula does not depend on the order of the sides. */
  lemma HeronSymmetric(a: real, b: real, c: real)
    ensures Heron(a, b, c) == Heron(b, a, c) == Heron(a, c, b)
    ensures Heron(a, b, c) == Heron(b, c, a) == Heron(c, a, b) == Heron(c, b, a)
  {
    var s := (a + b + c) / 2.0;
    var u, v, w := s - a, s - b, s - c;
    assert Heron(a, b, c) == s * u * v * w;
    assert Heron(b, a, c) == s * v * u * w;
    assert Heron(a, c, b) == s * u * w * v;
    assert Heron(b, c, a) == s * v * w * u;
    assert Heron(c, a, b) == s * w * u * v;
    assert Heron(c, b, a) == s * w * v * u;
  }

  /** Reordering the sides changes neither their positivity nor the strict
      triangle inequality. */
  lemma ValidityPermuted(x: real, y: real, z: real, a: real, b: real, c: real)
    requires multiset{x, y, z} == multiset{a, b, c}
    ensures (x > 0.0 && y > 0.0 && z > 0.0) <==> (a > 0.0 && b > 0.0 && c > 0.0)
    ensures (x > 0.0 && y > 0.0 && z > 0.0 && StrictTriangle(x, y, z))
        <==> (a > 0.0 && b > 0.0 && c > 0.0 && StrictTriangle(a, b, c))
  {
    Permutation3(x, y, z, a, b, c);
  }

  /** Reordering the sides does not change Heron's radicand. */
  lemma HeronPermuted(x: real, y: real, z: real, a: real, b: real, c: real)
    requires multiset{x, y, z} == multiset{a, b, c}
    ensures Heron(x, y, z) == Heron(a, b, c)
  {
    Permutation3(x, y, z, a, b, c);
    HeronSymmetric(a, b, c);
  }

  /** For a constructed triangle every Heron factor over the sorted sides is
      strictly positive, and the radicand equals Heron's formula over the
      sides in argument order. */
  lemma HeronFactorsPositive(t: Shape)
    requires t.Triangle? && Valid(t)
    ensures var s := (t.sides[0] + t.sides[1] + t.sides[2]) / 2.0;
      && s > 0.0
      && s - t.sides[0] > 0.0 && s - t.sides[1] > 0.0 && s - t.sides[2] > 0.0
    ensures HeronRadicand(t) == Heron(t.side1, t.side2, t.side3)
    ensures HeronRadicand(t) > 0.0
  {
    SortedSidesAreArguments(t);
    var x, y, z := t.sides[0], t.sides[1], t.sides[2];
    ValidityPermuted(x, y, z, t.side1, t.side2, t.side3);
    HeronPermuted(x, y, z, t.side1, t.side2, t.side3);
    HeronFactors(x, y, z);
  }

  lemma SqrtPositive(sqrt: real -> real, x: real)
    requires IsSqrt(sqrt) && x > 0.0
    ensures sqrt(x) > 0.0
  {
    var r := sqrt(x);
    assert 0.0 <= r && Power(r, 2) == x;
    PowerTwo(r);
  }

  /** A positive base has positive powers. */
  lemma {:induction false} PowerPositive(x: real, n: nat)
    requires x > 0.0
    ensures Power(x, n) > 0.0
  {
    if n > 0 {
      PowerPositive(x, n - 1);
      MulPositive(x, Power(x, n - 1));
    }
  }

  /** The radicand a triangle takes the root of is Heron's formula over its
      arguments, and a real root of it is positive. */
  lemma RootOfRadicand(t: Shape, sqrt: real -> real)
    requires t.Triangle? && Valid(t)
    ensures HeronRadicand(t) == Heron(t.side1, t.side2, t.side3)
    ensures IsSqrt(sqrt) ==> sqrt(HeronRadicand(t)) > 0.0
  {
    HeronFactorsPositive(t);
    if IsSqrt(sqrt) {
      SqrtPositive(sqrt, HeronRadicand(t));
    }
  }

  /** The square of a triangle's area is Heron's radicand over its arguments. */
  lemma TriangleAreaSquared(t: Shape, sqrt: real -> real)
    requires t.Triangle? && Valid(t) && IsSqrt(sqrt)
    ensures Area(t, sqrt) >= 0.0
    ensures Power(Area(t, sqrt), 2) == Heron(t.side1, t.side2, t.side3)
  {
    var rad := Heron(t.side1, t.side2, t.side3);
    assert Area(t, sqrt) == sqrt(rad);
    HeronFactorsPositive(t);
    assert 0.0 <= sqrt(rad) && Power(sqrt(rad), 2) == rad;
  }

  /** Reordering a triangle's arguments changes nothing but the stored
      argument order: the verdict, the error, the sorted copy, the right-angle
      answer and the area are all the same. */
  lemma TriangleOrderIndependent(a: real, b: real, c: real, x: real, y: real, z: real, sqrt: real -> real)
    requires multiset{x, y, z} == multiset{a, b, c}
    ensures NewTriangle(x, y, z).Success? <==> NewTriangle(a, b, c).Success?
    ensures NewTriangle(x, y, z).Failure? ==> NewTriangle(x, y, z).error == NewTriangle(a, b, c).error
    ensures NewTriangle(a, b, c).Success? ==>
      var t, u := NewTriangle(a, b, c).value, NewTriangle(x, y, z).value;
      && t.sides == u.sides
      && IsRightTriangle(t) == IsRightTriangle(u)
      && Area(t, sqrt) == Area(u, sqrt)
  {
    TriangleVerdictOrderIndependent(a, b, c, x, y, z);
    if NewTriangle(a, b, c).Success? {
      SortedCopyOrderIndependent(a, b, c, x, y, z);
      SameSidesSameAnswers(NewTriangle(a, b, c).value, NewTriangle(x, y, z).value, sqrt);
    }
  }

  /** The area and the right-angle answer read only the sorted copy. */
  lemma SameSidesSameAnswers(t: Shape, u: Shape, sqrt: real -> real)
    requires t.Triangle? && u.Triangle? && Valid(t) && Valid(u)
    requires t.sides == u.sides
    ensures IsRightTriangle(t) == IsRightTriangle(u)
    ensures Area(t, sqrt) == Area(u, sqrt)
  {
  }

  lemma TriangleVerdictOrderIndependent(a: real, b: real, c: real, x: real, y: real, z: real)
    requires multiset{x, y, z} == multiset{a, b, c}
    ensures NewTriangle(x, y, z).Success? <==> NewTriangle(a, b, c).Success?
    ensures NewTriangle(x, y, z).Failure? ==> NewTriangle(x, y, z).error == NewTriangle(a, b, c).error
  {
    ValidityPermuted(x, y, z, a, b, c);
  }

  /** The sorted copy depends only on the multiset of the arguments. */
  lemma SortedCopyOrderIndependent(a: real, b: real, c: real, x: real, y: real, z: real)
    requires multiset{x, y, z} == multiset{a, b, c}
    ensures Sort([x, y, z]) == Sort([a, b, c])
  {
    assert multiset([a, b, c]) == multiset{a, b, c};
    assert multiset([x, y, z]) == multiset{x, y, z};
    AscendingUnique(Sort([a, b, c]), Sort([x, y, z]));
  }

  lemma MulMonotone(x1: real, y1: real, x2: real, y2: real)
    requires 0.0 < x2 <= x1 && 0.0 < y2 <= y1
    ensures x2 * y2 <= x1 * y1
  {
  }

  /** Squaring is monotone on positive reals. */
  lemma SquareMonotone(u: real, v: real)
    requires u > 0.0 && v > 0.0
    requires Power(u, 2) < Power(v, 2)
    ensures u < v
  {
    if v <= u {
      assert Power(u, 1) == u && Power(v, 1) == v;
      MulMonotone(u, Power(u, 1), v, Power(v, 1));
    }
  }

  /** An exact Pythagorean triple with the hypotenuse last (the legs in either
      order) is a right triangle. */
  lemma PythagoreanIsRight(a: real, b: real, c: real)
    requires NewTriangle(a, b, c).Success?
    requires Power(a, 2) + Power(b, 2) == Power(c, 2)
    ensures IsRightTriangle(NewTriangle(a, b, c).value)
  {
    var t := NewTriangle(a, b, c).value;
    SortedSidesAreArguments(t);
    var p, q, r := t.sides[0], t.sides[1], t.sides[2];
    Permutation3(p, q, r, a, b, c);
    assert p <= q <= r;
    assert c >= a && c >= b by {
      PowerPositive(a, 2);
      PowerPositive(b, 2);
      SquareMonotone(a, c);
      SquareMonotone(b, c);
    }
  }

  lemma PowerTwo(x: real)
    ensures Power(x, 2) == x * x
  {
    assert Power(x, 1) == x * Power(x, 0) == x;
  }

  lemma SameSquareSameRoot(r: real, k: real)
    requires r >= 0.0 && k >= 0.0 && r * r == k * k
    ensures r == k
  {
    if r > k {
      MulPositive(r - k, r + k);
      assert false;
    } else if r < k {
      MulPositive(k - r, k + r);
      assert false;
    }
  }

  /** A non-negative root of k ** 2 is k. */
  lemma RootIs(r: real, k: real)
    requires r >= 0.0 && k >= 0.0 && Power(r, 2) == Power(k, 2)
    ensures r == k
  {
    PowerTwo(r);
    PowerTwo(k);
    SameSquareSameRoot(r, k);
  }

  /** Arguments given in ascending order are kept as the sorted copy. */
  lemma AscendingArgumentsAreSorted(a: real, b: real, c: real)
    requires a <= b <= c && NewTriangle(a, b, c).Success?
    ensures NewTriangle(a, b, c).value.sides == [a, b, c]
  {
    var t := NewTriangle(a, b, c).value;
    SortedSidesAreArguments(t);
    Permutation3(t.sides[0], t.sides[1], t.sides[2], a, b, c);
    assert t.sides == [t.sides[0], t.sides[1], t.sides[2]];
  }

  /** The refusals the test suite expects, each with its reason. */
  lemma ConstructorExamples()
    ensures NewCircle(0.0) == Failure(RadiusNotPositive)
    ensures NewCircle(-1.0) == Failure(RadiusNotPositive)
    ensures NewTriangle(0.0, 4.0, 5.0) == Failure(SideNotPositive)
    ensures NewTriangle(-1.0, 4.0, 5.0) == Failure(SideNotPositive)
    ensures NewTriangle(1.0, 1.0, 3.0) == Failure(NotATriangle)
    ensures NewTriangle(1.0, 10.0, 2.0) == Failure(NotATriangle)
    ensures NewRectangle(0.0, 5.0) == Failure(DimensionNotPositive)
    ensures NewRectangle(4.0, -1.0) == Failure(DimensionNotPositive)
  {
  }

  /** The classic 3-4-5 triangle of the test suite is right. */
  lemma ThreeFourFiveIsRight()
    ensures IsRightTriangle(NewTriangle(3.0, 4.0, 5.0).value)
  {
    assert Longest(3.0, 4.0, 5.0) == 5.0;
    assert Power(3.0, 2) == 9.0 && Power(4.0, 2) == 16.0 && Power(5.0, 2) == 25.0;
  }

  /** The 5-12-13 triangle of the test suite is right. */
  lemma FiveTwelveThirteenIsRight()
    ensures IsRightTriangle(NewTriangle(5.0, 12.0, 13.0).value)
  {
    assert Longest(5.0, 12.0, 13.0) == 13.0;
    assert Power(5.0, 2) == 25.0 && Power(12.0, 2) == 144.0 && Power(13.0, 2) == 169.0;
  }

  /** The equilateral triangle of the test suite is not right. */
  lemma EquilateralNotRight()
    ensures !IsRightTriangle(NewTriangle(2.0, 2.0, 2.0).value)
  {
    RightTriangleOfAscending(2.0, 2.0, 2.0);
    assert Power(2.0, 2) == 4.0;
  }

  /** The scalene triangle (2, 3, 4) of the test suite is not right. */
  lemma ScaleneNotRight()
    ensures !IsRightTriangle(NewTriangle(2.0, 3.0, 4.0).value)
  {
    RightTriangleOfAscending(2.0, 3.0, 4.0);
    assert Power(2.0, 2) + Power(3.0, 2) - Power(4.0, 2) == -3.0;
  }

  /** For arguments given in ascending order the right-angle check reads them
      directly: the longest side is the last one. */
  lemma RightTriangleOfAscending(a: real, b: real, c: real)
    requires a <= b <= c && NewTriangle(a, b, c).Success?
    ensures IsRightTriangle(NewTriangle(a, b, c).value)
        <==> Abs(Power(a, 2) + Power(b, 2) - Power(c, 2)) < Tolerance
  {
    AscendingArgumentsAreSorted(a, b, c);
  }

  /** The circle and rectangle areas the test suite expects, exactly. */
  lemma AreaExamples(sqrt: real -> real)
    ensures Area(NewCircle(1.0).value, sqrt) == Pi
    ensures Area(NewCircle(2.0).value, sqrt) == 4.0 * Pi
    ensures Area(NewRectangle(4.0, 5.0).value, sqrt) == 20.0
    ensures Area(NewRectangle(3.0, 7.0).value, sqrt) == 21.0
  {
  }

  /** A triangle whose Heron radicand is k ** 2, k >= 0, has area k. */
  lemma TriangleAreaIs(a: real, b: real, c: real, k: real, sqrt: real -> real)
    requires NewTriangle(a, b, c).Success? && IsSqrt(sqrt)
    requires k >= 0.0 && Heron(a, b, c) == Power(k, 2)
    ensures Area(NewTriangle(a, b, c).value, sqrt) == k
  {
    var t := NewTriangle(a, b, c).value;
    TriangleAreaSquared(t, sqrt);
    RootIs(Area(t, sqrt), k);
  }

  /** Heron's formula on the test suite's triangles: 6 for (3, 4, 5), 30 for
      (5, 12, 13), and for (2, 2, 2) the non-negative root of 3. */
  lemma TriangleAreaExamples(sqrt: real -> real)
    requires IsSqrt(sqrt)
    ensures Area(NewTriangle(3.0, 4.0, 5.0).value, sqrt) == 6.0
    ensures Area(NewTriangle(5.0, 12.0, 13.0).value, sqrt) == 30.0
    ensures Area(NewTriangle(2.0, 2.0, 2.0).value, sqrt) >= 0.0
    ensures Power(Area(NewTriangle(2.0, 2.0, 2.0).value, sqrt), 2) == 3.0
  {
    TriangleAreaIs(3.0, 4.0, 5.0, 6.0, sqrt);
    TriangleAreaIs(5.0, 12.0, 13.0, 30.0, sqrt);
    TriangleAreaSquared(NewTriangle(2.0, 2.0, 2.0).value, sqrt);
  }

  /** `is_square` does not care which side is the width. */
  lemma IsSquareSymmetric(width: real, height: real)
    requires NewRectangle(width, height).Success?
    ensures NewRectangle(height, width).Success?
    ensures IsSquare(NewRectangle(width, height).value) == IsSquare(NewRectangle(height, width).value)
    ensures width == height ==> IsSquare(NewRectangle(width, height).value)
  {
  }

  lemma IsSquareExamples()
    ensures IsSquare(NewRectangle(5.0, 5.0).value)
    ensures !IsSquare(NewRectangle(3.0, 7.0).value)
  {
  }

  /** A triangle describes itself by its arguments in the order given, not by
      its sorted copy. */
  lemma TriangleDescriptionKeepsArgumentOrder(a: real, b: real, c: real, show: real -> string)
    requires NewTriangle(a, b, c).Success?
    ensures Describe(NewTriangle(a, b, c).value, show)
         == "Triangle(sides=" + show(a) + ", " + show(b) + ", " + show(c) + ")"
  {
  }

  /** The descriptions of the test suite, with `show` standing for `str`. */
  lemma DescriptionExamples(show: real -> string)
    ensures Describe(NewCircle(3.14).value, show) == "Circle(radius=" + show(3.14) + ")"
    ensures Describe(NewTriangle(3.0, 4.0, 5.0).value, show)
         == "Triangle(sides=" + show(3.0) + ", " + show(4.0) + ", " + show(5.0) + ")"
    ensures Describe(NewRectangle(3.0, 4.0).value, show)
         == "Rectangle(width=" + show(3.0) + ", height=" + show(4.0) + ")"
  {
    TriangleDescriptionKeepsArgumentOrder(3.0, 4.0, 5.0, show);
  }
}
