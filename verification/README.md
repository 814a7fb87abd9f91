# Geometry shapes, modelled in Dafny

A model of a small shape library. It has three kinds of shape:

- a circle, given by its radius;
- a triangle, given by three sides;
- a rectangle, given by its width and height.

Each kind is built by a validating constructor and can report its area and a textual description. A triangle can also say whether it is right-angled, and a rectangle whether it is a square. A stateless calculator works on shapes of any kind. It computes one shape's area, the total area of a list of shapes, and an information record (a dictionary) for one shape.

Files:

- `Wrappers.dfy`: the `Result` type. A constructor that refuses its arguments (Python's `ValueError`) returns `Failure` with a `ShapeError`, declared in `Shapes.dfy`. `Message` maps each `ShapeError` to the exact text of its `ValueError`.
- `Sorting.dfy`: the ascending sort that a triangle uses to keep a canonical copy of its sides. It is proved to return an ascending permutation of its input, and that permutation is unique.
- `Shapes.dfy`: the `Shape` datatype, its invariant `Valid`, the constructors, `Area`, `IsRightTriangle`, `IsSquare` and `Describe`. It also holds the properties of these, and the test suite's concrete cases as lemmas.
- `Calculator.dfy`:
  - `CalculateArea`;
  - `TotalArea`, the reference sum, with its algebra;
  - the method `CalculateTotalArea`, a left-to-right loop proved equal to the reference;
  - `GetShapeInfo`, which builds a `map<Field, InfoValue>`. Each `Field` stands for one of the dictionary's string keys, given by `Key`.

Numbers are exact reals, not IEEE doubles. `math.sqrt` is a foreign call: the triangle's area takes the square root as a parameter `sqrt`. Lemmas that need its meaning require the ghost predicate `IsSqrt(sqrt)`, meaning a non-negative root of every non-negative real. In the same way, Python's `str` of a number is a parameter `show`. `math.pi` is the constant `Pi = 3.141592653589793`. The tolerance `1e-10` is the constant `Tolerance`.

## Model

| member | source | states |
|---|---|---|
| Shapes.NewCircle | geometry_shapes.py:32-34 | A circle is built iff the radius is strictly positive. The radius is kept. Otherwise the refusal is "Radius must be positive". |
| Shapes.NewTriangle | geometry_shapes.py:56-65 | A triangle is built iff all three sides are positive and each pair of sides sums to strictly more than the third. Positivity is checked first, so any non-positive side gives "All sides must be positive" even when the inequality also fails. Positive sides that fail the inequality give "Sides don't form a valid triangle". On success the sides are kept in argument order, and `sides` is an ascending permutation of them. |
| Shapes.NewRectangle | geometry_shapes.py:155-158 | A rectangle is built iff width and height are both positive. Both are kept. Otherwise the refusal is "Width and height must be positive". |
| Shapes.Message | geometry_shapes.py:32-33 | The text of each refusal: "Radius must be positive" (line 33), "All sides must be positive" (57), "Sides don't form a valid triangle" (62), "Width and height must be positive" (156). Every refusal except the failed triangle inequality ends in " must be positive", and that one does not. |
| Shapes.KindName | geometry_shapes.py:128 | `type(shape).__name__`: "Circle", "Triangle" or "Rectangle". Each name is given by exactly one kind, in both directions. |
| Shapes.MessagesDistinct | geometry_shapes.py:56-62 | Two refusals carry the same message iff they are the same refusal. So "not positive" and "not a triangle" can be told apart. |
| Sorting.Sort | geometry_shapes.py:64 | `sorted` returns a sequence of the same length that is ascending and a permutation (same multiset) of its input. |
| Sorting.AscendingUnique | geometry_shapes.py:64 | Two ascending sequences with the same elements are equal. So the sorted copy depends only on which sides were given, not their order. |
| Shapes.SortedSidesAreArguments | geometry_shapes.py:64-65 | A triangle's sorted copy holds exactly its three arguments, with multiplicity. |
| Shapes.AscendingArgumentsAreSorted | geometry_shapes.py:64 | Sides passed in ascending order are stored unchanged as the sorted copy. |
| Shapes.HeronFactorsPositive | geometry_shapes.py:67-70 | For a built triangle, the semi-perimeter exceeds each sorted side, so every Heron factor is strictly positive. The radicand is positive and equals Heron's formula over the sides in argument order. |
| Shapes.HeronSymmetric | geometry_shapes.py:69-70 | Heron's radicand is the same under all six orderings of the sides. |
| Shapes.Area | geometry_shapes.py:67-70 | The area: πr² for a circle (lines 36-38), w·h for a rectangle (160-162), and for a triangle the root of Heron's radicand. A triangle's area is the root of Heron's formula over its arguments in the order given, although the code computes it over the sorted copy. Circle and rectangle areas are strictly positive. Every area is strictly positive when `sqrt` is a real square root. TriangleAreaSquared, TriangleOrderIndependent and the example lemmas state more about it. |
| Shapes.RootOfRadicand | geometry_shapes.py:69-70 | The radicand over the sorted sides equals Heron's formula over the arguments. A real square root of it is strictly positive. |
| Shapes.TriangleAreaSquared | geometry_shapes.py:67-70 | A triangle's area is non-negative, and its square is Heron's radicand over the argument sides. |
| Shapes.TriangleOrderIndependent | geometry_shapes.py:56-79 | Permuting a triangle's arguments changes none of these: whether it is built, the refusal, the sorted copy, the right-angle verdict, the area. |
| Shapes.ValidityPermuted | geometry_shapes.py:56-62 | Both constructor checks, positivity and the strict triangle inequality, give the same verdict for any ordering of the sides. |
| Shapes.IsRightTriangle | geometry_shapes.py:72-79 | Pythagoras on the sorted sides within 1e-10. In terms of the arguments in any order: a²+b²+c² − 2·(longest)² lies strictly within 1e-10 of zero, that is, the two shorter squares add up to the longest square. Both directions. TriangleOrderIndependent, PythagoreanIsRight and RightTriangleOfAscending state more about it. |
| Shapes.SortedSquares | geometry_shapes.py:64-79 | The last entry of the sorted copy is the longest argument. The sorted copy has the same sum of squares as the arguments. |
| Shapes.PythagoreanIsRight | geometry_shapes.py:72-79 | A built triangle whose third side is the hypotenuse of an exact Pythagorean triple is right, whatever the order of the legs. The sort puts the hypotenuse last. |
| Shapes.RightTriangleOfAscending | geometry_shapes.py:78-79 | For ascending arguments, the triangle is right iff \|a²+b²−c²\| < 1e-10. Together with TriangleOrderIndependent this decides the check for any argument order. |
| Shapes.IsSquare | geometry_shapes.py:164-166 | A rectangle is a square iff its height and width differ by strictly less than 1e-10 in either direction. Equal dimensions always make a square. IsSquareSymmetric states more about it. |
| Shapes.IsSquareSymmetric | geometry_shapes.py:164-166 | The square check does not depend on which dimension is the width. Equal dimensions always make a square. |
| Shapes.Describe | geometry_shapes.py:40-41 | The three `__str__` templates: the circle's at lines 40-41, the triangle's at 81-82 and the rectangle's at 168-169. A description starts with the kind's class name followed by "(" and ends with ")". TriangleDescriptionKeepsArgumentOrder and DescriptionExamples state the exact layouts. |
| Shapes.TriangleDescriptionKeepsArgumentOrder | geometry_shapes.py:81-82 | A triangle describes its sides in the order given, not in sorted order. |
| Shapes.ConstructorExamples | test_geometry_shapes.py:14-56 | Circle(0) and Circle(-1) are refused for a non-positive radius. Triangle(0,4,5) and Triangle(-1,4,5) are refused for a non-positive side. Triangle(1,1,3) and Triangle(1,10,2) are refused as not a triangle. |
| Shapes.ThreeFourFiveIsRight | test_geometry_shapes.py:77-79 | (3,4,5) is a right triangle. |
| Shapes.FiveTwelveThirteenIsRight | test_geometry_shapes.py:81-83 | (5,12,13) is a right triangle. |
| Shapes.EquilateralNotRight | test_geometry_shapes.py:85-87 | (2,2,2) is not a right triangle. |
| Shapes.ScaleneNotRight | test_geometry_shapes.py:89-91 | (2,3,4) is not a right triangle. |
| Shapes.AreaExamples | test_geometry_shapes.py:21-27 | Circle(1) has area π and Circle(2) has area 4π, exactly. Rectangle(4,5) has area 20 and Rectangle(3,7) has area 21 (lines 162-180). |
| Shapes.TriangleAreaIs | geometry_shapes.py:67-70 | A triangle whose radicand is k², k ≥ 0, has area exactly k. |
| Shapes.TriangleAreaExamples | test_geometry_shapes.py:58-73 | The area of (3,4,5) is 6 and of (5,12,13) is 30. The area of (2,2,2) is non-negative and squares to 3, so it is √3 as `math.sqrt(3)` gives. |
| Shapes.IsSquareExamples | test_geometry_shapes.py:187-193 | Rectangle(5,5) is a square and Rectangle(3,7) is not. |
| Shapes.DescriptionExamples | test_geometry_shapes.py:32-35 | Circle(3.14) is described as "Circle(radius=" + str(3.14) + ")". The 3-4-5 triangle (lines 93-96) is "Triangle(sides=" + str(3) + ", " + str(4) + ", " + str(5) + ")". Rectangle(3,4) (lines 195-198) is "Rectangle(width=" + str(3) + ", height=" + str(4) + ")". |
| Calculator.TotalArea | geometry_shapes.py:115 | The reference total of `sum(shape.area() for shape in shapes)`. With a real square root it is never negative, and strictly positive for a non-empty list. |
| Calculator.CalculateArea | geometry_shapes.py:101-103 | `calculate_area` is the shape's own area, and it is positive given a real square root. |
| Calculator.TotalAreaCons | geometry_shapes.py:115 | The total of a shape in front of a list is its area plus the total of the list. |
| Calculator.TotalAreaAppend | geometry_shapes.py:115 | Appending a shape adds its area to the total. |
| Calculator.TotalAreaConcat | geometry_shapes.py:115 | The total of a concatenation is the sum of the two totals. |
| Calculator.CalculateTotalArea | geometry_shapes.py:105-115 | The left-to-right loop starting from 0 computes the reference total. It gives 0 for the empty list and the single area for a one-element list. |
| Calculator.TotalAreaOfThree | geometry_shapes.py:115 | The total of three shapes is the sum of their three areas. |
| Calculator.TotalAreaExample | test_geometry_shapes.py:174-185 | Circle(1), Triangle(3,4,5) and Rectangle(3,7) total π + 6 + 21. |
| Calculator.KeysDistinct | geometry_shapes.py:127-137 | The six record fields are stored under six different dictionary keys. |
| Calculator.Record | geometry_shapes.py:127-137 | The record has exactly the three common fields plus the kind's extras, each holding the given value. |
| Calculator.GetShapeInfo | geometry_shapes.py:117-139 | The record holds the kind's class name, the area and the description. A triangle also gets `is_right_triangle`. A circle also gets its `radius` and a `circumference` of 2πr. A rectangle gets nothing more. |
| Calculator.InfoIdentifiesKind | geometry_shapes.py:127-139 | The shape's kind can be read off the record. `is_right_triangle` is present iff it is a triangle. `radius` and `circumference` are present iff it is a circle. Only the three common fields are present iff it is a rectangle. The description starts with the type name followed by "(". |
| Calculator.InfoAreaPositive | test_geometry_shapes.py:230-240 | The area field of every record is strictly positive. |
| Calculator.InfoExamples | test_geometry_shapes.py:139-156 | The Circle(2) record has type "Circle", area 4π, description "Circle(radius=" + str(2) + ")", radius 2 and circumference 4π. The (3,4,5) record has type "Triangle", area 6, description "Triangle(sides=" + str(3) + ", " + str(4) + ", " + str(5) + ")" and `is_right_triangle` true. |

## Left out

- Floating point: numbers are exact reals. Rounding is not modelled, and neither is the `assertAlmostEqual` tolerance of the tests. Python's infinities and NaN, which the `<= 0` guards would let through or reject in their own way, are not modelled.
- Area: the source takes `math.sqrt` of Heron's radicand without clamping it to zero. The model follows the code. With exact reals the radicand of a built triangle is strictly positive (HeronFactorsPositive), so the domain error a clamp would guard against cannot arise here.
- `math.sqrt` and `str` are foreign calls, so they are parameters (`sqrt`, `show`). The exact digits a description shows are therefore not modelled, only its layout.
- Calculator.CalculateArea: the `TypeError` for an argument that is not a `Shape` is not modelled. The datatype is closed, so every value is a shape.
- The abstract base class `Shape` and its abstract methods are not modelled; the datatype's match takes their place. The `__main__` demonstration is left out because it only prints.
- Calculator.GetShapeInfo: the insertion order of the dictionary's keys is not modelled, because a map is unordered.
- Arguments that are not numbers are not modelled; every parameter is a real. Python rejects them anyway, with the `TypeError` that the comparisons at lines 32, 56 and 155 raise.
