/** The stateless calculator over shapes: the area of one shape, the total
    area of a sequence of shapes, and a per-shape information record. */
module Calculator {
  import opened Shapes

  predicate AllValid(shapes: seq<Shape>) {
    forall i :: 0 <= i < |shapes| ==> Valid(shapes[i])
  }

  /** The area of any constructed shape, by dispatch on its kind. */
  function CalculateArea(shape: Shape, sqrt: real -> real): (area: real)
    requires Valid(shape)
    ensures area == Area(shape, sqrt)
    ensures IsSqrt(sqrt) ==> area > 0.0
  {
    Area(shape, sqrt)
  }

  // ---------------------------------------------------------------- total area

  /** Reference definition of the total: the first area plus the total of the
      rest. The total of constructed shapes is never negative, and positive as
      soon as there is one shape. */
  function TotalArea(shapes: seq<Shape>, sqrt: real -> real): (total: real)
    requires AllValid(shapes)
    ensures IsSqrt(sqrt) ==> total >= 0.0
    ensures IsSqrt(sqrt) && shapes != [] ==> total > 0.0
  {
    if shapes == [] then 0.0 else Area(shapes[0], sqrt) + TotalArea(shapes[1..], sqrt)
  }

  lemma {:induction false} TotalAreaAppend(shapes: seq<Shape>, last: Shape, sqrt: real -> real)
    requires AllValid(shapes) && Valid(last)
    ensures AllValid(shapes + [last])
    ensures TotalArea(shapes + [last], sqrt) == TotalArea(shapes, sqrt) + Area(last, sqrt)
    decreases |shapes|
  {
    if shapes != [] {
      assert (shapes + [last])[1..] == shapes[1..] + [last];
      TotalAreaAppend(shapes[1..], last, sqrt);
    }
  }

  /** The total of a concatenation is the sum of the totals. */
  lemma {:induction false} TotalAreaConcat(left: seq<Shape>, right: seq<Shape>, sqrt: real -> real)
    requires AllValid(left) && AllValid(right)
    ensures AllValid(left + right)
    ensures TotalArea(left + right, sqrt) == TotalArea(left, sqrt) + TotalArea(right, sqrt)
    decreases |left|
  {
    if left == [] {
      assert left + right == right;
    } else {
      assert (left + right)[1..] == left[1..] + right;
      TotalAreaConcat(left[1..], right, sqrt);
    }
  }

  /** Sums the areas left to right, from 0, as the built-in `sum` does. */
  method CalculateTotalArea(shapes: seq<Shape>, sqrt: real -> real) returns (total: real)
    requires AllValid(shapes)
    ensures total == TotalArea(shapes, sqrt)
    ensures shapes == [] ==> total == 0.0
    ensures |shapes| == 1 ==> total == Area(shapes[0], sqrt)
  {
    total := 0.0;
    var i := 0;
    while i < |shapes|
      invariant 0 <= i <= |shapes|
      invariant total == TotalArea(shapes[..i], sqrt)
    {
      assert shapes[..i + 1] == shapes[..i] + [shapes[i]];
      TotalAreaAppend(shapes[..i], shapes[i], sqrt);
      total := total + Area(shapes[i], sqrt);
      i := i + 1;
    }
    assert shapes[..i] == shapes;
  }

  /** The mixed total of the test suite: a unit circle, the 3-4-5 triangle and
      a 3 by 7 rectangle add up to pi + 6 + 21. */
  lemma TotalAreaExample(sqrt: real -> real)
    requires IsSqrt(sqrt)
    ensures var shapes := [NewCircle(1.0).value, NewTriangle(3.0, 4.0, 5.0).value, NewRectangle(3.0, 7.0).value];
      AllValid(shapes) && TotalArea(shapes, sqrt) == Pi + 6.0 + 21.0
  {
    AreaExamples(sqrt);
    TriangleAreaExamples(sqrt);
    TotalAreaOfThree(NewCircle(1.0).value, NewTriangle(3.0, 4.0, 5.0).value, NewRectangle(3.0, 7.0).value, sqrt);
  }

  lemma TotalAreaOfThree(x: Shape, y: Shape, z: Shape, sqrt: real -> real)
    requires Valid(x) && Valid(y) && Valid(z)
    ensures AllValid([x, y, z])
    ensures TotalArea([x, y, z], sqrt) == Area(x, sqrt) + Area(y, sqrt) + Area(z, sqrt)
  {
    TotalAreaCons(z, [], sqrt);
    TotalAreaCons(y, [z], sqrt);
    TotalAreaCons(x, [y, z], sqrt);
  }

  /** The total of a shape in front of others is its area plus their total. */
  lemma TotalAreaCons(first: Shape, rest: seq<Shape>, sqrt: real -> real)
    requires Valid(first) && AllValid(rest)
    ensures AllValid([first] + rest)
    ensures TotalArea([first] + rest, sqrt) == Area(first, sqrt) + TotalArea(rest, sqrt)
  {
    assert ([first] + rest)[1..] == rest;
  }

  // ---------------------------------------------------------------- shape information

  /** The fields an information record can carry. */
  datatype Field =
    | TypeField
    | AreaField
    | DescriptionField
    | RightTriangleField
    | RadiusField
    | CircumferenceField

  /** The dictionary key under which a field is stored. */
  function Key(f: Field): string {
    match f
    case TypeField => "type"
    case AreaField => "area"
    case DescriptionField => "description"
    case RightTriangleField => "is_right_triangle"
    case RadiusField => "radius"
    case CircumferenceField => "circumference"
  }

  /** Different fields are stored under different keys. */
  lemma KeysDistinct(f: Field, g: Field)
    ensures Key(f) == Key(g) <==> f == g
  {
  }

  /** A value of the information record. */
  datatype InfoValue = Text(text: string) | Number(number: real) | Flag(flag: bool)

  /** The fields every record has: kind name, area and description. */
  const BaseFields: set<Field> := {TypeField, AreaField, DescriptionField}

  /** What a record holds beyond the three common fields. */
  datatype Extras =
    | RightAngle(isRight: bool)
    | Round(radius: real, circumference: real)
    | NoExtras

  /** The fields a record with the given extras has. */
  function FieldsOf(extras: Extras): set<Field> {
    match extras
    case RightAngle(_) => BaseFields + {RightTriangleField}
    case Round(_, _) => BaseFields + {RadiusField, CircumferenceField}
    case NoExtras => BaseFields
  }

  /** Builds a record from its common fields and its extras. */
  function Record(kind: string, area: real, description: string, extras: Extras): (info: map<Field, InfoValue>)
    ensures info.Keys == FieldsOf(extras)
    ensures info[TypeField] == Text(kind)
    ensures info[AreaField] == Number(area)
    ensures info[DescriptionField] == Text(description)
    ensures extras.RightAngle? ==> info[RightTriangleField] == Flag(extras.isRight)
    ensures extras.Round? ==>
      info[RadiusField] == Number(extras.radius) && info[CircumferenceField] == Number(extras.circumference)
  {
    var base := map[TypeField := Text(kind), AreaField := Number(area), DescriptionField := Text(description)];
    match extras
    case RightAngle(b) => base[RightTriangleField := Flag(b)]
    case Round(r, c) => base[RadiusField := Number(r)][CircumferenceField := Number(c)]
    case NoExtras => base
  }

  /** The kind-specific part of a shape's record. */
  function ExtrasOf(shape: Shape): (extras: Extras)
    requires Valid(shape)
    ensures extras.RightAngle? <==> shape.Triangle?
    ensures extras.Round? <==> shape.Circle?
  {
    match shape
    case Triangle(_, _, _, _) => RightAngle(IsRightTriangle(shape))
    case Circle(r) => Round(r, 2.0 * Pi * r)
    case Rectangle(_, _) => NoExtras
  }

  /** The information record of a shape: its kind, area and description,
      plus `is_right_triangle` for a triangle, or `radius` and
      `circumference` for a circle. A rectangle gets nothing more. */
  function GetShapeInfo(shape: Shape, sqrt: real -> real, show: real -> string): (info: map<Field, InfoValue>)
    requires Valid(shape)
    ensures info.Keys == FieldsOf(ExtrasOf(shape))
    ensures info[TypeField] == Text(KindName(shape))
    ensures info[AreaField] == Number(Area(shape, sqrt))
    ensures info[DescriptionField] == Text(Describe(shape, show))
    ensures shape.Triangle? ==> info[RightTriangleField] == Flag(IsRightTriangle(shape))
    ensures shape.Circle? ==>
      && info[RadiusField] == Number(shape.radius)
      && info[CircumferenceField] == Number(2.0 * Pi * shape.radius)
  {
    Record(KindName(shape), Area(shape, sqrt), Describe(shape, show), ExtrasOf(shape))
  }

  /** The kind can be read back from the record: from its field names alone,
      and its description starts with the kind name. */
  lemma InfoIdentifiesKind(shape: Shape, sqrt: real -> real, show: real -> string)
    requires Valid(shape)
    ensures var info := GetShapeInfo(shape, sqrt, show);
      && (RightTriangleField in info <==> shape.Triangle?)
      && (RadiusField in info <==> shape.Circle?)
      && (CircumferenceField in info <==> shape.Circle?)
      && (info.Keys == BaseFields <==> shape.Rectangle?)
      && info[TypeField].text + "(" <= info[DescriptionField].text
  {
    var info := GetShapeInfo(shape, sqrt, show);
    assert info[TypeField].text == KindName(shape);
    assert info[DescriptionField].text == Describe(shape, show);
    match shape
    case Circle(_) =>
      assert RadiusField in info.Keys && RightTriangleField !in info.Keys;
    case Triangle(_, _, _, _) =>
      assert RightTriangleField in info.Keys && RadiusField !in info.Keys;
    case Rectangle(_, _) =>
  }

  /** The area field of every record is positive. */
  lemma InfoAreaPositive(shape: Shape, sqrt: real -> real, show: real -> string)
    requires Valid(shape) && IsSqrt(sqrt)
    ensures GetShapeInfo(shape, sqrt, show)[AreaField].number > 0.0
  {
  }

  /** The records the test suite inspects: a circle of radius 2 and the
      3-4-5 triangle. */
  lemma InfoExamples(sqrt: real -> real, show: real -> string)
    requires IsSqrt(sqrt)
    ensures var info := GetShapeInfo(NewCircle(2.0).value, sqrt, show);
      && info[TypeField] == Text("Circle")
      && info[AreaField] == Number(4.0 * Pi)
      && info[DescriptionField] == Text("Circle(radius=" + show(2.0) + ")")
      && info[RadiusField] == Number(2.0)
      && info[CircumferenceField] == Number(4.0 * Pi)
    ensures var info := GetShapeInfo(NewTriangle(3.0, 4.0, 5.0).value, sqrt, show);
      && info[TypeField] == Text("Triangle")
      && info[AreaField] == Number(6.0)
      && info[DescriptionField] == Text("Triangle(sides=" + show(3.0) + ", " + show(4.0) + ", " + show(5.0) + ")")
      && info[RightTriangleField] == Flag(true)
  {
    AreaExamples(sqrt);
    TriangleAreaExamples(sqrt);
    ThreeFourFiveIsRight();
    TriangleDescriptionKeepsArgumentOrder(3.0, 4.0, 5.0, show);
  }
}
