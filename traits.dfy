/**
 * The `Shape` trait of traits/src: squares and rectangles with an area and a
 * perimeter, the static and dynamic dispatch helpers, `returns_shape`, and the
 * derived equality of `Student`.
 *
 * The two shape structs become the two variants of one datatype; a trait
 * object `Box<dyn Shape>` is a value of that datatype, and dispatch on it is a
 * `match`. `Square::new` and `Rectangle::new` are the variant constructors.
 */
module Traits {

  datatype Shape = Square(side: int) | Rectangle(length: int, breadth: int)

  /** `Shape::area` for each implementing type. */
  function Area(shape: Shape): int
  {
    match shape
    case Square(side) => side * side
    case Rectangle(length, breadth) => length * breadth
  }

  /** `Shape::perimeter` for each implementing type. */
  function Perimeter(shape: Shape): int
  {
    match shape
    case Square(side) => 4 * side
    case Rectangle(length, breadth) => 2 * (length + breadth)
  }

  /** A square of side `s` measures like the `s` by `s` rectangle. */
  lemma SquareIsRectangle(s: int)
    ensures Area(Square(s)) == Area(Rectangle(s, s)) == s * s
    ensures Perimeter(Square(s)) == Perimeter(Rectangle(s, s)) == 4 * s
  {
  }

  /** Swapping length and breadth changes neither area nor perimeter. */
  lemma RectangleTurned(length: int, breadth: int)
    ensures Area(Rectangle(length, breadth)) == Area(Rectangle(breadth, length))
    ensures Perimeter(Rectangle(length, breadth)) == Perimeter(Rectangle(breadth, length))
  {
  }

  /**
   * `share_properties` (static dispatch): the pair computed by the `Shape`
   * impl of the argument's own type.
   */
  function ShareProperties(obj: Shape): (r: (int, int))
    ensures obj.Square? ==> r == (obj.side * obj.side, 4 * obj.side)
    ensures obj.Rectangle? ==> r == (obj.length * obj.breadth, 2 * (obj.length + obj.breadth))
  {
    (Area(obj), Perimeter(obj))
  }

  /**
   * `share_properties_dynamic` (dynamic dispatch through `Box<dyn Shape>`):
   * the pair computed by the impl of the boxed value's type.
   */
  function SharePropertiesDynamic(obj: Shape): (r: (int, int))
    ensures obj.Square? ==> r == (obj.side * obj.side, 4 * obj.side)
    ensures obj.Rectangle? ==> r == (obj.length * obj.breadth, 2 * (obj.length + obj.breadth))
  {
    (Area(obj), Perimeter(obj))
  }

  /** Static and dynamic dispatch give the same pair. */
  lemma DispatchAgrees(obj: Shape)
    ensures ShareProperties(obj) == SharePropertiesDynamic(obj)
  {
  }

  /** The generic `area<T: Shape>`: the area computed by the argument type's impl. */
  function AreaBound(obj: Shape): (a: int)
    ensures obj.Square? ==> a == obj.side * obj.side
    ensures obj.Rectangle? ==> a == obj.length * obj.breadth
  {
    Area(obj)
  }

  /**
   * `returns_shape`: one dimension gives a square, more give a rectangle of
   * the first two. Indexing `dimension[0]` panics on an empty vector, so a
   * dimension is required.
   */
  function ReturnsShape(dimension: seq<int>): Shape
    requires |dimension| >= 1
  {
    if |dimension| == 1 then Square(dimension[0])
    else Rectangle(dimension[0], dimension[1])
  }

  /**
   * What `returns_shape` builds and measures: a square from one dimension, a
   * rectangle from the first two otherwise; dimensions after the second are
   * ignored.
   */
  lemma ReturnsShapeMeasures(dimension: seq<int>)
    requires |dimension| >= 1
    ensures |dimension| == 1 ==>
              && ReturnsShape(dimension) == Square(dimension[0])
              && Area(ReturnsShape(dimension)) == dimension[0] * dimension[0]
              && Perimeter(ReturnsShape(dimension)) == 4 * dimension[0]
    ensures |dimension| >= 2 ==>
              && ReturnsShape(dimension) == Rectangle(dimension[0], dimension[1])
              && Area(ReturnsShape(dimension)) == dimension[0] * dimension[1]
              && Perimeter(ReturnsShape(dimension)) == 2 * (dimension[0] + dimension[1])
              && ReturnsShape(dimension) == ReturnsShape(dimension[..2])
  {
  }

  /** The values `main` prints. */
  lemma MainValues()
    ensures Area(Square(4)) == 16 && Area(Rectangle(8, 6)) == 48
    ensures AreaBound(Square(4)) == 16 && AreaBound(Rectangle(8, 6)) == 48
    ensures ShareProperties(Square(4)) == (16, 16)
    ensures ShareProperties(Rectangle(8, 6)) == (48, 28)
    ensures SharePropertiesDynamic(Square(5)) == (25, 20)
    ensures SharePropertiesDynamic(Rectangle(10, 7)) == (70, 34)
    ensures Area(ReturnsShape([9])) == 81 && Area(ReturnsShape([9, 6])) == 54
  {
  }

  datatype Student = Student(name: string, age: int)

  /** The derived `PartialEq` of `Student`: field by field. */
  function StudentEq(a: Student, b: Student): bool
  {
    a.name == b.name && a.age == b.age
  }

  /** Field-by-field equality is value equality. */
  lemma StudentEqIsEquality(a: Student, b: Student)
    ensures StudentEq(a, b) <==> a == b
  {
  }

  /** `student_1 == student_2` in `main`: both "Ayush", 24. */
  lemma StudentsCompareEqual()
    ensures StudentEq(Student("Ayush", 24), Student("Ayush", 24))
  {
  }
}
