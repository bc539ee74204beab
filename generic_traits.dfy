/**
 * The generic trait `Addition<T, U>` of traits/generic_traits, implemented
 * three times for `Point`. `Point` is `Copy` and every `add` takes `&self`, so
 * each is a function of two values that builds a new value.
 */
module GenericTraits {

  datatype Point = Point(x: int, y: int)

  datatype Line = Line(start: Point, end: Point)

  /** `Addition<Point, Point>`: componentwise sum. */
  function AddPoint(self: Point, rhs: Point): Point
  {
    Point(self.x + rhs.x, self.y + rhs.y)
  }

  /** `Addition<i32, Point>`: the scalar is added to both coordinates. */
  function AddScalar(self: Point, rhs: int): Point
  {
    Point(self.x + rhs, self.y + rhs)
  }

  /** `Addition<Point, Line>`: no arithmetic, a line from `self` to `rhs`. */
  function AddLine(self: Point, rhs: Point): Line
  {
    Line(self, rhs)
  }

  /** Adding points is commutative and associative, with the origin as identity. */
  lemma AddPointLaws(p: Point, q: Point, r: Point)
    ensures AddPoint(p, q) == AddPoint(q, p)
    ensures AddPoint(AddPoint(p, q), r) == AddPoint(p, AddPoint(q, r))
    ensures AddPoint(p, Point(0, 0)) == p
  {
  }

  /** Adding a scalar is adding the point with that scalar on both axes. */
  lemma AddScalarIsDiagonal(p: Point, k: int)
    ensures AddScalar(p, k) == AddPoint(p, Point(k, k))
    ensures AddScalar(p, 0) == p
  {
  }

  /** The line keeps both points as they are. */
  lemma AddLineKeepsPoints(p: Point, q: Point)
    ensures AddLine(p, q).start == p && AddLine(p, q).end == q
  {
  }

  /** The three additions in `main`. */
  lemma MainValues()
    ensures AddPoint(Point(1, 2), Point(2, 5)) == Point(3, 7)
    ensures AddScalar(Point(2, 3), 3) == Point(5, 6)
    ensures AddLine(Point(2, 1), Point(3, 5)) == Line(Point(2, 1), Point(3, 5))
  {
  }
}
