/**
 * The `shapes` module of unit-testing and its tests: a `Circle` with three
 * constructors that differ in how they treat a radius that is not positive,
 * and a containment test on radii.
 *
 * `new_2` panics; a panic is modelled as the `Panicked` outcome carrying its
 * message, which is what `#[should_panic(expected = ...)]` observes.
 */
module UnitTesting {
  import opened Wrappers

  datatype Circle = Circle(radius: int)

  /** What `new_2` does: build a circle, or panic with a message. */
  datatype Built = Built(circle: Circle) | Panicked(message: string)

  const RadiusNotPositive := "Radius should be positive"
  const PanicNotPositive := "radius should be positive"
  const PanicBelowMinusTen := "is lesser than -10"

  /** `Circle::new`: any radius, stored unchanged. */
  function New(radius: int): (c: Circle)
    ensures c.radius == radius
  {
    Circle(radius)
  }

  /** `Circle::new_1`: `Ok` for a positive radius, an `Err` message otherwise. */
  function New1(radius: int): (r: Result<Circle, string>)
    ensures r.Ok? <==> radius > 0
    ensures r.Ok? ==> r.value == New(radius)
    ensures r.Err? ==> r.error == RadiusNotPositive
  {
    if radius > 0 then Ok(Circle(radius)) else Err(RadiusNotPositive)
  }

  /**
   * `Circle::new_2`: the match arms in source order. The first arm takes
   * -10 through 0, so the second arm only sees radii below -10.
   */
  function New2(radius: int): Built
  {
    if -10 <= radius <= 0 then Panicked(PanicNotPositive)
    else if radius <= -10 then Panicked(PanicBelowMinusTen)
    else Built(Circle(radius))
  }

  /** Which radii build a circle and which panic with which message. */
  lemma New2Outcomes(radius: int)
    ensures New2(radius).Built? <==> radius > 0
    ensures New2(radius).Built? ==> New2(radius).circle == New(radius)
    ensures New2(radius) == Panicked(PanicNotPositive) <==> -10 <= radius <= 0
    ensures New2(radius) == Panicked(PanicBelowMinusTen) <==> radius <= -11
  {
  }

  /** `new_1` and `new_2` accept the same radii and build the same circle. */
  lemma New1AgreesWithNew2(radius: int)
    ensures New1(radius).Ok? <==> New2(radius).Built?
    ensures New1(radius).Ok? ==> New1(radius).value == New2(radius).circle
  {
  }

  /** `contains`: strictly larger radius. */
  function Contains(self: Circle, other: Circle): bool
  {
    self.radius > other.radius
  }

  /** `contains` is a strict total order on radii: irreflexive, asymmetric, transitive, connected. */
  lemma ContainsIsStrictOrder(a: Circle, b: Circle, c: Circle)
    ensures !Contains(a, a)
    ensures Contains(a, b) ==> !Contains(b, a)
    ensures Contains(a, b) && Contains(b, c) ==> Contains(a, c)
    ensures a.radius != b.radius ==> Contains(a, b) || Contains(b, a)
  {
  }

  /** `contains_test`: a circle of radius 5 contains one of radius 2. */
  lemma ContainsTest()
    ensures Contains(New(5), New(2))
  {
  }

  /** `should_not_create_circle`: `new_1(-1)` is an `Err`, so the test fails as its comment says. */
  lemma ShouldNotCreateCircle()
    ensures New1(-1) == Err(RadiusNotPositive)
  {
  }

  /** `should_not_create_circle_and_panic`: `new_2(-11)` panics with the expected message. */
  lemma ShouldNotCreateCircleAndPanic()
    ensures New2(-11) == Panicked(PanicBelowMinusTen)
  {
  }
}
