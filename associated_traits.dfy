/**
 * The associated-type trait of traits/associated_traits: a speed in km/h
 * gives, through `distance_covered`, the distance in km after some hours.
 */
module AssociatedTraits {

  datatype Km = Km(value: int)

  datatype Kmh = Kmh(value: int)

  /** `distance_covered`: speed times hours. */
  function DistanceCovered(self: Kmh, hours: int): Km
  {
    Km(self.value * hours)
  }

  /** Zero hours cover nothing, and the distances of two spans of hours add up. */
  lemma DistanceIsLinear(speed: Kmh, h1: int, h2: int)
    ensures DistanceCovered(speed, 0) == Km(0)
    ensures DistanceCovered(speed, h1 + h2).value
            == DistanceCovered(speed, h1).value + DistanceCovered(speed, h2).value
  {
  }

  /** The run in `main`: 50 km/h for 6 hours is 300 km. */
  lemma MainValue()
    ensures DistanceCovered(Kmh(50), 6) == Km(300)
  {
  }
}
