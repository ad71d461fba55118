/**
  Geographic values and the geodesy the nodes rely on.

  The CLLocation extensions that compute distance and bearing, and the
  trigonometric functions, are not part of this model: they are taken as
  function-valued parameters, and the only facts assumed about them are
  the ghost predicates below, each required explicitly where it is used.
*/
module Geo {

  /** CLLocationCoordinate2D: degrees. */
  datatype Coordinate = Coordinate(latitude: real, longitude: real)

  /** CLLocation: a coordinate plus an altitude in meters. */
  datatype Location = Location(coordinate: Coordinate, altitude: real)

  /** `CLLocation.distance(from:)` (meters) and `CLLocation.bearing(between:)` (degrees). */
  datatype Geodesy = Geodesy(
    distance: (Location, Location) -> real,
    bearing: (Location, Location) -> real)

  /** Swift's `sin` and `cos`, which take radians. */
  datatype Trig = Trig(sin: real -> real, cos: real -> real)

  /** A location is at distance zero from itself. */
  ghost predicate ZeroSelfDistance(geo: Geodesy)
  {
    forall a: Location :: geo.distance(a, a) == 0.0
  }

  /** sin^2 + cos^2 = 1 at every angle. */
  ghost predicate Pythagorean(trig: Trig)
  {
    forall t: real :: trig.sin(t) * trig.sin(t) + trig.cos(t) * trig.cos(t) == 1.0
  }

}
