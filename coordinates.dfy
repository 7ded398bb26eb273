/** `_checkCoordinates`: the guard run before every ephemeris table is
    computed. */
module Coordinates {
  import opened Wrappers
  import opened Js
  import opened Errors

  /** `x` is a number within [-bound, bound]. */
  predicate WithinBound(x: Num, bound: real) {
    x.Fin? && -bound <= x.v <= bound
  }

  /** A usable position: longitude in [-180, 180], latitude in [-90, 90], and
      not the unset position (0, 0). */
  predicate ValidPosition(latitude: Num, longitude: Num) {
    WithinBound(longitude, 180.0) && WithinBound(latitude, 90.0)
    && !(latitude == Fin(0.0) && longitude == Fin(0.0))
  }

  /** The error `_checkCoordinates` throws, or None when it returns. The
      longitude is checked first, then the latitude, then the (0, 0) case. */
  function CheckCoordinates(latitude: Num, longitude: Num): (r: Option<CoordError>)
    ensures r.None? <==> ValidPosition(latitude, longitude)
    ensures r == Some(LongitudeMissing) <==> !WithinBound(longitude, 180.0)
    ensures r == Some(LatitudeMissing) <==>
      WithinBound(longitude, 180.0) && !WithinBound(latitude, 90.0)
  {
    if longitude.NaN? || longitude.v < -180.0 || longitude.v > 180.0 then
      Some(LongitudeMissing)
    else if latitude.NaN? || latitude.v < -90.0 || latitude.v > 90.0 then
      Some(LatitudeMissing)
    else if latitude.v == 0.0 && longitude.v == 0.0 then
      Some(CoordinatesMissing)
    else
      None
  }

  /** (0, 0) is refused as missing, latitude 91 and longitude 200 are refused
      by their range checks, and (45, 9) passes. */
  lemma CoordinateExamples()
    ensures CheckCoordinates(Fin(0.0), Fin(0.0)) == Some(CoordinatesMissing)
    ensures CheckCoordinates(Fin(91.0), Fin(0.0)) == Some(LatitudeMissing)
    ensures CheckCoordinates(Fin(45.0), Fin(200.0)) == Some(LongitudeMissing)
    ensures CheckCoordinates(Fin(45.0), Fin(9.0)).None?
  {
  }
}
