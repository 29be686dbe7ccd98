/** A point given by latitude and longitude (decimal degrees) on a datum. */
module Geodetic {
  import opened Wrappers
  import opened GeographicPoint

  /** North latitudes and east longitudes are positive; the longitude is stored as given. */
  datatype LatLon = LatLon(latitude: real, longitude: real, datum: Ellipsoid)

  /** The constructor: stores the coordinates unchanged and selects the datum. */
  function NewLatLon(lat: real, lon: real, datum: string): (r: Result<LatLon, Error>)
    ensures r.Success? <==> SelectDatum(datum).Success?
    ensures r.Success? ==> r.value.latitude == lat && r.value.longitude == lon
    ensures r.Success? ==> r.value.datum == SelectDatum(datum).value
    ensures r.Failure? ==> r.error == UnknownDatum(datum)
  {
    match SelectDatum(datum)
    case Success(e) => Success(LatLon(lat, lon, e))
    case Failure(err) => Failure(err)
  }
}
