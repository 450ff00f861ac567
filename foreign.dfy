/**
 * The collaborators the calendar core calls but does not define: the
 * astronomy library (positions, rise/set and moon-phase searches), the
 * JavaScript host (date parsing, the local time zone) and
 * two helpers whose code is not part of this model.  They enter every
 * operation as one value of type Env, so that the model says exactly which
 * results depend on them.
 */
module Foreign {
  import opened Wrappers

  datatype Body = Sun | Moon

  /** A place on the Earth: latitude and longitude in degrees, height in metres. */
  datatype Observer = Observer(latitude: real, longitude: real, height: real)

  /** The latitudes the library's Observer constructor accepts; any other makes it throw. */
  predicate ValidLatitude(latitude: real) {
    -90.0 <= latitude <= 90.0
  }

  /** A JavaScript time value: whole milliseconds since 1970-01-01T00:00:00Z. */
  type Instant = int

  datatype Env = Env(
    // Ecliptic longitude in degrees of a body seen by an observer, as the
    // Equator -> Vector -> Ecliptic pipeline returns it (not yet normalised).
    eclipticLongitude: (Body, Instant, Observer) -> real,
    // SearchMoonPhase(targetLon, start, limitDays); None when nothing is found.
    searchMoonPhase: (real, Instant, real) -> Option<Instant>,
    // SearchRiseSet(body, observer, direction, start, limitDays).
    searchRiseSet: (Body, Observer, int, Instant, real) -> Option<Instant>,
    // getAngleDifference, imported by the tithi engine.
    angleDifference: (real, real) -> real,
    // The host's local-time offset in milliseconds at an instant (Date.prototype.getDay).
    hostOffset: Instant -> int,
    // new Date(s).getTime(); None when it is NaN.
    parseDate: string -> Option<Instant>,
    // Date.UTC(Number(y), Number(m) - 1, Number(d)) for the parts [d, m, y]; None when NaN.
    utcFromParts: (string, string, string) -> Option<Instant>,
    // The title-casing of a city name before it is looked up.
    titleCase: string -> string
  )
}
