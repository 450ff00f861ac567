/**
 * The failures the Panchanga computation can end in, and the messages of
 * those the repository raises itself.
 */
module Errors {

  datatype PanchangaError =
    | CityNotFound(city: string)  // a city was given but its title-cased name is not in the table
    | MissingGeoParameters        // no city, and latitude, longitude or timezone is missing
    | InvalidDateFormat           // the date neither parses natively nor splits into D/M/Y
    | SunTimesNotFound            // the sunrise or the sunset search found nothing
    | NewMoonNotFound             // a new-moon search found nothing
    | InvalidTime                 // a time value that is not finite reached the AstroTime constructor
    | LatitudeOutOfRange          // the Observer constructor rejected a latitude outside [-90, 90]

  /** The error text; InvalidTime and LatitudeOutOfRange are raised by the astronomy library and carry its text. */
  function Message(e: PanchangaError): (m: string)
    requires !e.InvalidTime? && !e.LatitudeOutOfRange?
    ensures e.CityNotFound? ==> |m| == |e.city| + 30 && m[..6] == "City '" && m[|m| - 24..] == "' not found in database."
    ensures e.CityNotFound? ==> m[6..|m| - 24] == e.city
  {
    match e
    case CityNotFound(city) => "City '" + city + "' not found in database."
    case MissingGeoParameters => "Missing required geographical parameters."
    case InvalidDateFormat => "Invalid date format."
    case SunTimesNotFound => "Failed to compute sunrise and sunset times."
    case NewMoonNotFound => "Failed to compute new moon times."
  }

  /** Distinct errors have distinct messages, and a city message names the city given. */
  lemma MessageInjective(a: PanchangaError, b: PanchangaError)
    requires !a.InvalidTime? && !a.LatitudeOutOfRange? && !b.InvalidTime? && !b.LatitudeOutOfRange?
    requires Message(a) == Message(b)
    ensures a == b
  {
    var m := Message(a);
    if a.CityNotFound? && b.CityNotFound? {
      assert a.city == m[6..|m| - 24] == b.city;
    } else if !a.CityNotFound? && !b.CityNotFound? {
      assert m[0] == Message(b)[0] && |m| == |Message(b)|;
    }
  }
}
