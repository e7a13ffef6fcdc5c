/** The exceptions the forecast service raises, as data. */
module Errors {
  import opened Wrappers

  /** What one HTTP exchange can go wrong with; the forecast fallback loop catches all three. */
  datatype Failure =
    | HttpError(status: int)  // `raise_for_status` on a 4xx or 5xx response
    | NetworkError            // any other `RequestException` from the session (connection, timeout, retries exhausted)
    | JsonDecodeError         // `r.json()` on a body that is not JSON (`requests.JSONDecodeError`)

  /** Python exceptions raised by `.get`, indexing, hashing or `float` on a value of the wrong
      shape. Only the `try` block of `geocode_city` catches any of them. `IndexError` comes only
      from indexing an empty list or string, which the service never does: both `[0]` sites
      follow a truth test. */
  datatype Fault = AttributeError | TypeError | KeyError | IndexError | ValueError

  /** Every way a call can fail. `C` is the coordinate type. */
  datatype Error<C> =
    | InvalidInput                       // `ValueError`: blank city name
    | NoGeocodeResult                    // `ValueError`: the geocoder returned no hit
    | MalformedGeocode                   // `RequestException("Malformed geocode response")`
    | Request(failure: Failure)          // an exchange failure propagated unchanged
    | NoProperties(lat: C, lon: C)       // `ForecastNotFoundError`: empty `/points` properties
    | NoForecastEndpoints(lat: C, lon: C, available: seq<string>)
                                         // `ForecastNotFoundError`: no candidate URL; lists the sorted keys
    | AllEndpointsFailed(cause: Option<Failure>)
                                         // every candidate failed; `from last_exc`
    | Unexpected(fault: Fault)           // an uncaught Python exception
}
