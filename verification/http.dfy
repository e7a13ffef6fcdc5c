/** The HTTP exchanges of the service, abstracted as outcomes of a `fetch` function. */
module Http {
  import opened Wrappers
  import opened Json
  import opened Errors

  /** The GET requests the service issues. The URL text of the first two is built from the
      arguments (query parameters, float formatting) and is not modelled. */
  datatype Request<C> =
    | Geocode(city: string)     // the place search, `q=city&format=json&limit=1`
    | Points(lat: C, lon: C)    // `{BASE}/points/{lat},{lon}`
    | Forecast(url: Value)      // a candidate forecast URL taken from the `/points` properties

  /** A response body: what `r.json()` would return, or a body it cannot decode. */
  datatype Body = Parsed(doc: Value) | Unparsable

  /** The result of `session.get(...)`: a response, or a `RequestException` raised by the session. */
  datatype Outcome = Response(status: int, body: Body) | ConnectionFailed

  /** The statuses `raise_for_status` rejects. */
  predicate IsErrorStatus(status: int) {
    400 <= status < 600
  }

  /** `session.get(...)` followed by `raise_for_status()`. */
  function Receive(o: Outcome): (r: Result<Body, Failure>)
    ensures r.Ok? <==> o.Response? && !IsErrorStatus(o.status)
    ensures r.Ok? ==> r.value == o.body
    ensures o.Response? && IsErrorStatus(o.status) ==> r == Err(HttpError(o.status))
    ensures o.ConnectionFailed? ==> r == Err(NetworkError)
  {
    match o
    case ConnectionFailed => Err(NetworkError)
    case Response(status, body) =>
      if IsErrorStatus(status) then Err(HttpError(status)) else Ok(body)
  }

  /** `session.get(...)`, `raise_for_status()`, then `r.json()`. */
  function ReadJson(o: Outcome): (r: Result<Value, Failure>)
    ensures r.Ok? <==> Receive(o).Ok? && Receive(o).value.Parsed?
    ensures r.Ok? ==> r.value == o.body.doc
    ensures Receive(o).Err? ==> r == Err(Receive(o).error)
    ensures Receive(o) == Ok(Unparsable) ==> r == Err(JsonDecodeError)
  {
    match Receive(o)
    case Err(f) => Err(f)
    case Ok(Unparsable) => Err(JsonDecodeError)
    case Ok(Parsed(doc)) => Ok(doc)
  }
}
