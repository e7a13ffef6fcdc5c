/** `geocode_city`: a place name to the coordinates of the geocoder's first hit. */
module Geocoding {
  import opened Wrappers
  import opened Json
  import opened Errors
  import opened Http
  import opened Text

  /** The exception `float(v)` raises when it fails: `ValueError` for a string that is not a
      number, `TypeError` for `None`, a list or a dict. (`float` accepts every number and bool,
      so for those `parse` does not fail.) */
  function FloatFault(v: Value): Fault {
    if v.Str? then ValueError else TypeError
  }

  /** The first hit's `lat` and `lon` fields passed through `float`. For a truthy hit list every
      failure is a `KeyError`, `TypeError` or `ValueError`, the three the `except` clause catches. */
  function FirstHitCoordinates<C>(hits: Value, parse: Value -> Option<C>): (r: Result<(C, C), Fault>)
    ensures r.Ok? <==>
      && hits.Arr? && |hits.items| > 0
      && hits.items[0].Obj?
      && "lat" in hits.items[0].fields && parse(hits.items[0].fields["lat"]).Some?
      && "lon" in hits.items[0].fields && parse(hits.items[0].fields["lon"]).Some?
    ensures r.Ok? ==>
      r.value == (parse(hits.items[0].fields["lat"]).value, parse(hits.items[0].fields["lon"]).value)
    ensures Truthy(hits) && r.Err? ==> r.error == KeyError || r.error == TypeError || r.error == ValueError
    // a first hit whose `lat` does not parse raises what `float` raises on it
    ensures (hits.Arr? && |hits.items| > 0 && hits.items[0].Obj? && "lat" in hits.items[0].fields
      && parse(hits.items[0].fields["lat"]).None?) ==> r == Err(FloatFault(hits.items[0].fields["lat"]))
  {
    match Index0(hits)
    case Err(f) => Err(f)
    case Ok(first) =>
      match Subscript(first, "lat")
      case Err(f) => Err(f)
      case Ok(latText) =>
        match parse(latText)
        case None => Err(FloatFault(latText))
        case Some(lat) =>
          match Subscript(first, "lon")
          case Err(f) => Err(f)
          case Ok(lonText) =>
            match parse(lonText)
            case None => Err(FloatFault(lonText))
            case Some(lon) => Ok((lat, lon))
  }

  /** `[{"lat": "abc", "lon": "1"}]`: `float("abc")` raises `ValueError`, which the `except`
      clause turns into the malformed-response error. */
  lemma UnparsableLatitudeIsValueError<C>(parse: Value -> Option<C>)
    requires parse(Str("abc")) == None
    ensures var hits := Arr([Obj(map["lat" := Str("abc"), "lon" := Str("1")])]);
      && FirstHitCoordinates(hits, parse) == Err(ValueError)
      && InterpretHits(hits, parse) == Err(MalformedGeocode)
  {
    var hits := Arr([Obj(map["lat" := Str("abc"), "lon" := Str("1")])]);
    assert hits.items[0].fields["lat"] == Str("abc");
  }

  /** The geocoder's decoded answer `hits` turned into coordinates. `parse` is Python's `float`
      on one field, `None` where `float` raises. */
  function InterpretHits<C>(hits: Value, parse: Value -> Option<C>): (r: Result<(C, C), Error<C>>)
    ensures r.Err? && r.error.NoGeocodeResult? <==> !Truthy(hits)
    ensures r.Ok? <==>
      && hits.Arr? && |hits.items| > 0
      && hits.items[0].Obj?
      && "lat" in hits.items[0].fields && parse(hits.items[0].fields["lat"]).Some?
      && "lon" in hits.items[0].fields && parse(hits.items[0].fields["lon"]).Some?
    ensures r.Ok? ==>
      r.value == (parse(hits.items[0].fields["lat"]).value, parse(hits.items[0].fields["lon"]).value)
    ensures r.Err? ==> r.error.NoGeocodeResult? || r.error.MalformedGeocode?
  {
    if !Truthy(hits) then Err(NoGeocodeResult)
    else
      match FirstHitCoordinates(hits, parse)
      case Ok(coordinates) => Ok(coordinates)
      case Err(_) => Err(MalformedGeocode)
  }

  /** `geocode_city(city)`, with the requests it issues. */
  function GeocodeCity<C>(city: string, fetch: Request<C> -> Outcome, parse: Value -> Option<C>)
    : (out: (Result<(C, C), Error<C>>, seq<Request<C>>))
    ensures out.0 == Err(InvalidInput) <==> Blank(city)
    ensures Blank(city) ==> out.1 == []
    ensures !Blank(city) ==> out.1 == [Geocode(city)]
    ensures !Blank(city) && ReadJson(fetch(Geocode(city))).Err? ==>
      out.0 == Err(Request(ReadJson(fetch(Geocode(city))).error))
    ensures !Blank(city) && ReadJson(fetch(Geocode(city))).Ok? ==>
      out.0 == InterpretHits(ReadJson(fetch(Geocode(city))).value, parse)
  {
    StripEmptyIffBlank(city);
    if city == [] || Strip(city) == [] then (Err(InvalidInput), [])
    else
      var request := Geocode(city);
      var result :=
        match ReadJson(fetch(request))
        case Err(f) => Err(Request(f))
        case Ok(hits) => InterpretHits(hits, parse);
      (result, [request])
  }
}
