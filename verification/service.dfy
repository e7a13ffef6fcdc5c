/** `get_nws_forecast_by_latlon`: the `/points` lookup, candidate selection, and the fallback
    loop over forecast URLs, composed. */
module Service {
  import opened Wrappers
  import opened Json
  import opened Errors
  import opened Http
  import opened Text
  import opened Points
  import opened Candidates
  import opened Normalisation
  import opened Fallback

  /** The forecast requests for `urls`, in order. */
  function ForecastRequests<C>(urls: seq<Value>): (rs: seq<Request<C>>)
    ensures |rs| == |urls|
    ensures forall i | 0 <= i < |urls| :: rs[i] == Forecast(urls[i])
  {
    seq(|urls|, i requires 0 <= i < |urls| => Forecast(urls[i]))
  }

  /** `get_nws_forecast_by_latlon(lat, lon, hourly=hourly)`: the call's result and every request
      it issues, in order. */
  function ForecastByLatLon<C>(lat: C, lon: C, hourly: bool, fetch: Request<C> -> Outcome)
    : (out: (Result<Normalized, Error<C>>, seq<Request<C>>))
    ensures |out.1| > 0 && out.1[0] == Points(lat, lon)
  {
    var pointsRequest := Points(lat, lon);
    match PropertiesOf(lat, lon, fetch(pointsRequest))
    case Err(e) => (Err(e), [pointsRequest])
    case Ok(props) =>
      match Dedup(RawCandidates(props, hourly))
      case Err(fault) => (Err(Unexpected(fault)), [pointsRequest])
      case Ok(cands) =>
        if |cands| == 0 then
          (Err(NoForecastEndpoints(lat, lon, SortedKeys(props.Keys))), [pointsRequest])
        else
          var (result, tried) := TryCandidates(cands, fetch, None);
          (result, [pointsRequest] + ForecastRequests(tried))
  }

  /** The candidate URLs of a successful `/points` answer. */
  function CandidatesOf<C>(lat: C, lon: C, hourly: bool, fetch: Request<C> -> Outcome): Result<seq<Value>, Fault>
    requires PropertiesOf(lat, lon, fetch(Points(lat, lon))).Ok?
  {
    Dedup(RawCandidates(PropertiesOf(lat, lon, fetch(Points(lat, lon))).value, hourly))
  }

  /** A failed `/points` step ends the call with its error; no forecast URL is requested. */
  lemma PointsFailureStops<C>(lat: C, lon: C, hourly: bool, fetch: Request<C> -> Outcome)
    requires PropertiesOf(lat, lon, fetch(Points(lat, lon))).Err?
    ensures ForecastByLatLon(lat, lon, hourly, fetch) ==
      (Err(PropertiesOf(lat, lon, fetch(Points(lat, lon))).error), [Points(lat, lon)])
  {
  }

  /** Empty properties, including a 2xx `/points` body that is not JSON, fail with
      `ForecastNotFoundError` for the coordinates before any forecast URL is requested. */
  lemma EmptyPropertiesNotFound<C>(lat: C, lon: C, hourly: bool, fetch: Request<C> -> Outcome)
    requires Receive(fetch(Points(lat, lon))).Ok?
    requires fetch(Points(lat, lon)).body == Unparsable
      || fetch(Points(lat, lon)).body == Parsed(Obj(map[]))
      || fetch(Points(lat, lon)).body == Parsed(Obj(map["properties" := Obj(map[])]))
    ensures ForecastByLatLon(lat, lon, hourly, fetch) == (Err(NoProperties(lat, lon)), [Points(lat, lon)])
  {
  }

  /** No usable candidate: `ForecastNotFoundError` listing every property key once, sorted, and
      no forecast URL requested. */
  lemma NoCandidateListsSortedKeys<C>(lat: C, lon: C, hourly: bool, fetch: Request<C> -> Outcome)
    requires PropertiesOf(lat, lon, fetch(Points(lat, lon))).Ok?
    requires CandidatesOf(lat, lon, hourly, fetch) == Ok([])
    ensures var props := PropertiesOf(lat, lon, fetch(Points(lat, lon))).value;
      var out := ForecastByLatLon(lat, lon, hourly, fetch);
      && out.1 == [Points(lat, lon)]
      && out.0.Err? && out.0.error.NoForecastEndpoints?
      && out.0.error.lat == lat && out.0.error.lon == lon
      && |out.0.error.available| == |props|
      && (forall key | key in props :: key in out.0.error.available)
      && (forall i, j | 0 <= i < j < |out.0.error.available| :: Below(out.0.error.available[i], out.0.error.available[j]))
  {
  }

  /** Distinct URLs make distinct requests. */
  lemma ForecastRequestsDistinct<C>(urls: seq<Value>)
    requires DistinctKeys(urls)
    ensures var rs := ForecastRequests<C>(urls);
      forall i, j | 0 <= i < j < |rs| :: rs[i] != rs[j]
  {
    var rs := ForecastRequests<C>(urls);
    forall i, j | 0 <= i < j < |rs|
      ensures rs[i] != rs[j]
    {
      assert HashKey(urls[i]) != HashKey(urls[j]);
    }
  }

  /** With at least one candidate, the call is the fallback loop behind the `/points` request. */
  lemma LoopDecides<C>(lat: C, lon: C, hourly: bool, fetch: Request<C> -> Outcome)
    requires PropertiesOf(lat, lon, fetch(Points(lat, lon))).Ok?
    requires CandidatesOf(lat, lon, hourly, fetch).Ok? && |CandidatesOf(lat, lon, hourly, fetch).value| > 0
    ensures var loop := TryCandidates(CandidatesOf(lat, lon, hourly, fetch).value, fetch, None);
      ForecastByLatLon(lat, lon, hourly, fetch) == (loop.0, [Points(lat, lon)] + ForecastRequests(loop.1))
  {
  }

  /** The URLs a loop over distinct candidates requests are distinct, and all but the last failed. */
  lemma LoopTriesDistinct<C>(cands: seq<Value>, fetch: Request<C> -> Outcome)
    requires DistinctKeys(cands)
    ensures var tried := TryCandidates(cands, fetch, None).1;
      && DistinctKeys(tried)
      && forall k | 0 <= k < |tried| - 1 :: Fails(fetch, cands[k])
  {
    var tried := TryCandidates(cands, fetch, None).1;
    assert forall i | 0 <= i < |tried| :: tried[i] == cands[i];
  }

  /** The requests after `/points` are the tried URLs, one each. */
  lemma RequestsOfTried<C>(lat: C, lon: C, tried: seq<Value>)
    requires DistinctKeys(tried)
    ensures var requests := [Points(lat, lon)] + ForecastRequests<C>(tried);
      forall i, j | 1 <= i < j < |requests| :: requests[i] != requests[j]
  {
    var requests := [Points(lat, lon)] + ForecastRequests<C>(tried);
    ForecastRequestsDistinct<C>(tried);
    assert forall i | 1 <= i < |requests| :: requests[i] == ForecastRequests<C>(tried)[i - 1];
  }

  /** The forecast URLs requested are a prefix of the candidates, each requested once, and
      every one but the last failed, so none comes after the first one that answered. */
  lemma ForecastRequestsArePrefix<C>(lat: C, lon: C, hourly: bool, fetch: Request<C> -> Outcome)
    requires PropertiesOf(lat, lon, fetch(Points(lat, lon))).Ok?
    requires CandidatesOf(lat, lon, hourly, fetch).Ok?
    ensures var cands := CandidatesOf(lat, lon, hourly, fetch).value;
      var requests := ForecastByLatLon(lat, lon, hourly, fetch).1;
      var n := |requests| - 1;
      && n <= |cands|
      && requests == [Points(lat, lon)] + ForecastRequests(cands[..n])
      && (forall i, j | 1 <= i < j < |requests| :: requests[i] != requests[j])
      && (forall k | 0 <= k < n - 1 :: Fails(fetch, cands[k]))
  {
    var props := PropertiesOf(lat, lon, fetch(Points(lat, lon))).value;
    var cands := CandidatesOf(lat, lon, hourly, fetch).value;
    DedupFromProperties(RawCandidates(props, hourly), {});
    if |cands| > 0 {
      LoopDecides(lat, lon, hourly, fetch);
      var tried := TryCandidates(cands, fetch, None).1;
      LoopTriesDistinct(cands, fetch);
      RequestsOfTried<C>(lat, lon, tried);
    } else {
      assert cands[..0] == [];
    }
  }

  /** When every candidate fails the call raises "all endpoints failed" with the last
      candidate's failure as its cause, after requesting every candidate. */
  lemma AllFailedChainsLastFailure<C>(lat: C, lon: C, hourly: bool, fetch: Request<C> -> Outcome)
    requires PropertiesOf(lat, lon, fetch(Points(lat, lon))).Ok?
    requires CandidatesOf(lat, lon, hourly, fetch).Ok?
    requires var cands := CandidatesOf(lat, lon, hourly, fetch).value;
      |cands| > 0 && forall i | 0 <= i < |cands| :: Fails(fetch, cands[i])
    ensures var cands := CandidatesOf(lat, lon, hourly, fetch).value;
      var out := ForecastByLatLon(lat, lon, hourly, fetch);
      && out.0 == Err(AllEndpointsFailed(Some(FailureOf(fetch, cands[|cands| - 1]))))
      && out.1 == [Points(lat, lon)] + ForecastRequests(cands)
  {
    var cands := CandidatesOf(lat, lon, hourly, fetch).value;
    LoopDecides(lat, lon, hourly, fetch);
    LoopAllFail(cands, fetch, None);
  }

  /** "All endpoints failed" always chains a cause: the loop only runs with a candidate, so
      `last_exc` is set before the final `raise`. */
  lemma AllFailedHasCause<C>(lat: C, lon: C, hourly: bool, fetch: Request<C> -> Outcome)
    requires ForecastByLatLon(lat, lon, hourly, fetch).0.Err?
    requires ForecastByLatLon(lat, lon, hourly, fetch).0.error.AllEndpointsFailed?
    ensures ForecastByLatLon(lat, lon, hourly, fetch).0.error.cause.Some?
  {
    var cands := CandidatesOf(lat, lon, hourly, fetch).value;
    LoopDecides(lat, lon, hourly, fetch);
    if forall i | 0 <= i < |cands| :: Fails(fetch, cands[i]) {
      LoopAllFail(cands, fetch, None);
    } else {
      LoopAnswered(cands, fetch, None);
    }
  }

  /** Candidate "A" answers with a server error, "B" with a document: the call returns B's first
      period and has requested `/points`, "A" and "B", in that order. */
  lemma FallsBackPastHttpError<C>(lat: C, lon: C, fetch: Request<C> -> Outcome, period: map<string, Value>)
    requires fetch(Points(lat, lon)) ==
      Response(200, Parsed(Obj(map["properties" := Obj(map["forecast" := Str("A"), "forecastHourly" := Str("B")])])))
    requires fetch(Forecast(Str("A"))) == Response(503, Unparsable)
    requires fetch(Forecast(Str("B"))) ==
      Response(200, Parsed(Obj(map["properties" := Obj(map["periods" := Arr([Obj(period)])])])))
    ensures var doc := Obj(map["properties" := Obj(map["periods" := Arr([Obj(period)])])]);
      ForecastByLatLon(lat, lon, false, fetch) ==
        (Ok(FromPeriod(period, doc)), [Points(lat, lon), Forecast(Str("A")), Forecast(Str("B"))])
  {
    var props := map["forecast" := Str("A"), "forecastHourly" := Str("B")];
    var doc := Obj(map["properties" := Obj(map["periods" := Arr([Obj(period)])])]);
    var cands := [Str("A"), Str("B")];
    assert PropertiesOf(lat, lon, fetch(Points(lat, lon))) == Ok(props);
    HourlyDecidesOrder();
    assert CandidatesOf(lat, lon, false, fetch) == Ok(cands);
    LoopDecides(lat, lon, false, fetch);
    SecondCandidateAnswers(fetch, period);
    TwoRequests<C>(lat, lon, Str("A"), Str("B"));
  }

  /** The trace `/points`, `a`, `b` written out. */
  lemma TwoRequests<C>(lat: C, lon: C, a: Value, b: Value)
    ensures [Points(lat, lon)] + ForecastRequests<C>([a, b]) == [Points(lat, lon), Forecast(a), Forecast(b)]
  {
    var rs := ForecastRequests<C>([a, b]);
    assert rs == [Forecast(a), Forecast(b)] by {
      assert rs[0] == Forecast(a) && rs[1] == Forecast(b);
    }
  }

  /** The loop of the scenario above: "A" fails with 503, "B" answers and decides the result. */
  lemma SecondCandidateAnswers<C>(fetch: Request<C> -> Outcome, period: map<string, Value>)
    requires fetch(Forecast(Str("A"))) == Response(503, Unparsable)
    requires fetch(Forecast(Str("B"))) ==
      Response(200, Parsed(Obj(map["properties" := Obj(map["periods" := Arr([Obj(period)])])])))
    ensures var doc := Obj(map["properties" := Obj(map["periods" := Arr([Obj(period)])])]);
      TryCandidates([Str("A"), Str("B")], fetch, None) == (Ok(FromPeriod(period, doc)), [Str("A"), Str("B")])
  {
    var doc := Obj(map["properties" := Obj(map["periods" := Arr([Obj(period)])])]);
    var cands := [Str("A"), Str("B")];
    assert cands[1..] == [Str("B")];
    NestedPeriodsPreferred(doc, map["periods" := Arr([Obj(period)])], period, []);
    assert [Obj(period)] + [] == [Obj(period)];
    assert ReadJson(fetch(Forecast(Str("A")))) == Err(HttpError(503));
    assert ReadJson(fetch(Forecast(Str("B")))) == Ok(doc);
    assert Conclude<C>(doc) == Ok(FromPeriod(period, doc));
    assert TryCandidates([Str("B")], fetch, Some(HttpError(503))) == (Ok(FromPeriod(period, doc)), [Str("B")]);
    assert [Str("A")] + [Str("B")] == cands;
  }
}
