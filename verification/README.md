# Weather service forecast resolution, modelled in Dafny

This project models the decision logic of `weather/service.py`. It covers three pieces:

- `geocode_city` turns a place name into the coordinates of the geocoder's first hit.
- `ForecastNotFoundError` is the error for a point that has no forecast.
- `get_nws_forecast_by_latlon` asks the National Weather Service `/points` endpoint for a coordinate pair. It then picks the candidate forecast URLs, tries them in order, and normalises the first forecast document that arrives.

Every HTTP exchange is an `Outcome` returned by a `fetch` parameter:

- a response, which has a status and a body that is either decoded JSON or undecodable;
- or a failed connection.

Each top-level operation returns its result together with the trace of requests it issued. This lets the contracts say which URLs were tried and which never were.

JSON is the `Json.Value` datatype. The model uses Python's own rules wherever the source depends on them:

- truthiness;
- `dict.get` returning `None` for a missing key;
- the hash equality that makes `True == 1 == 1.0`;
- the `TypeError` raised when an unhashable value is tested against a `set`;
- the exceptions raised by `x[0]`, `x["k"]` and `x.get` on the wrong type;
- the whitespace set of `str.strip`;
- the code-point order used by `sorted`.

Errors are `Errors.Error`:

- `InvalidInput` is the blank-city `ValueError`.
- `NoGeocodeResult` is the no-hit `ValueError`.
- `MalformedGeocode` is the `RequestException` raised for a bad hit.
- `Request(failure)` is an exception from `requests` that propagates unchanged. It is one of `HttpError(status)`, `NetworkError` or `JsonDecodeError`.
- `NoProperties` and `NoForecastEndpoints` are the two `ForecastNotFoundError`s.
- `AllEndpointsFailed(cause)` is the final `RequestException`. Its cause is the chained `last_exc`.
- `Unexpected(fault)` is an exception the code does not catch: `AttributeError`, `TypeError` or `KeyError`. The `Fault` type also has `IndexError`, which no path reaches because both `[0]` sites (lines 42 and 130) follow a truth test. It also has `ValueError`, which `float` raises inside the geocoder's `try` block.

Modules follow the source's steps:

- `Json`, `Http` and `Text` hold the Python and `requests` behaviour the code relies on.
- `Geocoding` models `geocode_city`.
- `Points` models the properties extraction.
- `Candidates` models the candidate list and de-duplication.
- `Normalisation` models the record built from a forecast document.
- `Fallback` models the loop over candidates.
- `Service` composes the pieces into `get_nws_forecast_by_latlon`.

### Code behaviour the model keeps

- Blank input (line 27) and "no geocoding result" (line 39) are both plain `ValueError`s. The model gives them two constructors of one error type so that contracts can tell them apart.
- The record of nulls (lines 141-147) is returned whenever no truthy period list is found, whether the lists are absent, `None` or empty.
- A 2xx forecast body that is not JSON skips that candidate (lines 127 and 152-155). The same body on `/points` is caught as a `ValueError` and reads as `{}` (lines 79-83). In `geocode_city` the error propagates (line 36).
- A decoded `/points` body that is not a JSON object has no `.get` (line 89). The call then ends with `AttributeError`.
- A forecast document that is not an object behaves the same way (line 128). So do a truthy `periods` value that cannot be indexed and a first period that is not an object (lines 130-132). Each raises an exception the loop does not catch, and the call ends with it.
- `forecastGridData` is appended only when it is truthy (lines 104-105).
- A truthy list- or object-valued candidate makes `c not in seen` raise `TypeError` (line 111). This happens before any forecast URL is requested.

## Model

| member | source | states |
|---|---|---|
| Text.TrimStart | weather/service.py:26 | The result is a suffix of the input. Everything dropped is whitespace. The result is empty or starts with a non-space character. |
| Text.TrimEnd | weather/service.py:26 | The result is a prefix of the input. Everything dropped is whitespace. The result is empty or ends with a non-space character. |
| Text.StripEmptyIffBlank | weather/service.py:26-27 | `city.strip()` is empty exactly when every character of `city` is whitespace, so the guard rejects exactly the blank names. |
| Text.SortedKeys | weather/service.py:116-119 | `sorted(props.keys())` lists every key exactly once. Consecutive keys are strictly increasing in code-point lexicographic order. |
| Text.BelowTotal | weather/service.py:118 | Any two strings are comparable under the order `sorted` uses. |
| Text.BelowTransitive | weather/service.py:118 | The order `sorted` uses is transitive. |
| Text.BelowAntisymmetric | weather/service.py:118 | Two strings that are each `<=` the other are equal. |
| Http.Receive | weather/service.py:66-76 | The response passes `raise_for_status` exactly when it arrived with a status outside 400–599, and then its body is kept. An error status becomes `HTTPError` with that status. A failed connection becomes a network error. |
| Http.ReadJson | weather/service.py:125-127 | A document is returned exactly when the response passed `raise_for_status` and its body decodes. An undecodable 2xx body raises the JSON decode error. Earlier failures pass through unchanged. |
| Geocoding.FirstHitCoordinates | weather/service.py:41-45 | The `try` block gives coordinates exactly when the first hit is an object whose `lat` and `lon` both parse, and then it gives those values. A `lat` that does not parse raises what `float` raises on it: `ValueError` for a string, `TypeError` otherwise. For a truthy hit list every failure is a `KeyError`, `TypeError` or `ValueError`, the three types the `except` clause catches. |
| Geocoding.UnparsableLatitudeIsValueError | weather/service.py:41-45 | For the hit list `[{"lat": "abc", "lon": "1"}]`, `float("abc")` raises `ValueError`, and the `except` clause turns it into the malformed-response error. |
| Geocoding.InterpretHits | weather/service.py:36-47 | A falsy hit list fails as not-found, and only such a list does. A result is returned exactly when the first hit is an object whose `lat` and `lon` both parse, and then it is those parsed values. Every other list fails as malformed. |
| Geocoding.GeocodeCity | weather/service.py:25-47 | A blank or empty name fails with the invalid-input error and issues no request. Only a blank name gets that error. Any other name issues exactly one geocoder request. A failure of that request propagates. A decoded answer is interpreted as in `InterpretHits`. |
| Points.OfferedProperties | weather/service.py:89 | The properties offered are the `properties` member when it is a dict, and the whole body otherwise. |
| Points.PropertiesOf | weather/service.py:66-96 | Properties are never empty when returned. A failed request propagates its error. An undecodable 2xx body gives `ForecastNotFoundError` for the point. A decoded non-object body raises `AttributeError`. Otherwise the dict-valued `properties` member is used, or else the whole body. It fails with `ForecastNotFoundError` exactly when that is empty. |
| Candidates.RawCandidates | weather/service.py:99-105 | The raw list starts with the URL `hourly` prefers, then the other one; missing keys read as `None`. The gridded-data URL is appended third exactly when it is truthy. Every entry is `None` or a value of the properties. |
| Candidates.DedupFrom | weather/service.py:108-114 | The loop completes exactly when every truthy candidate is hashable. Otherwise it raises `TypeError`. |
| Candidates.DedupFromProperties | weather/service.py:108-114 | The kept URLs are truthy and not already seen, and no two are equal. They form a subsequence of the raw list. Every truthy raw entry is represented among them. |
| Candidates.DedupIsFirstOccurrences | weather/service.py:108-114 | The loop's result equals an independent definition: the first occurrence of every truthy entry, in first-seen order. |
| Candidates.CandidatesClosedForm | weather/service.py:99-114 | The candidates are the first occurrences among the preferred URL, the other URL, and (only when truthy) the gridded-data URL. |
| Candidates.CandidatePriority | weather/service.py:99-114 | The URL `hourly` prefers comes first when truthy. The other URL comes next when it is truthy and different. The gridded-data URL comes last when truthy and new. There are at most three candidates. The list is empty exactly when none of the three is truthy. |
| Candidates.SameUrlRequestedOnce | weather/service.py:99-114 | `forecast` and `forecastHourly` naming the same URL give that URL once, whatever `hourly` is. |
| Candidates.HourlyDecidesOrder | weather/service.py:99-103 | For two different URLs, `hourly=False` tries `forecast` first and `hourly=True` tries `forecastHourly` first. |
| Normalisation.PeriodsOf | weather/service.py:128 | A non-object document raises `AttributeError`. With no truthy `properties`, the top-level `periods` is used. A truthy `properties` that is not a dict raises `AttributeError`. A truthy dict `properties` gives its truthy `periods`, and otherwise the top-level `periods`. |
| Normalisation.FromPeriod | weather/service.py:129-139 | A record built from a period always has `name` and `startTime` keys and keeps the document. `unit` is the period's `temperatureUnit`, and a missing key reads as `None` (shown for `unit` and `temperature`). |
| Normalisation.EmptyRecord | weather/service.py:141-147 | The null record keeps the document, and it differs from every record built from a period. |
| Normalisation.Normalise | weather/service.py:128-147 | A returned record keeps the document as `source_json`. `name` and `startTime` are present together, and absent exactly when no truthy period list was found. A record without them has null temperature, unit, short and detailed. A document that is not an object raises `AttributeError`. |
| Normalisation.NestedPeriodsPreferred | weather/service.py:128-139 | A non-empty `properties.periods` list is used. Its first period gives name, startTime, temperature, unit (from `temperatureUnit`), short and detailed. |
| Normalisation.TopLevelPeriodsFallback | weather/service.py:128-139 | When `properties` gives no truthy periods, the record comes from the first entry of the top-level `periods` list. |
| Normalisation.NoPeriodsGivesNullRecord | weather/service.py:128-147 | With no truthy period list anywhere, the call still succeeds. The record has null fields and no `name`/`startTime`, and it keeps the document. |
| Fallback.Conclude | weather/service.py:124-147 | A normalisation fault becomes an uncaught `Unexpected` error. It is never a caught failure or "all endpoints failed". That a document ends the loop is stated by `Fallback.LoopAnswered` and `Fallback.FirstSuccessStops`. |
| Fallback.TryCandidates | weather/service.py:121-155 | The URLs requested are a prefix of the candidates, and at least one is requested when there are candidates. Every requested URL except the last one failed. |
| Fallback.LoopAllFail | weather/service.py:121-158 | When every candidate fails, all are requested in order. The result is "all endpoints failed", chained to the last candidate's failure. |
| Fallback.LoopAnswered | weather/service.py:122-147 | When some candidate answers, the last URL requested is one that answered. Its document decides the result, and the result is not "all endpoints failed". |
| Fallback.FirstSuccessStops | weather/service.py:122-155 | If candidates `0..k-1` fail and candidate `k` answers, exactly the first `k+1` candidates are requested. Candidate `k`'s document decides the result. |
| Service.ForecastByLatLon | weather/service.py:63-66 | The first request of every call is the `/points` lookup for the given coordinates. |
| Service.PointsFailureStops | weather/service.py:66-96 | When the `/points` step fails, its error is the call's error and nothing else is requested. |
| Service.EmptyPropertiesNotFound | weather/service.py:79-96 | Three bodies fail with `ForecastNotFoundError` for the point before any forecast URL is requested: an undecodable 2xx body, `{}`, and `{"properties": {}}`. |
| Service.NoCandidateListsSortedKeys | weather/service.py:116-119 | With no usable candidate, the call fails with `ForecastNotFoundError` for the point. The error lists every property key once, in sorted order, and no forecast URL is requested. |
| Service.LoopDecides | weather/service.py:116-155 | With at least one candidate, the call's result is the fallback loop's result. Its trace is `/points` followed by the loop's requests. |
| Service.ForecastRequestsDistinct | weather/service.py:122-125 | Distinct candidate URLs give distinct forecast requests. |
| Service.LoopTriesDistinct | weather/service.py:122-155 | Over distinct candidates, the loop requests distinct URLs, and all but the last failed. |
| Service.ForecastRequestsArePrefix | weather/service.py:108-155 | The forecast URLs the call requests are a prefix of the de-duplicated candidates, each requested once. Every one but the last failed, so nothing after the first answer is requested. |
| Service.AllFailedChainsLastFailure | weather/service.py:121-158 | When every candidate fails, the call requests `/points` and then every candidate. It raises "all endpoints failed" chained to the last candidate's failure. |
| Service.AllFailedHasCause | weather/service.py:121-158 | "All endpoints failed" always carries a cause: `last_exc` is never `None` at the final `raise`. |
| Service.FallsBackPastHttpError | weather/service.py:99-155 | Scenario: the preferred URL answers 503 and the other URL answers with a document. The call returns the other document's first period after requesting `/points`, the preferred URL and the other URL, in that order. |

## Left out

- `_build_session` (weather/service.py:10-23) is left out: it only configures urllib3 retries and request headers. The session's automatic retries on 429/500/502/503/504 are therefore not modelled. A failed outcome stands for whatever the session finally returned.
- The model assumes requests 2.27 or later, where `r.json()` raises `requests.JSONDecodeError`. That error is both a `ValueError` and a `RequestException`. Older versions raise a plain `ValueError`. A non-JSON 2xx forecast body would then end the call instead of skipping the candidate.
- Real HTTP, timeouts, the `session` and `timeout` parameters, and logging are all left out. Logging never changes a result.
- The URL and query text are not modelled. This covers the Nominatim query (lines 32-33) and the `points_url` formatting (line 63). Requests are identified by their arguments instead.
- Float parsing is the abstract `parse` parameter of `geocode_city`. Coordinates are a type parameter, so float formatting and precision do not arise.
- Error message text is left out. The exact comma-joined message is not modelled; `NoForecastEndpoints` carries the sorted key list the message is built from. The no-hit message at line 39 lacks its `f` prefix and so reads literally `{city!r}`, which is message text only.
- JSON numbers are reals. NaN, infinities and integer/float distinctions are not modelled beyond truthiness and hash equality. No decision depends on key order. Order shows only in log lines (73, 87, 90) and in the returned `source_json` (lines 138 and 146). The model does not keep the key order of `source_json`. Duplicate keys are not representable.
- `weather/api.py` and `weather/cli.py` are not part of this model. Neither is the test file, which calls a `get_weather` function that `weather/service.py` does not define.
- Service.ForecastByLatLon: its own contract states only the first request. The other properties of the call are stated by the `Service` lemmas listed above.
