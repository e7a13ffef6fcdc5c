/** The loop over candidate forecast URLs: try each in order, skip failed exchanges, stop at
    the first document that arrives. */
module Fallback {
  import opened Wrappers
  import opened Json
  import opened Errors
  import opened Http
  import opened Normalisation

  /** The exchange with candidate `url` raised one of the exceptions the loop catches. */
  predicate Fails<C>(fetch: Request<C> -> Outcome, url: Value) {
    ReadJson(fetch(Forecast(url))).Err?
  }

  /** The exception candidate `url` raised. */
  function FailureOf<C>(fetch: Request<C> -> Outcome, url: Value): Failure
    requires Fails(fetch, url)
  {
    ReadJson(fetch(Forecast(url))).error
  }

  /** What the loop does with a document that arrived: the record, or the uncaught exception. */
  function Conclude<C>(doc: Value): (r: Result<Normalized, Error<C>>)
    ensures r.Err? ==> r.error.Unexpected?
  {
    match Normalise(doc)
    case Ok(record) => Ok(record)
    case Err(fault) => Err(Unexpected(fault))
  }

  /** The loop over `cands`, entered with `last` as `last_exc`. Returns the call's result and the
      URLs requested, in order. */
  function TryCandidates<C>(cands: seq<Value>, fetch: Request<C> -> Outcome, last: Option<Failure>)
    : (out: (Result<Normalized, Error<C>>, seq<Value>))
    // the URLs requested are a prefix of the candidates, at least one when there is one
    ensures |out.1| <= |cands| && out.1 == cands[..|out.1|]
    ensures |cands| > 0 ==> |out.1| > 0
    // every request but the last one failed
    ensures forall i | 0 <= i < |out.1| - 1 :: Fails(fetch, out.1[i])
    decreases |cands|
  {
    if |cands| == 0 then (Err(AllEndpointsFailed(last)), [])
    else
      var url := cands[0];
      match ReadJson(fetch(Forecast(url)))
      case Err(failure) =>
        var (result, tried) := TryCandidates(cands[1..], fetch, Some(failure));
        (result, [url] + tried)
      case Ok(doc) => (Conclude(doc), [url])
  }

  /** When every candidate fails, every candidate is requested and the call raises "all
      endpoints failed" from the failure of the last one (from `last` when there is none). */
  lemma {:induction false} LoopAllFail<C>(cands: seq<Value>, fetch: Request<C> -> Outcome, last: Option<Failure>)
    requires forall i | 0 <= i < |cands| :: Fails(fetch, cands[i])
    ensures var out := TryCandidates(cands, fetch, last);
      && out.1 == cands
      && out.0 == Err(AllEndpointsFailed(
           if |cands| == 0 then last else Some(FailureOf(fetch, cands[|cands| - 1]))))
    decreases |cands|
  {
    if |cands| > 0 {
      var failure := ReadJson(fetch(Forecast(cands[0]))).error;
      var rest := cands[1..];
      assert forall i | 0 <= i < |rest| :: rest[i] == cands[i + 1];
      LoopAllFail(rest, fetch, Some(failure));
      var tail := TryCandidates(rest, fetch, Some(failure));
      assert TryCandidates(cands, fetch, last) == (tail.0, [cands[0]] + tail.1);
      assert [cands[0]] + rest == cands;
    }
  }

  /** When some candidate answers, the last URL requested is the first that answered, its
      document decides the result, and the call does not raise "all endpoints failed". */
  lemma {:induction false} LoopAnswered<C>(cands: seq<Value>, fetch: Request<C> -> Outcome, last: Option<Failure>)
    requires exists i | 0 <= i < |cands| :: !Fails(fetch, cands[i])
    ensures var out := TryCandidates(cands, fetch, last);
      && |out.1| > 0
      && !Fails(fetch, out.1[|out.1| - 1])
      && out.0 == Conclude(ReadJson(fetch(Forecast(out.1[|out.1| - 1]))).value)
      && !(out.0.Err? && out.0.error.AllEndpointsFailed?)
    decreases |cands|
  {
    if Fails(fetch, cands[0]) {
      var failure := ReadJson(fetch(Forecast(cands[0]))).error;
      var i :| 0 <= i < |cands| && !Fails(fetch, cands[i]);
      assert cands[1..][i - 1] == cands[i];
      LoopAnswered(cands[1..], fetch, Some(failure));
    }
  }

  /** Once candidate `k` answers, after `0..k-1` failed, exactly the first `k + 1` candidates have
      been requested and candidate `k`'s document decides the result. */
  lemma {:induction false} FirstSuccessStops<C>(cands: seq<Value>, fetch: Request<C> -> Outcome, last: Option<Failure>, k: nat)
    requires k < |cands| && !Fails(fetch, cands[k])
    requires forall i | 0 <= i < k :: Fails(fetch, cands[i])
    ensures TryCandidates(cands, fetch, last).1 == cands[..k + 1]
    ensures TryCandidates(cands, fetch, last).0 == Conclude(ReadJson(fetch(Forecast(cands[k]))).value)
    decreases k
  {
    if k == 0 {
      assert cands[..1] == [cands[0]];
    } else {
      var failure := ReadJson(fetch(Forecast(cands[0]))).error;
      FirstSuccessStops(cands[1..], fetch, Some(failure), k - 1);
      assert [cands[0]] + cands[1..][..k] == cands[..k + 1];
    }
  }
}
