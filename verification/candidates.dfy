/** The candidate forecast URLs of a `/points` answer: priority order, then de-duplication. */
module Candidates {
  import opened Wrappers
  import opened Json
  import opened Errors

  /** The candidate list before de-duplication: the preferred endpoint, the other one, then the
      gridded-data endpoint when it is truthy. Missing keys read as `None`. */
  function RawCandidates(props: map<string, Value>, hourly: bool): (r: seq<Value>)
    ensures 2 <= |r| <= 3
    ensures r[0] == Get(props, if hourly then "forecastHourly" else "forecast")
    ensures r[1] == Get(props, if hourly then "forecast" else "forecastHourly")
    ensures |r| == 3 <==> Truthy(Get(props, "forecastGridData"))
    ensures |r| == 3 ==> r[2] == Get(props, "forecastGridData")
    ensures forall i | 0 <= i < |r| :: r[i] == Null || r[i] in props.Values
  {
    var ordered :=
      if hourly then [Get(props, "forecastHourly"), Get(props, "forecast")]
      else [Get(props, "forecast"), Get(props, "forecastHourly")];
    if Truthy(Get(props, "forecastGridData")) then ordered + [Get(props, "forecastGridData")] else ordered
  }

  /** `a` can be obtained from `b` by deleting entries. */
  predicate IsSubsequence(a: seq<Value>, b: seq<Value>) {
    |a| == 0 || (|b| > 0 && ((a[0] == b[0] && IsSubsequence(a[1..], b[1..])) || IsSubsequence(a, b[1..])))
  }

  /** No two entries are equal under Python's `==`. */
  predicate DistinctKeys(vs: seq<Value>) {
    forall i, j | 0 <= i < j < |vs| :: HashKey(vs[i]) != HashKey(vs[j])
  }

  /** The de-duplication loop over `cs`, started with hash classes `seen` already taken:
      truthy entries not seen before are kept, in order; a truthy `list` or `dict` makes the
      membership test raise `TypeError`. */
  function DedupFrom(cs: seq<Value>, seen: set<Value>): (r: Result<seq<Value>, Fault>)
    ensures r.Ok? <==> forall i | 0 <= i < |cs| && Truthy(cs[i]) :: Hashable(cs[i])
    ensures r.Err? ==> r.error == TypeError
    decreases |cs|
  {
    if |cs| == 0 then Ok([])
    else
      var c := cs[0];
      if !Truthy(c) then DedupFrom(cs[1..], seen)
      else if !Hashable(c) then Err(TypeError)
      else if HashKey(c) in seen then DedupFrom(cs[1..], seen)
      else
        match DedupFrom(cs[1..], seen + {HashKey(c)})
        case Err(f) => Err(f)
        case Ok(rest) => Ok([c] + rest)
  }

  /** What the loop keeps: truthy entries, none already seen, no two equal, in their original
      relative order, and every truthy entry of `cs` is represented. */
  lemma {:induction false} DedupFromProperties(cs: seq<Value>, seen: set<Value>)
    requires DedupFrom(cs, seen).Ok?
    ensures var r := DedupFrom(cs, seen).value;
      && (forall i | 0 <= i < |r| :: Truthy(r[i]) && HashKey(r[i]) !in seen)
      && DistinctKeys(r)
      && IsSubsequence(r, cs)
      && (forall i | 0 <= i < |cs| && Truthy(cs[i]) :: HashKey(cs[i]) in seen + KeysOf(r))
    decreases |cs|
  {
    if |cs| > 0 {
      var c, rest := cs[0], cs[1..];
      if !Truthy(c) || HashKey(c) in seen {
        DedupFromProperties(rest, seen);
        assert forall i | 1 <= i < |cs| :: cs[i] == rest[i - 1];
      } else {
        var tail := DedupFrom(rest, seen + {HashKey(c)});
        DedupFromProperties(rest, seen + {HashKey(c)});
        var r := [c] + tail.value;
        assert r[1..] == tail.value;
        KeysOfAppend([c], c);
        assert KeysOf(r) == {HashKey(c)} + KeysOf(tail.value) by {
          assert forall i | 1 <= i < |r| :: r[i] == tail.value[i - 1];
        }
        assert forall i | 1 <= i < |cs| :: cs[i] == rest[i - 1];
      }
    }
  }

  /** The `uniq` list the source builds from `cs`. */
  function Dedup(cs: seq<Value>): Result<seq<Value>, Fault> {
    DedupFrom(cs, {})
  }

  /** Reference definition of first-seen order, grown one entry at a time from the back:
      an entry is kept when it is truthy and nothing equal to it was kept from before it. */
  function FirstOccurrences(cs: seq<Value>): seq<Value> {
    if |cs| == 0 then []
    else
      var kept := FirstOccurrences(cs[..|cs| - 1]);
      var c := cs[|cs| - 1];
      if Truthy(c) && HashKey(c) !in KeysOf(kept) then kept + [c] else kept
  }

  /** Appending an entry adds its hash class to the key set. */
  lemma KeysOfAppend(a: seq<Value>, c: Value)
    ensures KeysOf(a + [c]) == KeysOf(a) + {HashKey(c)}
  {
    var ac := a + [c];
    assert forall i | 0 <= i < |a| :: ac[i] == a[i];
    assert ac[|a|] == c;
  }

  /** One step of the reference definition, for a list written as `pre + [c]`. */
  lemma FirstOccurrencesSnoc(pre: seq<Value>, c: Value)
    ensures FirstOccurrences(pre + [c]) ==
      if Truthy(c) && HashKey(c) !in KeysOf(FirstOccurrences(pre)) then FirstOccurrences(pre) + [c]
      else FirstOccurrences(pre)
  {
    var pre' := pre + [c];
    assert pre'[..|pre'| - 1] == pre;
  }

  /** Running the loop on `cs` after a prefix `pre`, with `seen` the hash classes kept from
      `pre`, extends the first occurrences of `pre` to those of `pre + cs`. */
  lemma {:induction false} DedupFromExtends(pre: seq<Value>, cs: seq<Value>, seen: set<Value>)
    requires seen == KeysOf(FirstOccurrences(pre))
    requires DedupFrom(cs, seen).Ok?
    ensures FirstOccurrences(pre + cs) == FirstOccurrences(pre) + DedupFrom(cs, seen).value
    decreases |cs|, 1
  {
    if |cs| == 0 {
      assert pre + cs == pre;
    } else if Truthy(cs[0]) && HashKey(cs[0]) !in seen {
      DedupFromExtendsKeep(pre, cs, seen);
    } else {
      DedupFromExtendsSkip(pre, cs, seen);
    }
  }

  /** The step of `DedupFromExtends` that keeps `cs[0]`. */
  lemma {:induction false} DedupFromExtendsKeep(pre: seq<Value>, cs: seq<Value>, seen: set<Value>)
    requires seen == KeysOf(FirstOccurrences(pre))
    requires |cs| > 0 && Truthy(cs[0]) && HashKey(cs[0]) !in seen
    requires DedupFrom(cs, seen).Ok?
    ensures FirstOccurrences(pre + cs) == FirstOccurrences(pre) + DedupFrom(cs, seen).value
    decreases |cs|, 0
  {
    var c, rest := cs[0], cs[1..];
    var kept := FirstOccurrences(pre);
    assert (pre + [c]) + rest == pre + cs;
    FirstOccurrencesSnoc(pre, c);
    KeysOfAppend(kept, c);
    var tail := DedupFrom(rest, seen + {HashKey(c)});
    assert tail.Ok? && DedupFrom(cs, seen).value == [c] + tail.value;
    DedupFromExtends(pre + [c], rest, seen + {HashKey(c)});
    assert (kept + [c]) + tail.value == kept + ([c] + tail.value);
  }

  /** The step of `DedupFromExtends` that drops `cs[0]`. */
  lemma {:induction false} DedupFromExtendsSkip(pre: seq<Value>, cs: seq<Value>, seen: set<Value>)
    requires seen == KeysOf(FirstOccurrences(pre))
    requires |cs| > 0 && !(Truthy(cs[0]) && HashKey(cs[0]) !in seen)
    requires DedupFrom(cs, seen).Ok?
    ensures FirstOccurrences(pre + cs) == FirstOccurrences(pre) + DedupFrom(cs, seen).value
    decreases |cs|, 0
  {
    var c, rest := cs[0], cs[1..];
    assert (pre + [c]) + rest == pre + cs;
    FirstOccurrencesSnoc(pre, c);
    assert DedupFrom(cs, seen) == DedupFrom(rest, seen);
    DedupFromExtends(pre + [c], rest, seen);
  }

  /** The loop keeps exactly the first occurrences, in first-seen order. */
  lemma DedupIsFirstOccurrences(cs: seq<Value>)
    requires Dedup(cs).Ok?
    ensures Dedup(cs).value == FirstOccurrences(cs)
  {
    assert KeysOf(FirstOccurrences([])) == {};
    DedupFromExtends([], cs, {});
    assert [] + cs == cs;
  }

  /** First occurrences of a one-entry list. */
  lemma FirstOccurrencesOfOne(p: Value)
    ensures FirstOccurrences([p]) == if Truthy(p) then [p] else []
    ensures KeysOf(FirstOccurrences([p])) == if Truthy(p) then {HashKey(p)} else {}
  {
    FirstOccurrencesSnoc([], p);
    assert [] + [p] == [p];
  }

  /** First occurrences of a two-entry list. */
  lemma FirstOccurrencesOfTwo(p: Value, o: Value)
    ensures FirstOccurrences([p, o]) ==
      (if Truthy(p) then [p] else []) + (if Truthy(o) && !(Truthy(p) && HashKey(p) == HashKey(o)) then [o] else [])
    ensures KeysOf(FirstOccurrences([p, o])) ==
      (if Truthy(p) then {HashKey(p)} else {}) + (if Truthy(o) then {HashKey(o)} else {})
  {
    var one := FirstOccurrences([p]);
    FirstOccurrencesOfOne(p);
    FirstOccurrencesSnoc([p], o);
    assert [p] + [o] == [p, o];
    if Truthy(o) && HashKey(o) !in KeysOf(one) {
      KeysOfAppend(one, o);
    } else {
      assert FirstOccurrences([p, o]) == one;
      assert !Truthy(o) || (Truthy(p) && HashKey(p) == HashKey(o));
      assert one + [] == one;
    }
  }

  /** First occurrences of a three-entry list. */
  lemma FirstOccurrencesOfThree(p: Value, o: Value, g: Value)
    ensures var two := FirstOccurrences([p, o]);
      FirstOccurrences([p, o, g]) == if Truthy(g) && HashKey(g) !in KeysOf(two) then two + [g] else two
  {
    FirstOccurrencesSnoc([p, o], g);
    assert [p, o] + [g] == [p, o, g];
  }

  /** The candidates are the first occurrences among the preferred, the other, and (when
      truthy) the gridded-data endpoint. */
  lemma CandidatesClosedForm(props: map<string, Value>, hourly: bool)
    requires Dedup(RawCandidates(props, hourly)).Ok?
    ensures var p := Get(props, if hourly then "forecastHourly" else "forecast");
      var o := Get(props, if hourly then "forecast" else "forecastHourly");
      var g := Get(props, "forecastGridData");
      var two := (if Truthy(p) then [p] else []) + (if Truthy(o) && !(Truthy(p) && HashKey(p) == HashKey(o)) then [o] else []);
      var keys := (if Truthy(p) then {HashKey(p)} else {}) + (if Truthy(o) then {HashKey(o)} else {});
      Dedup(RawCandidates(props, hourly)).value == if Truthy(g) && HashKey(g) !in keys then two + [g] else two
  {
    var raw := RawCandidates(props, hourly);
    DedupIsFirstOccurrences(raw);
    var p, o := raw[0], raw[1];
    FirstOccurrencesOfTwo(p, o);
    if |raw| == 2 {
      assert raw == [p, o];
    } else {
      var g := raw[2];
      assert raw == [p, o, g];
      FirstOccurrencesOfThree(p, o, g);
    }
  }

  /** The candidate order policy: the endpoint `hourly` prefers comes first, the other one
      second, the gridded-data endpoint last; entries that are missing, empty or repeated drop out. */
  lemma CandidatePriority(props: map<string, Value>, hourly: bool)
    requires Dedup(RawCandidates(props, hourly)).Ok?
    ensures var cands := Dedup(RawCandidates(props, hourly)).value;
      var preferred := Get(props, if hourly then "forecastHourly" else "forecast");
      var other := Get(props, if hourly then "forecast" else "forecastHourly");
      var grid := Get(props, "forecastGridData");
      && |cands| <= 3
      && (Truthy(preferred) ==> |cands| > 0 && cands[0] == preferred)
      && (!Truthy(preferred) && Truthy(other) ==> |cands| > 0 && cands[0] == other)
      && (Truthy(preferred) && Truthy(other) && HashKey(preferred) != HashKey(other) ==>
            |cands| >= 2 && cands[..2] == [preferred, other])
      && (Truthy(grid) && HashKey(grid) != HashKey(preferred) && HashKey(grid) != HashKey(other) ==>
            |cands| > 0 && cands[|cands| - 1] == grid)
      && (!Truthy(preferred) && !Truthy(other) && !Truthy(grid) <==> cands == [])
  {
    CandidatesClosedForm(props, hourly);
    var preferred := Get(props, if hourly then "forecastHourly" else "forecast");
    var other := Get(props, if hourly then "forecast" else "forecastHourly");
    var grid := Get(props, "forecastGridData");
    var two := (if Truthy(preferred) then [preferred] else [])
      + (if Truthy(other) && !(Truthy(preferred) && HashKey(preferred) == HashKey(other)) then [other] else []);
    assert |two| <= 2;
    if Truthy(preferred) {
      assert two[0] == preferred;
    } else {
      assert two == (if Truthy(other) then [other] else []);
    }
  }

  /** Two keys naming the same URL give a single candidate. */
  lemma SameUrlRequestedOnce(hourly: bool)
    ensures Dedup(RawCandidates(map["forecast" := Str("A"), "forecastHourly" := Str("A")], hourly)) == Ok([Str("A")])
  {
    var props := map["forecast" := Str("A"), "forecastHourly" := Str("A")];
    assert Get(props, "forecast") == Get(props, "forecastHourly") == Str("A");
    assert Get(props, "forecastGridData") == Null;
    assert RawCandidates(props, hourly) == [Str("A"), Str("A")];
    CandidatesClosedForm(props, hourly);
    assert [Str("A")] + [] == [Str("A")];
  }

  /** `hourly` decides which of two different URLs comes first. */
  lemma HourlyDecidesOrder()
    ensures var props := map["forecast" := Str("A"), "forecastHourly" := Str("B")];
      && Dedup(RawCandidates(props, false)) == Ok([Str("A"), Str("B")])
      && Dedup(RawCandidates(props, true)) == Ok([Str("B"), Str("A")])
  {
    var props := map["forecast" := Str("A"), "forecastHourly" := Str("B")];
    assert Get(props, "forecast") == Str("A") && Get(props, "forecastHourly") == Str("B");
    assert Get(props, "forecastGridData") == Null;
    assert HashKey(Str("A")) != HashKey(Str("B"));
    CandidatesClosedForm(props, false);
    CandidatesClosedForm(props, true);
    assert [Str("A")] + [Str("B")] == [Str("A"), Str("B")];
    assert [Str("B")] + [Str("A")] == [Str("B"), Str("A")];
  }
}
