/** The normalised record built from the first forecast document that arrives. */
module Normalisation {
  import opened Wrappers
  import opened Json
  import opened Errors

  /** The dict `get_nws_forecast_by_latlon` returns. `name` and `startTime` are `None` when the
      dict has no such keys (the record built when there are no periods); the other fields are
      always present, possibly `None` (`Null`). `source` is the `source_json` entry. */
  datatype Normalized = Normalized(
    name: Option<Value>,
    startTime: Option<Value>,
    temperature: Value,
    unit: Value,
    short: Value,
    detailed: Value,
    source: Value)

  /** The periods list of a forecast document: `properties.periods` when truthy, otherwise the
      top-level `periods`. A non-dict document, or a truthy non-dict `properties`, has no `.get`. */
  function PeriodsOf(doc: Value): (r: Result<Value, Fault>)
    ensures !doc.Obj? ==> r == Err(AttributeError)
    // no usable `properties`: the top-level list
    ensures doc.Obj? && ("properties" !in doc.fields || !Truthy(doc.fields["properties"])) ==>
      r == Ok(Get(doc.fields, "periods"))
    // a truthy `properties` that is not a dict has no `.get`
    ensures (doc.Obj? && "properties" in doc.fields && Truthy(doc.fields["properties"])
      && !doc.fields["properties"].Obj?) ==> r == Err(AttributeError)
    // a truthy dict `properties`: its truthy `periods`, else the top-level list
    ensures (doc.Obj? && "properties" in doc.fields && Truthy(doc.fields["properties"])
      && doc.fields["properties"].Obj?) ==>
      var inner := Get(doc.fields["properties"].fields, "periods");
      r == Ok(if Truthy(inner) then inner else Get(doc.fields, "periods"))
  {
    match GetAttr(doc, "properties")
    case Err(f) => Err(f)
    case Ok(_) =>
      // `forecast.get("properties", {}) or {}`
      var nested := if "properties" in doc.fields then doc.fields["properties"] else Obj(map[]);
      var container := if Truthy(nested) then nested else Obj(map[]);
      match GetAttr(container, "periods")
      case Err(f) => Err(f)
      case Ok(inner) => if Truthy(inner) then Ok(inner) else GetAttr(doc, "periods")
  }

  /** The record for one period `current` of document `doc`. */
  function FromPeriod(current: map<string, Value>, doc: Value): (r: Normalized)
    ensures r.name.Some? && r.startTime.Some? && r.source == doc
    ensures "temperatureUnit" in current ==> r.unit == current["temperatureUnit"]
    ensures "temperatureUnit" !in current ==> r.unit == Null
    ensures "temperature" !in current ==> r.temperature == Null
  {
    Normalized(
      Some(Get(current, "name")),
      Some(Get(current, "startTime")),
      Get(current, "temperature"),
      Get(current, "temperatureUnit"),
      Get(current, "shortForecast"),
      Get(current, "detailedForecast"),
      doc)
  }

  /** The record returned for a document without periods. */
  function EmptyRecord(doc: Value): (r: Normalized)
    ensures r.source == doc
    ensures forall current :: r != FromPeriod(current, doc)
  {
    Normalized(None, None, Null, Null, Null, Null, doc)
  }

  /** The return value (or uncaught exception) for the decoded forecast document `doc`. */
  function Normalise(doc: Value): (r: Result<Normalized, Fault>)
    ensures r.Ok? ==> r.value.source == doc
    ensures r.Ok? ==> (r.value.name.Some? <==> r.value.startTime.Some?)
    ensures r.Ok? && r.value.name.None? ==>
      r.value.temperature == r.value.unit == r.value.short == r.value.detailed == Null
    ensures r.Ok? ==> PeriodsOf(doc).Ok? && (r.value.name.None? <==> !Truthy(PeriodsOf(doc).value))
    ensures !doc.Obj? ==> r == Err(AttributeError)
  {
    match PeriodsOf(doc)
    case Err(f) => Err(f)
    case Ok(periods) =>
      if !Truthy(periods) then Ok(EmptyRecord(doc))
      else
        match Index0(periods)
        case Err(f) => Err(f)
        case Ok(current) =>
          if current.Obj? then Ok(FromPeriod(current.fields, doc)) else Err(AttributeError)
  }

  /** A truthy `properties.periods` list is used: its first period becomes the record. */
  lemma NestedPeriodsPreferred(doc: Value, nested: map<string, Value>, first: map<string, Value>, more: seq<Value>)
    requires doc.Obj? && "properties" in doc.fields && doc.fields["properties"] == Obj(nested)
    requires Get(nested, "periods") == Arr([Obj(first)] + more)
    ensures Normalise(doc) == Ok(Normalized(
      Some(Get(first, "name")), Some(Get(first, "startTime")), Get(first, "temperature"),
      Get(first, "temperatureUnit"), Get(first, "shortForecast"), Get(first, "detailedForecast"), doc))
  {
  }

  /** With no usable nested periods, the top-level `periods` list is used. */
  lemma TopLevelPeriodsFallback(doc: Value, first: map<string, Value>, more: seq<Value>)
    requires doc.Obj?
    requires "properties" !in doc.fields || !Truthy(doc.fields["properties"])
      || (doc.fields["properties"].Obj? && !Truthy(Get(doc.fields["properties"].fields, "periods")))
    requires Get(doc.fields, "periods") == Arr([Obj(first)] + more)
    ensures Normalise(doc) == Ok(Normalized(
      Some(Get(first, "name")), Some(Get(first, "startTime")), Get(first, "temperature"),
      Get(first, "temperatureUnit"), Get(first, "shortForecast"), Get(first, "detailedForecast"), doc))
  {
  }

  /** No truthy periods anywhere: a successful record of nulls that keeps the document. */
  lemma NoPeriodsGivesNullRecord(doc: Value)
    requires doc.Obj?
    requires "properties" !in doc.fields || !Truthy(doc.fields["properties"])
      || (doc.fields["properties"].Obj? && !Truthy(Get(doc.fields["properties"].fields, "periods")))
    requires !Truthy(Get(doc.fields, "periods"))
    ensures Normalise(doc) == Ok(Normalized(None, None, Null, Null, Null, Null, doc))
  {
  }
}
