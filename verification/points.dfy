/** The `/points` step of `get_nws_forecast_by_latlon`: the metadata lookup for a coordinate
    pair and the extraction of its properties. */
module Points {
  import opened Wrappers
  import opened Json
  import opened Errors
  import opened Http

  /** The properties a `/points` document `points` offers: its `properties` member when that is
      a `dict`, the whole document otherwise. */
  function OfferedProperties(points: map<string, Value>): (r: map<string, Value>)
    ensures "properties" in points && points["properties"].Obj? ==> r == points["properties"].fields
    ensures !("properties" in points && points["properties"].Obj?) ==> r == points
  {
    if "properties" in points && points["properties"].Obj? then points["properties"].fields else points
  }

  /** The properties extracted from the `/points` response `o` for `lat`, `lon`. */
  function PropertiesOf<C>(lat: C, lon: C, o: Outcome): (r: Result<map<string, Value>, Error<C>>)
    ensures r.Ok? ==> |r.value| > 0
    ensures Receive(o).Err? ==> r == Err(Request(Receive(o).error))
    ensures Receive(o) == Ok(Unparsable) ==> r == Err(NoProperties(lat, lon))
    ensures Receive(o).Ok? && o.body.Parsed? && !o.body.doc.Obj? ==> r == Err(Unexpected(AttributeError))
    ensures Receive(o).Ok? && o.body.Parsed? && o.body.doc.Obj? ==>
      var offered := OfferedProperties(o.body.doc.fields);
      r == if |offered| == 0 then Err(NoProperties(lat, lon)) else Ok(offered)
  {
    match Receive(o)
    case Err(f) => Err(Request(f))
    case Ok(body) =>
      // a 2xx body that is not JSON reads as `{}`
      var points := match body case Parsed(doc) => doc case Unparsable => Obj(map[]);
      match GetAttr(points, "properties")
      case Err(fault) => Err(Unexpected(fault))
      case Ok(nested) =>
        var props := if nested.Obj? then nested else if Truthy(points) then points else Obj(map[]);
        if !Truthy(props) then Err(NoProperties(lat, lon)) else Ok(props.fields)
  }
}
