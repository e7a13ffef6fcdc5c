/** Decoded JSON documents, seen through the Python operations the service applies to them. */
module Json {
  import opened Wrappers
  import opened Errors

  /** A value produced by `json.loads`: `None`, `bool`, a number, `str`, `list` or `dict`.
      Numbers are kept as reals: the service never computes with them, it only tests them for truth. */
  datatype Value =
    | Null
    | Bool(b: bool)
    | Num(n: real)
    | Str(s: string)
    | Arr(items: seq<Value>)
    | Obj(fields: map<string, Value>)

  /** Python truthiness: `None`, `False`, zero and empty containers are false. */
  predicate Truthy(v: Value) {
    match v
    case Null => false
    case Bool(b) => b
    case Num(n) => n != 0.0
    case Str(s) => |s| > 0
    case Arr(items) => |items| > 0
    case Obj(fields) => |fields| > 0
  }

  /** `d.get(key)`: the stored value, or `None` when the key is missing. */
  function Get(fields: map<string, Value>, key: string): (v: Value)
    ensures key !in fields ==> v == Null
    ensures key in fields ==> v == fields[key]
  {
    if key in fields then fields[key] else Null
  }

  /** Values a Python `set` can hold; `list` and `dict` raise `TypeError: unhashable type`. */
  predicate Hashable(v: Value) {
    !v.Arr? && !v.Obj?
  }

  /** The class of `v` under Python's `==`/`hash` on scalars: `True == 1 == 1.0` and
      `False == 0 == 0.0`; every other scalar is only equal to itself. */
  function HashKey(v: Value): (k: Value)
    ensures !k.Bool?
    ensures v.Bool? ==> k == Num(if v.b then 1.0 else 0.0)
    ensures !v.Bool? ==> k == v
  {
    match v
    case Bool(b) => Num(if b then 1.0 else 0.0)
    case _ => v
  }

  /** The set of hash classes of the entries of `vs`. */
  function KeysOf(vs: seq<Value>): (ks: set<Value>)
  {
    set i | 0 <= i < |vs| :: HashKey(vs[i])
  }

  /** `v[0]`: the first item of a list or the first character of a string. A `dict` has no
      key `0` (JSON keys are strings); other values are not subscriptable. */
  function Index0(v: Value): (r: Result<Value, Fault>)
    ensures r.Ok? <==> (v.Arr? && |v.items| > 0) || (v.Str? && |v.s| > 0)
    ensures r.Ok? && v.Arr? ==> r.value == v.items[0]
    ensures r.Ok? && v.Str? ==> r.value == Str([v.s[0]])
    ensures Truthy(v) ==> r != Err(IndexError)
  {
    match v
    case Arr(items) => if |items| > 0 then Ok(items[0]) else Err(IndexError)
    case Str(s) => if |s| > 0 then Ok(Str([s[0]])) else Err(IndexError)
    case Obj(_) => Err(KeyError)
    case _ => Err(TypeError)
  }

  /** `v[key]` with a string key: only a `dict` holding the key answers. */
  function Subscript(v: Value, key: string): (r: Result<Value, Fault>)
    ensures r.Ok? <==> v.Obj? && key in v.fields
    ensures r.Ok? ==> r.value == v.fields[key]
  {
    match v
    case Obj(fields) => if key in fields then Ok(fields[key]) else Err(KeyError)
    case _ => Err(TypeError)
  }

  /** `v.get(key)`: only a `dict` has the method. */
  function GetAttr(v: Value, key: string): (r: Result<Value, Fault>)
    ensures r.Ok? <==> v.Obj?
    ensures r.Ok? ==> r.value == Get(v.fields, key)
    ensures r.Err? ==> r.error == AttributeError
  {
    match v
    case Obj(fields) => Ok(Get(fields, key))
    case _ => Err(AttributeError)
  }
}
