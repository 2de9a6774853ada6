/** Decoded JSON values, as `json.load` hands them to the project and configuration code. */
module Json {

  import opened Wrappers

  datatype Value =
    | Null
    | Bool(b: bool)
    | Int(i: int)
    | Float(r: real)
    | Str(s: string)
    | List(items: seq<Value>)
    | Dict(entries: map<string, Value>)

  type Object = map<string, Value>

  /** Python's truthiness of a decoded value (`if value:`). */
  predicate Truthy(v: Value) {
    match v
    case Null => false
    case Bool(b) => b
    case Int(i) => i != 0
    case Float(r) => r != 0.0
    case Str(s) => s != ""
    case List(items) => items != []
    case Dict(entries) => entries != map[]
  }

  /** `d.get(key, default)` */
  function Get(d: Object, key: string, default: Value): (v: Value)
    ensures key in d ==> v == d[key]
    ensures key !in d ==> v == default
  {
    if key in d then d[key] else default
  }

  function AsString(v: Value): Option<string> {
    if v.Str? then Some(v.s) else None
  }

  /** An `Optional[str]` field: JSON null is None, a string is itself. */
  function AsOptionalString(v: Value): Option<Option<string>> {
    match v
    case Null => Some(None)
    case Str(s) => Some(Some(s))
    case _ => None
  }

  function OptionalString(o: Option<string>): Value {
    match o
    case None => Null
    case Some(s) => Str(s)
  }

  function AsInt(v: Value): Option<int> {
    if v.Int? then Some(v.i) else None
  }

  /** A `float` field: a JSON number, integral or not. */
  function AsReal(v: Value): Option<real> {
    match v
    case Float(r) => Some(r)
    case Int(i) => Some(i as real)
    case _ => None
  }

  /** `d.get(key, default)` where the value must be a dict, as `data.get('output', {})`. */
  function AsObject(v: Value): Option<Object> {
    if v.Dict? then Some(v.entries) else None
  }
}
