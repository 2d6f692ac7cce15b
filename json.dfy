/** JSON values as the system's parsers (`JSON.parse`, `json.loads`) produce them,
    and the JavaScript operations the route handlers apply to them. */
module Json {
  import opened Wrappers

  /** A parsed JSON value. An object maps each key to its value; both parsers keep
      the last of duplicated keys, so a map is enough. Numbers are exact reals. */
  datatype Value =
    | Null
    | Bool(b: bool)
    | Num(n: real)
    | Str(s: string)
    | Arr(items: seq<Value>)
    | Obj(fields: map<string, Value>)

  /** JavaScript truthiness of a parsed value: `!v` holds exactly when this is false. */
  predicate Truthy(v: Value)
  {
    match v
    case Null => false
    case Bool(b) => b
    case Num(n) => n != 0.0
    case Str(s) => s != ""
    case Arr(_) => true
    case Obj(_) => true
  }

  /** Truthiness of a property read, where `None` is `undefined`. */
  predicate Present(v: Option<Value>)
  {
    v.Some? && Truthy(v.value)
  }

  /** Truthiness of an optional string (`undefined`/`None` or a string): present
      and non-empty, in JavaScript and in Python alike. */
  predicate Given(s: Option<string>)
  {
    s.Some? && s.value != ""
  }

  /** `v.key` (or a destructuring of `key` from `v`) on a value that is not `null`:
      only an object has own properties; everything else yields `undefined`. */
  function Get(v: Value, key: string): (r: Option<Value>)
    ensures r.Some? <==> v.Obj? && key in v.fields
    ensures r.Some? ==> r.value == v.fields[key]
  {
    if v.Obj? && key in v.fields then Some(v.fields[key]) else None
  }

  /** The one-field object `{key: text}` the handlers use for messages and errors. */
  function Message(key: string, text: string): Value
  {
    Obj(map[key := Str(text)])
  }
}
