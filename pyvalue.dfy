/**
 * A Python value as the core sees it once JSON-like data crosses a boundary
 * untyped: results of memory searches, manager return values, request fields.
 * `Object` stands for any other Python object (a coroutine, a client instance),
 * carrying the text `str()` gives for it.
 */
module PyValue {
  import opened PyStr

  datatype Value =
    | PyNone
    | Bool(b: bool)
    | Int(i: int)
    | Str(s: string)
    | List(items: seq<Value>)
    | Dict(fields: map<string, Value>)
    | Object(repr: string)

  /** Python truthiness, `bool(v)`. */
  predicate Truthy(v: Value) {
    match v
    case PyNone => false
    case Bool(b) => b
    case Int(i) => i != 0
    case Str(s) => s != ""
    case List(items) => |items| > 0
    case Dict(fields) => |fields| > 0
    case Object(_) => true
  }

  /** `isinstance(v, dict) and key in v`. */
  predicate HasKey(v: Value, key: string) {
    v.Dict? && key in v.fields
  }

  /** `str(v)` inside an f-string, for the scalar values and opaque objects. */
  function Render(v: Value): string {
    match v
    case PyNone => "None"
    case Bool(b) => if b then "True" else "False"
    case Int(i) => IntToString(i)
    case Str(s) => s
    case List(_) => "<list>"
    case Dict(_) => "<dict>"
    case Object(r) => r
  }

  /** A `dict` of strings, as metadata is stored. */
  function StrDict(m: map<string, string>): (v: Value)
    ensures v.Dict? && v.fields.Keys == m.Keys
  {
    Dict(map k | k in m :: Str(m[k]))
  }

  /** `{"results": items}`, the wrapper shape memory search results come in. */
  function ResultsWrapper(items: seq<Value>): Value {
    Dict(map["results" := List(items)])
  }
}
