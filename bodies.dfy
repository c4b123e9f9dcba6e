/**
 * Raw object payloads as the operator receives them from the cluster.
 * A raw body is a JSON-like mapping; only the parts the memory container
 * looks at (the `metadata` mapping and its `uid`) are interpreted here.
 */
module Bodies {

  /** A JSON-like value, as found inside a raw body. */
  datatype Value =
    | Null
    | Bool(b: bool)
    | Int(i: int)
    | Str(s: string)
    | List(items: seq<Value>)
    | Obj(fields: map<string, Value>)

  /** A raw body: the top-level mapping of an object's payload. */
  type RawBody = map<string, Value>

  /** Python's truthiness of a value: `None`, `False`, `0` and empty containers are false. */
  predicate Truthy(v: Value) {
    match v
    case Null => false
    case Bool(b) => b
    case Int(i) => i != 0
    case Str(s) => s != ""
    case List(items) => items != []
    case Obj(fields) => fields != map[]
  }

  /** `d.get(key, default)` on a mapping. */
  function Get(d: map<string, Value>, key: string, default: Value): Value {
    if key in d then d[key] else default
  }
}
