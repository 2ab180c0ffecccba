/**
 * Values as they travel between request bodies, Python code and the
 * document store: the JSON types plus the store's timestamp type.
 */
module PyValue {

  datatype Value =
    | Null
    | Bool(b: bool)
    | Int(i: int)
    | Float(f: real)
    | Str(s: string)
    | List(items: seq<Value>)
    | Dict(fields: map<string, Value>)
    | Timestamp(stamp: int)   // an opaque clock reading

  /** A document (or a request body): field name to value. */
  type Doc = map<string, Value>

  /** Python truthiness, `bool(v)`: None, False, zero, and empty containers are false. */
  predicate IsTruthy(v: Value) {
    match v
    case Null => false
    case Bool(b) => b
    case Int(i) => i != 0
    case Float(f) => f != 0.0
    case Str(s) => s != ""
    case List(items) => items != []
    case Dict(fields) => fields != map[]
    case Timestamp(_) => true
  }

  /** The falsy values are exactly None, False, 0, 0.0, "", [] and {}; a timestamp is always truthy. */
  lemma FalsyExactly(v: Value)
    ensures !IsTruthy(v) <==>
      v == Null || v == Bool(false) || v == Int(0) || v == Float(0.0) || v == Str("") || v == List([]) || v == Dict(map[])
  {
  }

  /** `d.get(k, default)` */
  function GetOr(d: Doc, k: string, default: Value): Value {
    if k in d then d[k] else default
  }

  /** `d.get(k)` */
  function Get(d: Doc, k: string): Value {
    GetOr(d, k, Null)
  }
}
