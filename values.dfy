/**
 * The JavaScript values the modelled code handles as `any`: records handed
 * to and returned by backends, request parameters, stub responses.
 * Numbers are integers only (no floating point, no NaN).
 */
module Values {

  datatype Value =
    | Undefined
    | Null
    | Bool(b: bool)
    | Num(n: int)
    | Str(s: string)
    | Arr(items: seq<Value>)
    | Obj(fields: map<string, Value>)

  /** JavaScript's `Boolean(v)` (what `!!v` and `filter(Boolean)` test). */
  predicate Truthy(v: Value)
  {
    match v
    case Undefined => false
    case Null => false
    case Bool(b) => b
    case Num(n) => n != 0
    case Str(s) => s != ""
    case Arr(_) => true
    case Obj(_) => true
  }

  /** `v === null || v === undefined`. */
  predicate Nullish(v: Value)
  {
    v == Null || v == Undefined
  }
}
