/** Decoded JSON values, as Python's `json` module hands them to the handlers, and the
    pieces of Python semantics the handlers apply to them: truthiness, `dict.get` with a
    default, and `float(...)`. */
module Json {
  import opened Wrappers

  /** A decoded JSON document: `None`, `bool`, a number, `str`, `list` or `dict`. */
  datatype Value =
    | Null
    | Bool(b: bool)
    | Num(n: real)
    | Str(s: string)
    | Arr(items: seq<Value>)
    | Obj(fields: map<string, Value>)

  /** Python truthiness: `None`, `False`, zero, and empty strings, lists and dicts are falsy. */
  predicate Truthy(v: Value)
  {
    match v
    case Null => false
    case Bool(b) => b
    case Num(n) => n != 0.0
    case Str(s) => |s| > 0
    case Arr(items) => |items| > 0
    case Obj(fields) => |fields| > 0
  }

  /** An object's value for `key`, or `default` when the key is absent. */
  function GetOr(fields: map<string, Value>, key: string, default: Value): Value
  {
    if key in fields then fields[key] else default
  }

  /** Python's `float(v)`: a string goes through the (abstract) float parser, a number
      is kept, a boolean becomes 1.0 or 0.0, and anything else raises (`None`). */
  function ToFloat(v: Value, parse: string -> Option<real>): Option<real>
  {
    match v
    case Str(s) => parse(s)
    case Num(n) => Some(n)
    case Bool(b) => Some(if b then 1.0 else 0.0)
    case _ => None
  }
}
