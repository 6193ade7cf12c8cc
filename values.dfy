/** The dynamically typed values that travel through the integration: the fields of a
    download-library status event, the data of a service call, and the option dictionary
    handed to the download library. */
module Values {

  datatype Option<+T> = None | Some(value: T)

  /** A Python value as the integration sees it. Numbers are kept as reals, which covers
      both the integers and the (finite) floats the library reports; the integration never
      computes with them, it only copies them. `Callback` stands for the progress hook
      closure that the plugin registers with the library. */
  datatype Value =
    | NoneValue
    | Bool(b: bool)
    | Num(x: real)
    | Str(s: string)
    | List(items: seq<Value>)
    | Dict(entries: map<string, Value>)
    | Callback

  /** Python truthiness, as used by a bare `if v:`. A callable is always true. */
  predicate Truthy(v: Value)
  {
    match v
    case NoneValue => false
    case Bool(b) => b
    case Num(x) => x != 0.0
    case Str(s) => |s| > 0
    case List(items) => |items| > 0
    case Dict(entries) => |entries| > 0
    case Callback => true
  }

  /** `m.get(k, default)` on a Python dict. */
  function Get(m: map<string, Value>, k: string, default: Value): Value
  {
    if k in m then m[k] else default
  }
}
