/** Values of a parsed blueprint document, shaped as the YAML loader hands them
    to the parser (Python `None`, `bool`, `int`, `float`, `str`, `list`, `dict`). */
module Values {

  datatype Option<+T> = None | Some(value: T)

  /** A document value. `Bool` is a constructor of its own, apart from `Int`,
      because the property validator deliberately refuses booleans where
      integers or floats are expected, although Python's `bool` is an `int`. */
  datatype Value =
    | Null
    | Bool(b: bool)
    | Int(i: int)
    | Float(r: real)
    | Str(s: string)
    | List(items: seq<Value>)
    | Dict(entries: map<string, Value>)

  /** Python truthiness: `if v:` */
  predicate Truthy(v: Value)
  {
    match v
    case Null => false
    case Bool(b) => b
    case Int(i) => i != 0
    case Float(r) => r != 0.0
    case Str(s) => s != ""
    case List(items) => items != []
    case Dict(entries) => entries != map[]
  }

  /** Python truthiness of an optional string (`None` and `''` are false). */
  predicate Present(s: Option<string>)
  {
    s.Some? && s.value != ""
  }
}
