/** The JSON-like values Python code in the service passes around: None,
    booleans, integers, strings, lists and string-keyed dicts. */
module Json {

  datatype Value =
    | Null
    | Bool(b: bool)
    | Int(i: int)
    | Str(s: string)
    | List(items: seq<Value>)
    | Dict(fields: map<string, Value>)

  /** Python truthiness: None, False, 0, '', [] and {} are falsy. */
  predicate Truthy(v: Value) {
    match v
    case Null => false
    case Bool(b) => b
    case Int(i) => i != 0
    case Str(s) => s != ""
    case List(items) => items != []
    case Dict(fields) => fields != map[]
  }

  /** `obj.get(key)` on a dict: the stored value, or None when absent. */
  function GetOrNull(fields: map<string, Value>, key: string): Value {
    if key in fields then fields[key] else Null
  }

  /** What a handler writes to the wire. `json.dumps` itself is not
      modelled: `Encoded(doc)` stands for the JSON text of `doc`, and
      `Raw(obj)` for an object handed over without encoding. */
  datatype Payload = Encoded(doc: Value) | Raw(obj: Value)

  /** A one-entry dict, as in `{"message": text}`. */
  function Single(key: string, v: Value): Value {
    Dict(map[key := v])
  }
}
