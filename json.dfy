/**
  JSON values as the handler sees them after `response.json()` / `request.get_json()`,
  together with the two pieces of Python semantics the handler relies on:
  `dict.get(key, default)` and truthiness (`if not x`).
 */
module Json {

  /** A decoded JSON value. Numbers with a fraction become Python floats; they are
      kept as an opaque decimal `mantissa * 10^exponent` that is copied, never computed with. */
  datatype Value =
    | Null
    | Bool(b: bool)
    | Str(s: string)
    | Int(i: int)
    | Num(mantissa: int, exponent: int)
    | List(items: seq<Value>)
    | Obj(fields: map<string, Value>)

  /** A JSON object (a Python dict with string keys). */
  type JsonObject = map<string, Value>

  /** The placeholder string the handler writes for a field it has no value for. */
  const NA: Value := Str("N/A")

  /** Python's `d.get(key, default)`: the stored value when the key is present (even a
      stored `null`), otherwise the default. */
  function Get(d: JsonObject, key: string, default: Value): Value
  {
    if key in d then d[key] else default
  }

  /** Python truthiness of a decoded JSON value. */
  predicate Truthy(v: Value)
  {
    match v
    case Null => false
    case Bool(b) => b
    case Str(s) => s != ""
    case Int(i) => i != 0
    case Num(m, _) => m != 0
    case List(items) => items != []
    case Obj(fields) => fields != map[]
  }

  /** The Python type name of a decoded JSON value, as it appears in an AttributeError. */
  function TypeName(v: Value): string
  {
    match v
    case Null => "NoneType"
    case Bool(_) => "bool"
    case Str(_) => "str"
    case Int(_) => "int"
    case Num(_, _) => "float"
    case List(_) => "list"
    case Obj(_) => "dict"
  }
}
