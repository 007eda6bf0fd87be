/** Parsed JSON values, as `json.loads` returns them, and Python truthiness on them.
    Numbers are kept as their mathematical value. */
module Json {
  import opened Wrappers

  datatype JsonValue =
    | JNull
    | JBool(b: bool)
    | JNumber(n: real)
    | JString(s: string)
    | JArray(items: seq<JsonValue>)
    | JObject(fields: map<string, JsonValue>)

  /** `bool(v)` in Python. */
  predicate Truthy(v: JsonValue) {
    match v
    case JNull => false
    case JBool(b) => b
    case JNumber(n) => n != 0.0
    case JString(s) => s != ""
    case JArray(items) => items != []
    case JObject(fields) => fields != map[]
  }

  /** `dict.get(key)`: `None` (here `JNull`) for a missing key. */
  function Get(fields: map<string, JsonValue>, key: string): JsonValue {
    if key in fields then fields[key] else JNull
  }

  /** A dict holding a string under `k`. */
  predicate HasStringField(t: JsonValue, k: string) {
    t.JObject? && k in t.fields && t.fields[k].JString?
  }

  /** `json.loads` as an oracle; `None` is a decoding error. */
  type Parser = string -> Option<JsonValue>
}
