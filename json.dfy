/**
 * A decoded JSON value, as the runtime's JSON library hands it to the proxy
 * (a dict, a list, a str, an int, a bool or None). Floating-point numbers are
 * not part of this model.
 */
module JsonValue {

  datatype Json =
    | JNull
    | JBool(b: bool)
    | JInt(i: int)
    | JString(s: string)
    | JArray(items: seq<Json>)
    | JObject(fields: map<string, Json>)

  /** Python truthiness, as an `if value:` test reads a decoded value. */
  predicate Truthy(j: Json) {
    match j
    case JNull => false
    case JBool(b) => b
    case JInt(i) => i != 0
    case JString(s) => s != ""
    case JArray(items) => items != []
    case JObject(fields) => fields != map[]
  }

  /** `d.get(key, default)` on a dict: a present key wins even when its value is null. */
  function Get(fields: map<string, Json>, key: string, default: Json): (r: Json)
    ensures key in fields ==> r == fields[key]
    ensures key !in fields ==> r == default
  {
    if key in fields then fields[key] else default
  }

  /** The constructors as function values, for code generic in the piece type. */
  function AsString(s: string): (r: Json)
    ensures r == JString(s)
  {
    JString(s)
  }

  function AsArray(items: seq<Json>): (r: Json)
    ensures r == JArray(items)
  {
    JArray(items)
  }
}
