/**
 * Decoded JSON values as the tool service sees them in request bodies and in
 * the dictionaries the MCP library hands back. Floating-point numbers are not
 * represented.
 */
module Json {

  datatype Json =
    | JNull
    | JBool(b: bool)
    | JInt(n: int)
    | JStr(s: string)
    | JArr(items: seq<Json>)
    | JObj(fields: map<string, Json>)

  /** Keyword arguments of a tool call: a JSON object's fields. */
  type Arguments = map<string, Json>

  /** Python truthiness of a decoded value, which decides what `x or default` yields. */
  predicate Truthy(j: Json)
  {
    match j
    case JNull => false
    case JBool(b) => b
    case JInt(n) => n != 0
    case JStr(s) => s != ""
    case JArr(items) => items != []
    case JObj(fields) => |fields| != 0
  }
}
