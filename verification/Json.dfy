/** The values `JSON.parse` can produce, and the JavaScript operations on them the quiz handler uses. */
module Json {

  /**
   * A parsed JSON document. An object maps each key to the value of its
   * last occurrence, as `JSON.parse` keeps it.
   */
  datatype JsonValue =
    | JNull
    | JBool(b: bool)
    | JNum(x: real)
    | JStr(s: string)
    | JArr(items: seq<JsonValue>)
    | JObj(fields: map<string, JsonValue>)

  /** JavaScript truthiness of a parsed value (JSON has no NaN). */
  predicate Truthy(v: JsonValue) {
    match v
    case JNull => false
    case JBool(b) => b
    case JNum(x) => x != 0.0
    case JStr(s) => s != ""
    case JArr(_) => true
    case JObj(_) => true
  }

  /** The empty array `[]`. */
  const Empty: JsonValue := JArr([])
}
