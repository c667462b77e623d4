/**
 * The generic JSON value the builder hands around (serde_json's `Value`).
 * Numbers are kept as integers; their textual form is not modelled.
 */
module JsonValue {

  datatype Json =
    | JString(s: string)
    | JArray(items: seq<Json>)
    | JObject(fields: map<string, Json>)
    | JBool(b: bool)
    | JNumber(n: int)
    | JNull

  /**
   * `Value::to_string`. The serializer is not part of the model: every
   * operation that serializes takes it as a parameter, so nothing is assumed
   * about its output.
   */
  type Serializer = Json -> string
}
