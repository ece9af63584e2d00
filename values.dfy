/** Value types shared by the model of the tool-optimizer plugin. */
module Values {

  /** A JavaScript property that may be absent (`undefined`). */
  datatype Option<+T> = None | Some(value: T)

  /**
   * An opaque JSON value: the fields the plugin copies or drops without
   * looking at them. Nested objects are values here, not shared references.
   */
  datatype Json =
    | JNull
    | JBool(b: bool)
    | JNumber(n: real)
    | JString(s: string)
    | JArray(items: seq<Json>)
    | JObject(fields: map<string, Json>)
}
