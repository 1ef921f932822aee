/**
 * JSON documents as Python's `json` module produces and reads them.
 * Stored Redis values are modelled by the document they hold, so the
 * character-level encoding never appears in the model.
 */
module Json {

  datatype JsonValue =
    | JNull
    | JBool(b: bool)
    | JNumber(n: real)
    | JString(s: string)
    | JArray(items: seq<JsonValue>)
    | JObject(fields: map<string, JsonValue>)

  /** A Python `dict` with string keys, as `json.loads` returns for an object. */
  type Fields = map<string, JsonValue>
}
