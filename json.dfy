/**
 * The part of Go's encoding/json that the adapter relies on, as data.
 * Parsing and printing themselves are library code: a Codec bundles them
 * as two functions that the model takes as given, so every property below
 * holds for whatever parser and printer the library provides.
 */
module Json {
  import opened Wrappers

  type Bytes = seq<bv8>

  /** A decoded JSON value (what `interface{}` holds after json.Unmarshal). */
  datatype JsonValue =
    | JNull
    | JBool(b: bool)
    | JNumber(literal: string)
    | JString(s: string)
    | JArray(items: seq<JsonValue>)
    | JObject(members: map<string, JsonValue>)

  /** A JSON object: Go's map[string]interface{}. Key order is not part of it. */
  type JsonObject = map<string, JsonValue>

  /**
   * The library: `parse` reads one JSON text (None on a syntax error),
   * `marshal` prints an object (Err when the library refuses it).
   */
  datatype Codec = Codec(parse: string -> Option<JsonValue>, marshal: JsonObject -> Result<Bytes>)
}
