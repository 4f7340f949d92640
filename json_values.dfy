/**
 * JSON documents as trees. The node treats `json.dumps` and `json.loads` as
 * inverse serialisations of these trees, so messages are modelled at the
 * tree level and the byte encoding is abstracted away.
 */
module JsonValues {
  /** A JSON value. Numbers are reals: Python compares ints and floats alike. */
  datatype Json =
    | JNull
    | JBool(b: bool)
    | JNumber(n: real)
    | JString(s: string)
    | JArray(items: seq<Json>)
    | JObject(fields: map<string, Json>)

  /**
   * What a received datagram turns into after `data.decode()` and
   * `json.loads`: either a JSON tree, or a failure of one of the two (bad
   * UTF-8, bad JSON), which the handler swallows.
   */
  datatype Payload = Unparseable | Parsed(json: Json)
}
