/**
 * The wire messages of the gossip store and the decoding step of the
 * receive path. Update and sync messages are JSON objects tagged by a
 * `type` field; decoding accepts only `type == "update"`.
 */
module Messages {
  import opened Wrappers
  import opened JsonValues
  import opened Replica

  /** A peer's `(ip, port)` pair. */
  datatype Address = Address(ip: string, port: int)

  /** The fields of the dictionary built in `_gossip_update`. */
  datatype UpdateMessage = UpdateMessage(key: Key, value: Json, timestamp: real, origin: string)

  /** One `sendto`: the destination and the JSON document sent. */
  datatype Datagram = Datagram(to: Address, payload: Json)

  /** What the handler makes of a received payload. */
  datatype Incoming =
    | UpdateMsg(update: Update)  // a well-formed update
    | OtherType                  // a JSON object whose `type` is not "update", a sync message among them
    | Malformed                  // undecodable, not an object, or missing/ill-typed fields

  /** The update message as a JSON object. */
  function EncodeUpdate(m: UpdateMessage): (j: Json)
    ensures j.JObject? && j.fields.Keys == {"type", "key", "value", "timestamp", "origin"}
    ensures j.fields["type"] == JString("update") && j.fields["origin"] == JString(m.origin)
  {
    JObject(map[
      "type" := JString("update"),
      "key" := JString(m.key),
      "value" := m.value,
      "timestamp" := JNumber(m.timestamp),
      "origin" := JString(m.origin)])
  }

  /** A stored entry as `json.dumps` writes the tuple `(value, timestamp)`: a two-element array. */
  function EncodeEntry(e: Entry): Json {
    JArray([e.value, JNumber(e.timestamp)])
  }

  /** The anti-entropy message carrying the whole store and the sender's id. */
  function EncodeSync(s: Store, nodeId: string): (j: Json)
    ensures j.JObject? && j.fields.Keys == {"type", "store", "node_id"}
    ensures j.fields["type"] == JString("sync") && j.fields["node_id"] == JString(nodeId)
    ensures j.fields["store"].JObject? && j.fields["store"].fields.Keys == s.Keys
    ensures forall k :: k in s ==> j.fields["store"].fields[k] == JArray([s[k].value, JNumber(s[k].timestamp)])
  {
    JObject(map[
      "type" := JString("sync"),
      "store" := JObject(map k | k in s :: EncodeEntry(s[k])),
      "node_id" := JString(nodeId)])
  }

  /** A `[value, timestamp]` pair read back as an entry. */
  function DecodeEntry(j: Json): Option<Entry> {
    match j
    case JArray(items) =>
      if |items| == 2 && items[1].JNumber? then Some(Entry(items[0], items[1].n)) else None
    case _ => None
  }

  /**
   * The store a sync message carries, read back from its `store` field;
   * `None` when the field is missing or an entry is not a
   * `[value, timestamp]` pair. The node itself never reads sync messages:
   * this reader only says what the message carries.
   */
  function SyncStore(j: Json): Option<Store> {
    if && j.JObject? && "store" in j.fields && j.fields["store"].JObject?
       && forall k :: k in j.fields["store"].fields ==> DecodeEntry(j.fields["store"].fields[k]).Some?
    then Some(map k | k in j.fields["store"].fields :: DecodeEntry(j.fields["store"].fields[k]).value)
    else None
  }

  /** A sync message carries exactly the sender's store, every key with its value and timestamp. */
  lemma SyncStoreEncodeSync(s: Store, nodeId: string)
    ensures SyncStore(EncodeSync(s, nodeId)) == Some(s)
  {
    var st := EncodeSync(s, nodeId).fields["store"].fields;
    forall k | k in st
      ensures DecodeEntry(st[k]) == Some(s[k])
    {
    }
    var back := map k | k in st :: DecodeEntry(st[k]).value;
    assert back == s;
  }

  /**
   * Decoding as `_handle_message` does it: the payload must parse to an
   * object with a `type` field; a `type` other than "update" ends handling;
   * an update must carry `key`, `value` and `timestamp`. The key must be a
   * string and the timestamp a number (see README for what this narrows).
   * The `origin` field is not needed for the merge.
   */
  function Decode(p: Payload): (r: Incoming)
    // an accepted update is exactly what the object's fields say
    ensures r.UpdateMsg? ==>
              && p.Parsed? && p.json.JObject?
              && p.json.fields.Keys >= {"type", "key", "value", "timestamp"}
              && p.json.fields["type"] == JString("update")
              && p.json.fields["key"] == JString(r.update.key)
              && p.json.fields["value"] == r.update.value
              && p.json.fields["timestamp"] == JNumber(r.update.timestamp)
    // anything that is not an object with a `type` field is malformed
    ensures (p.Unparseable? || !p.json.JObject? || "type" !in p.json.fields) ==> r == Malformed
    // a `type` other than "update" is never read further
    ensures (p.Parsed? && p.json.JObject? && "type" in p.json.fields && p.json.fields["type"] != JString("update"))
            ==> r == OtherType
    // every object tagged "update" with a string key, a value and a numeric timestamp is accepted
    ensures (&& p.Parsed? && p.json.JObject?
             && p.json.fields.Keys >= {"type", "key", "value", "timestamp"}
             && p.json.fields["type"] == JString("update")
             && p.json.fields["key"].JString? && p.json.fields["timestamp"].JNumber?)
            ==> r == UpdateMsg(Update(p.json.fields["key"].s, p.json.fields["value"], p.json.fields["timestamp"].n))
  {
    match p
    case Unparseable => Malformed
    case Parsed(j) =>
      if !j.JObject? || "type" !in j.fields then Malformed
      else if j.fields["type"] != JString("update") then OtherType
      else if "key" !in j.fields || "value" !in j.fields || "timestamp" !in j.fields then Malformed
      else
        match (j.fields["key"], j.fields["timestamp"])
        case (JString(k), JNumber(t)) => UpdateMsg(Update(k, j.fields["value"], t))
        case _ => Malformed
  }

  /** An update message decodes to the update it was built from. */
  lemma DecodeEncodeUpdate(m: UpdateMessage)
    ensures Decode(Parsed(EncodeUpdate(m))) == UpdateMsg(Update(m.key, m.value, m.timestamp))
  {
  }

  /** An update missing one of `key`, `value`, `timestamp` is rejected. */
  lemma MissingFieldIsMalformed(fields: map<string, Json>, missing: string)
    requires fields.Keys >= {"type"} && fields["type"] == JString("update")
    requires missing in {"key", "value", "timestamp"} && missing !in fields
    ensures Decode(Parsed(JObject(fields))) == Malformed
  {
  }

  /** A sync message is not an update: the receive path never looks inside it. */
  lemma SyncIsOtherType(s: Store, nodeId: string)
    ensures Decode(Parsed(EncodeSync(s, nodeId))) == OtherType
  {
  }
}
