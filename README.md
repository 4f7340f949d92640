# Gossip key-value store: a Dafny model of one node's replica logic

This project models the replica-store core of `GossipNode` (`gossip_kv_store.py`),
a node of an eventually-consistent key-value store. Each node keeps a map from
key to `(value, timestamp)`. A local `put` overwrites the key and gossips the
update to up to two random peers. A received update is merged by
last-write-wins: it is stored only when the key is absent or the stored
timestamp is strictly smaller. When an update is applied, the node re-gossips
it with probability one half. A periodic anti-entropy round sends the whole
store to one random peer.

Modules:

- `Wrappers` (`wrappers.dfy`): `Option`, for the `None` that `get` returns.
- `JsonValues` (`json_values.dfy`): JSON documents as trees, and the result of
  decoding and parsing a received datagram.
- `Replica` (`replica.dfy`): entries, the store, the merge guard `Accepts`, the
  merge `Merge`, delivery of a sequence of updates `MergeAll`, and their
  properties.
- `Messages` (`messages.dfy`): addresses, update and sync messages as JSON,
  datagrams, and `Decode`, which follows the checks that `_handle_message` makes.
- `Receive` (`receive.dfy`): `Handle`, the effect of one received payload on the
  store, and `Applied`/`Regossips`, the branch that may lead to re-gossip.
- `Node` (`gossip_node.dfy`): the class `GossipNode`. It holds `store` as a
  mutable `map` field. It has `Put`, `Get`, `GossipUpdate`, `HandleMessage` and
  `AntiEntropyRound`, plus the fan-out sampling and a two-node scenario.

Nondeterminism and I/O become parameters:

- `time.time()` becomes `now`.
- `random.sample(peers, min(2, len(peers)))` becomes `picks`, a list of
  `min(2, |peers|)` distinct positions in `peers` (predicate `IsSample`).
- `random.random()` becomes `draw`, a real in `[0, 1)`, compared with
  `RegossipProbability = 0.5`.
- `random.choice(peers)` becomes `pick`, a position in `peers`.
- Each `sendto` becomes a `Datagram` in the returned list `sent`.
- The bytes received become a `Payload`: either `Unparseable` (bad UTF-8 or bad
  JSON) or the parsed JSON tree.

Where the design and the code disagree, the model follows the code:

- A received `sync` message is never merged. `_handle_message` only handles
  `type == 'update'` (gossip_kv_store.py:54). So anti-entropy sends the store,
  but the receiver drops it (`Receive.SyncNeverMerged`).
- `put` does not go through the merge. It overwrites the key even when the
  stored timestamp is newer, so a local write can lower a key's timestamp
  (`Replica.PutCanLowerTimestamp`).
- Its timestamp is a wall-clock reading. Nothing makes it strictly increasing.
- The prints at lines 23, 29, 31 and 60 use a bare `node_id`, which is undefined
  there. As written, `put` raises `NameError` at line 23, after the store write
  and before line 24, so a local write is never gossiped. `get` raises at line
  29 or 31 before returning anything. In the handler the error comes after the
  store write at line 59 and is swallowed at lines 64-65, so re-gossip is never
  reached. The model takes the evident intent: the prints are removed, with no
  error.

## Model

| member | source | states |
|---|---|---|
| `Replica.Merge` | gossip_kv_store.py:58-59 | After the merge the key is present, no key is lost and every other key keeps its entry. The key's timestamp becomes the maximum of the stored and the incoming timestamp. The store changes exactly when the key was absent or the stored timestamp was strictly smaller. In that case the key holds the incoming value and timestamp; otherwise the store is unchanged. |
| `Replica.MergeTieKeepsExisting` | gossip_kv_store.py:58-59 | An update whose timestamp equals the stored one leaves the store, and the stored value, as they were. |
| `Replica.MergeIdempotent` | gossip_kv_store.py:58-59 | Merging the same update twice gives the same store as merging it once. |
| `Replica.MergeCommutes` | gossip_kv_store.py:58-59 | Two updates for different keys, or with different timestamps, give the same store in either order. |
| `Replica.TieOrderMatters` | gossip_kv_store.py:58-59 | For any store that accepts the first of two updates with one key and one timestamp, the key ends up holding whichever update was merged first. So commutation needs distinct timestamps. |
| `Replica.PutCanLowerTimestamp` | gossip_kv_store.py:20-22 | For any store whose entry for the key is newer than the clock reading, the store that `Put` leaves has a lower timestamp for that key, while merging the same entry would leave the store unchanged. |
| `Replica.MergeAllKeepsNewest` | gossip_kv_store.py:58-59 | After any sequence of delivered updates, no key is lost and no stored timestamp decreases. Every delivered update's key is present with a timestamp at least the update's. Every entry is either the old one or one of the delivered updates. |
| `Replica.MergeAllAppend` | gossip_kv_store.py:58-59 | Delivering two batches one after the other is the same as delivering their concatenation. |
| `Replica.MergeAllAbsorbed` | gossip_kv_store.py:58 | Updates that are no newer than the stored entries change nothing. |
| `Replica.MergeAllRedelivery` | gossip_kv_store.py:58-59 | Delivering a batch of updates twice gives the same store as delivering it once. |
| `Messages.EncodeUpdate` | gossip_kv_store.py:35-41 | The update message is an object with exactly the fields type, key, value, timestamp and origin. Its type is "update" and its origin is the sender's id. |
| `Messages.EncodeSync` | gossip_kv_store.py:83-87 | The sync message is an object with exactly the fields type, store and node_id. Its type is "sync", node_id is the sender's id, and its store object maps every key of the store, and no other, to the array [value, timestamp]. |
| `Messages.Decode` | gossip_kv_store.py:52-57 | An accepted update comes from a parsed object with type "update" whose key, value and timestamp fields are the update's. A payload that is unparseable, not an object or has no type is malformed. An object with any other type is not read further. Conversely, every object with type "update", a string key, a value and a numeric timestamp is accepted as exactly that update, whatever other fields it has. |
| `Messages.DecodeEncodeUpdate` | gossip_kv_store.py:35-42 | Decoding an encoded update message gives back its key, value and timestamp. |
| `Messages.MissingFieldIsMalformed` | gossip_kv_store.py:55-57 | An "update" object that lacks key, value or timestamp is rejected as malformed. |
| `Messages.SyncStoreEncodeSync` | gossip_kv_store.py:83-87 | Reading the store back from a sync message gives exactly the sender's store. |
| `Messages.SyncIsOtherType` | gossip_kv_store.py:54 | A sync message never decodes to an update. |
| `Receive.Handle` | gossip_kv_store.py:51-65 | A decoded update is merged by last-write-wins. A payload that is not a well-formed update leaves the store unchanged, with no error. No handled payload removes a key or lowers a key's timestamp. |
| `Receive.AppliedIffChanged` | gossip_kv_store.py:58-59 | The handler takes its applied branch if and only if handling changes the store. |
| `Receive.HandleIdempotent` | gossip_kv_store.py:51-65 | Handling the same payload twice gives the same store as handling it once. |
| `Receive.RegossipOnlyWhenApplied` | gossip_kv_store.py:58-63 | Re-gossip happens only for a decoded update that changed the store. |
| `Receive.DuplicateNeverRegossips` | gossip_kv_store.py:58-63 | When the same payload arrives a second time, it never triggers re-gossip, whatever the random draw. |
| `Receive.SyncNeverMerged` | gossip_kv_store.py:54 | A received sync message leaves the store unchanged and never triggers re-gossip, whatever store it carries. |
| `Node.Targets` | gossip_kv_store.py:44 | There is one target per sampled position, and every target is one of the peers. |
| `Node.SampleExists` | gossip_kv_store.py:44 | For any number of peers there is a sample of min(2, n) distinct positions. |
| `Node.DistinctTargets` | gossip_kv_store.py:44 | When the peer list has no duplicates, there are min(2, number of peers) gossip targets and they are pairwise distinct. |
| `Node.GossipDelivers` | gossip_kv_store.py:35-47 | Each gossip datagram goes to its target. The receiver decodes it to exactly the sent key, value and timestamp, with the sender's id as origin. |
| `Node.GossipNode.constructor` | gossip_kv_store.py:10-14 | A new node has the given id, port and peers, and an empty store. |
| `Node.GossipNode.GossipUpdate` | gossip_kv_store.py:34-49 | Sends one datagram to each sampled peer, in order. Each carries the update message with the given key, value and timestamp and this node as origin. |
| `Node.GossipNode.Put` | gossip_kv_store.py:20-24 | The new store is the old one with the key set to (value, now), whatever was stored before, and every other key unchanged. The update is then gossiped to the sampled peers. |
| `Node.GossipNode.Get` | gossip_kv_store.py:26-32 | Returns the stored value when the key is present and None otherwise. The store is only read. |
| `Node.GossipNode.HandleMessage` | gossip_kv_store.py:51-65 | The new store is the old one with the payload handled by last-write-wins. When the update was applied and the draw is below 0.5, it is re-gossiped with this node as origin. Otherwise nothing is sent. |
| `Node.GossipNode.AntiEntropyRound` | gossip_kv_store.py:81-91 | With no peers nothing is sent. Otherwise exactly one datagram goes to the chosen peer, carrying the whole store and this node's id in a sync message. Reading the store back from that message gives exactly this node's store. |
| `Node.ConcurrentWritesConverge` | gossip_kv_store.py:20-65 | Node A writes x at time 0 and node B writes x at time 1, and each receives the other's gossip. Then both nodes read B's value, whatever the re-gossip draws. |

## Left out

- Networking: the socket is not modelled (creation, options and bind at lines 15-17, `sendto` at 47 and 89, `recvfrom` at 71). Sends are returned as datagrams. A failed send is swallowed in the source, so delivery is not part of the model.
- `recvfrom(1024)` truncates larger datagrams. A truncated payload fails to parse, so the model treats it as the `Unparseable` payload. The 1024-byte bound itself is not modelled.
- Threads: the receiver and anti-entropy threads and their infinite loops (lines 67-92) are not modelled. The thread started for re-gossip (line 63) is modelled as sending at once. The source has no locking, so the race between `put` and a concurrent merge is not modelled either. Each method runs atomically.
- The `time.sleep(10)` period of anti-entropy is not modelled. One round is `AntiEntropyRound`.
- `json.dumps`/`json.loads` are modelled at the level of JSON trees. Byte-level encoding, float formatting and NaN/Infinity numbers are not modelled.
- Messages.Decode: accepts an update only when its key is a JSON string and its timestamp a JSON number. Python would also accept other hashable key types (numbers, booleans, null) and other timestamp types. If such a key is absent, Python stores the entry, and later comparisons against an ill-typed timestamp raise `TypeError`, which is swallowed. A list or object key raises `TypeError` at line 58, which is swallowed too; for those keys the model agrees. Booleans used as numbers are not modelled either.
- Node.GossipNode.Get: returns `None` for a missing key. Python's `get` also returns `None` for a key whose stored value is `None`, so Python cannot tell the two apart. The model can.
- Printing (lines 18, 23, 29, 31, 60) is left out. The undefined `node_id` in the prints at lines 23, 29, 31 and 60 is handled as explained above; line 18 uses the constructor's parameter and is fine. The `origin` field is read only by the print at line 60, so the model does not require it in received updates.
- The demo block (lines 94-109) is not modelled. `Node.ConcurrentWritesConverge` plays a similar two-node scenario.
- `tcp_reno_simulator.py` is not part of this model. It is a separate floating-point simulation that shares nothing with the store.
