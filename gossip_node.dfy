/**
 * `GossipNode`: the replica store as a mutable field, local `put`/`get`,
 * the fan-out of updates to peers, message handling and the anti-entropy
 * send. Sends are returned as the list of datagrams handed to the socket;
 * randomness and the clock arrive as parameters.
 *
 * The Python prints refer to an undefined bare `node_id` and would raise
 * `NameError` after the store write; the prints are left out and the
 * intended logic (without them) is what is modelled here.
 */
module Node {
  import opened Wrappers
  import opened JsonValues
  import opened Replica
  import opened Messages
  import opened Receive

  /** Gossip goes to at most this many peers. */
  const Fanout: nat := 2

  function Min(a: nat, b: nat): nat {
    if a < b then a else b
  }

  /**
   * What `random.sample(peers, min(2, len(peers)))` may return, as positions
   * in the peer list: `min(2, n)` distinct positions below `n`.
   */
  predicate IsSample(picks: seq<nat>, n: nat) {
    && |picks| == Min(Fanout, n)
    && (forall i :: 0 <= i < |picks| ==> picks[i] < n)
    && (forall i, j :: 0 <= i < j < |picks| ==> picks[i] != picks[j])
  }

  /** The peers at the sampled positions. */
  function Targets(peers: seq<Address>, picks: seq<nat>): (t: seq<Address>)
    requires forall i :: 0 <= i < |picks| ==> picks[i] < |peers|
    ensures |t| == |picks| && forall i :: 0 <= i < |t| ==> t[i] in peers
  {
    seq(|picks|, i requires 0 <= i < |picks| => peers[picks[i]])
  }

  predicate NoDuplicates<T(==)>(s: seq<T>) {
    forall i, j :: 0 <= i < j < |s| ==> s[i] != s[j]
  }

  /** `sent` is one datagram per target, in order, each carrying the encoded update `m`. */
  predicate GossipedTo(sent: seq<Datagram>, targets: seq<Address>, m: UpdateMessage) {
    |sent| == |targets| && forall i :: 0 <= i < |sent| ==> sent[i] == Datagram(targets[i], EncodeUpdate(m))
  }

  /** Every list of peers admits a sample, so the fan-out can always be drawn. */
  lemma SampleExists(n: nat)
    ensures exists picks :: IsSample(picks, n)
  {
    var w: seq<nat> := if n == 0 then [] else if n == 1 then [0] else [0, 1];
    assert IsSample(w, n);
  }

  /** With a duplicate-free peer list, the targets are `min(2, |peers|)` distinct peers. */
  lemma DistinctTargets(peers: seq<Address>, picks: seq<nat>)
    requires NoDuplicates(peers) && IsSample(picks, |peers|)
    ensures |Targets(peers, picks)| == Min(Fanout, |peers|)
    ensures NoDuplicates(Targets(peers, picks))
  {
  }

  /** Each gossip receiver decodes exactly the update that was sent, and sees the sender as origin. */
  lemma GossipDelivers(sent: seq<Datagram>, targets: seq<Address>, m: UpdateMessage, i: nat)
    requires GossipedTo(sent, targets, m) && i < |sent|
    ensures sent[i].to == targets[i]
    ensures Decode(Parsed(sent[i].payload)) == UpdateMsg(Update(m.key, m.value, m.timestamp))
    ensures sent[i].payload.fields["origin"] == JString(m.origin)
  {
  }

  class GossipNode {
    const nodeId: string
    const port: int
    const peers: seq<Address>
    var store: Store

    /** A node with an empty store; the socket set-up is not modelled. */
    constructor (nodeId: string, port: int, peers: seq<Address>)
      ensures this.nodeId == nodeId && this.port == port && this.peers == peers
      ensures store == map[]
    {
      this.nodeId := nodeId;
      this.port := port;
      this.peers := peers;
      store := map[];
    }

    /**
     * `_gossip_update`: build the update message with this node as origin
     * and send it to each sampled peer in turn. A failed send is swallowed,
     * so every target still appears in `sent`.
     */
    method GossipUpdate(key: Key, value: Json, ts: real, picks: seq<nat>) returns (sent: seq<Datagram>)
      requires IsSample(picks, |peers|)
      ensures GossipedTo(sent, Targets(peers, picks), UpdateMessage(key, value, ts, nodeId))
    {
      var payload := EncodeUpdate(UpdateMessage(key, value, ts, nodeId));
      var targets := Targets(peers, picks);
      sent := [];
      for i := 0 to |targets|
        invariant |sent| == i
        invariant forall j :: 0 <= j < i ==> sent[j] == Datagram(targets[j], payload)
      {
        sent := sent + [Datagram(targets[i], payload)];
      }
    }

    /**
     * `put`: store the value under the clock reading `now`, whatever is
     * stored, then gossip it.
     */
    method Put(key: Key, value: Json, now: real, picks: seq<nat>) returns (sent: seq<Datagram>)
      requires IsSample(picks, |peers|)
      modifies this
      ensures store == old(store)[key := Entry(value, now)]
      ensures GossipedTo(sent, Targets(peers, picks), UpdateMessage(key, value, now, nodeId))
    {
      store := store[key := Entry(value, now)];
      sent := GossipUpdate(key, value, now, picks);
    }

    /** `get`: the stored value, or `None` for a missing key; the store is only read. */
    method Get(key: Key) returns (r: Option<Json>)
      ensures key in store ==> r == Some(store[key].value)
      ensures key !in store ==> r == None
    {
      if key in store {
        r := Some(store[key].value);
      } else {
        r := None;
      }
    }

    /**
     * `_handle_message`: decode, merge an update by last-write-wins, and in
     * the applied branch re-gossip when the draw `random.random()` is below
     * one half. Everything that is not a well-formed update is dropped
     * without an error. The re-gossip thread is modelled as sending at once.
     */
    method HandleMessage(data: Payload, draw: real, picks: seq<nat>) returns (sent: seq<Datagram>)
      requires 0.0 <= draw < 1.0
      requires IsSample(picks, |peers|)
      modifies this
      ensures store == Handle(old(store), data)
      ensures Regossips(old(store), data, draw) ==>
                GossipedTo(sent, Targets(peers, picks),
                           UpdateMessage(Decode(data).update.key, Decode(data).update.value,
                                         Decode(data).update.timestamp, nodeId))
      ensures !Regossips(old(store), data, draw) ==> sent == []
    {
      sent := [];
      match Decode(data) {
        case UpdateMsg(u) =>
          if u.key !in store || store[u.key].timestamp < u.timestamp {
            store := store[u.key := Entry(u.value, u.timestamp)];
            if draw < RegossipProbability {
              sent := GossipUpdate(u.key, u.value, u.timestamp, picks);
            }
          }
        case OtherType =>
        case Malformed =>
      }
    }

    /**
     * One anti-entropy round: with no peers nothing is sent; otherwise the
     * whole store goes, in one sync message naming this node, to the peer at
     * position `pick` (the `random.choice`).
     */
    method AntiEntropyRound(pick: nat) returns (sent: seq<Datagram>)
      requires |peers| > 0 ==> pick < |peers|
      ensures |peers| == 0 ==> sent == []
      ensures |peers| > 0 ==> sent == [Datagram(peers[pick], EncodeSync(store, nodeId))]
      // the one message sent carries the whole store
      ensures |peers| > 0 ==> SyncStore(sent[0].payload) == Some(store)
    {
      if |peers| > 0 {
        var target := peers[pick];
        sent := [Datagram(target, EncodeSync(store, nodeId))];
        SyncStoreEncodeSync(store, nodeId);
      } else {
        sent := [];
      }
    }
  }

  /**
   * Two nodes write the same key independently, A at time 0 and B at time 1,
   * and each receives the other's gossip. Whatever the re-gossip draws, both
   * end up reading B's value: the later write wins on both replicas.
   */
  method ConcurrentWritesConverge(drawA: real, drawB: real) returns (atA: Option<Json>, atB: Option<Json>)
    requires 0.0 <= drawA < 1.0 && 0.0 <= drawB < 1.0
    ensures atA == atB == Some(JNumber(2.0))
  {
    var addrA, addrB := Address("10.0.0.1", 5001), Address("10.0.0.2", 5002);
    var a := new GossipNode("A", 5001, [addrB]);
    var b := new GossipNode("B", 5002, [addrA]);
    var fromA := a.Put("x", JNumber(1.0), 0.0, [0]);
    var fromB := b.Put("x", JNumber(2.0), 1.0, [0]);
    GossipDelivers(fromA, [addrB], UpdateMessage("x", JNumber(1.0), 0.0, "A"), 0);
    GossipDelivers(fromB, [addrA], UpdateMessage("x", JNumber(2.0), 1.0, "B"), 0);
    var _ := b.HandleMessage(Parsed(fromA[0].payload), drawB, [0]);
    var _ := a.HandleMessage(Parsed(fromB[0].payload), drawA, [0]);
    atA := a.Get("x");
    atB := b.Get("x");
  }
}
