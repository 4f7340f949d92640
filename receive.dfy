/**
 * What handling one received payload does to a node's store, and when it
 * may lead to re-gossip. `GossipNode.HandleMessage` is proved against these.
 */
module Receive {
  import opened JsonValues
  import opened Replica
  import opened Messages

  /** Re-gossip happens when `random.random()` falls below this bound. */
  const RegossipProbability: real := 0.5

  /** The store after handling `p`: a decoded update is merged, anything else is dropped. */
  function Handle(s: Store, p: Payload): (r: Store)
    // payloads that are not well-formed updates leave the store as it was
    ensures !Decode(p).UpdateMsg? ==> r == s
    // a decoded update goes through the last-write-wins merge
    ensures Decode(p).UpdateMsg? ==> r == Merge(s, Decode(p).update)
    // nothing handled ever removes a key or lowers a key's timestamp
    ensures s.Keys <= r.Keys && forall k :: k in s ==> s[k].timestamp <= r[k].timestamp
  {
    match Decode(p)
    case UpdateMsg(u) => Merge(s, u)
    case _ => s
  }

  /** The handler took its "applied" branch. */
  predicate Applied(s: Store, p: Payload) {
    Decode(p).UpdateMsg? && Accepts(s, Decode(p).update)
  }

  /** The handler starts a re-gossip: applied, and the random draw fell below the bound. */
  predicate Regossips(s: Store, p: Payload, draw: real) {
    Applied(s, p) && draw < RegossipProbability
  }

  /** The "applied" branch is taken exactly when handling changes the store. */
  lemma AppliedIffChanged(s: Store, p: Payload)
    ensures Applied(s, p) <==> Handle(s, p) != s
  {
  }

  /** Handling the same payload twice leaves the store that handling it once leaves. */
  lemma HandleIdempotent(s: Store, p: Payload)
    ensures Handle(Handle(s, p), p) == Handle(s, p)
  {
  }

  /** Re-gossip only follows an update that changed the store. */
  lemma RegossipOnlyWhenApplied(s: Store, p: Payload, draw: real)
    requires Regossips(s, p, draw)
    ensures Decode(p).UpdateMsg? && Handle(s, p) != s
  {
  }

  /** A duplicate (an update received a second time) is never re-gossiped, whatever the draw. */
  lemma DuplicateNeverRegossips(s: Store, p: Payload, draw: real)
    ensures !Regossips(Handle(s, p), p, draw)
  {
  }

  /**
   * A received anti-entropy message is ignored: it neither changes the store
   * nor causes re-gossip, whatever store it carries.
   */
  lemma SyncNeverMerged(s: Store, carried: Store, sender: string, draw: real)
    ensures Handle(s, Parsed(EncodeSync(carried, sender))) == s
    ensures !Regossips(s, Parsed(EncodeSync(carried, sender)), draw)
  {
  }
}
