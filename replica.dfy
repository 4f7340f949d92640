/**
 * The replica store of one node: a map from key to (value, timestamp), and
 * the last-write-wins merge that the receive path applies to it.
 * Timestamps are only ever compared, so they are plain reals.
 */
module Replica {
  import opened JsonValues

  type Key = string

  /** The Python tuple `(value, timestamp)` kept per key. */
  datatype Entry = Entry(value: Json, timestamp: real)

  /** `GossipNode.store`. */
  type Store = map<Key, Entry>

  /** One remote write as the merge sees it: key, value and the writer's timestamp. */
  datatype Update = Update(key: Key, value: Json, timestamp: real)

  function MaxTs(a: real, b: real): real {
    if a < b then b else a
  }

  /** The guard of the merge: the key is absent or its stored timestamp is strictly older. */
  predicate Accepts(s: Store, u: Update) {
    u.key !in s || s[u.key].timestamp < u.timestamp
  }

  /**
   * Last-write-wins merge of one update. The incoming entry replaces the
   * stored one only when `Accepts` holds; on equal timestamps the stored
   * entry stays.
   */
  function Merge(s: Store, u: Update): (r: Store)
    // the key is present afterwards and no key disappears
    ensures r.Keys == s.Keys + {u.key}
    // every other key keeps its entry
    ensures forall k :: k in s && k != u.key ==> r[k] == s[k]
    // the key's timestamp becomes the larger of the old and the incoming one
    ensures r[u.key].timestamp == if u.key in s then MaxTs(s[u.key].timestamp, u.timestamp) else u.timestamp
    // the merge changes the store exactly when it is applied
    ensures r != s <==> Accepts(s, u)
    // an applied update stores its own value and timestamp; a rejected one changes nothing
    ensures Accepts(s, u) ==> r[u.key] == Entry(u.value, u.timestamp)
    ensures !Accepts(s, u) ==> r == s
  {
    if Accepts(s, u) then s[u.key := Entry(u.value, u.timestamp)] else s
  }

  /** Equal timestamps never overwrite: the entry already stored wins the tie. */
  lemma MergeTieKeepsExisting(s: Store, u: Update)
    requires u.key in s && s[u.key].timestamp == u.timestamp
    ensures Merge(s, u) == s
    ensures Merge(s, u)[u.key].value == s[u.key].value
  {
  }

  /** Applying the same update twice gives the store that applying it once gives. */
  lemma MergeIdempotent(s: Store, u: Update)
    ensures Merge(Merge(s, u), u) == Merge(s, u)
  {
  }

  /**
   * Two updates with distinct timestamps (or for distinct keys) can be
   * merged in either order with the same result.
   */
  lemma MergeCommutes(s: Store, a: Update, b: Update)
    requires a.key != b.key || a.timestamp != b.timestamp
    ensures Merge(Merge(s, a), b) == Merge(Merge(s, b), a)
  {
  }

  /**
   * On a tie, the order of arrival decides: whichever of two updates with
   * one key and one timestamp is merged first stays, so commutation needs
   * distinct timestamps.
   */
  lemma TieOrderMatters(s: Store, a: Update, b: Update)
    requires a.key == b.key && a.timestamp == b.timestamp && Accepts(s, a)
    ensures Merge(Merge(s, a), b)[a.key] == Entry(a.value, a.timestamp)
    ensures Merge(Merge(s, b), a)[a.key] == Entry(b.value, b.timestamp)
  {
  }

  /**
   * A local write (`Put` stores `s[k := Entry(v, now)]`) replaces an entry
   * even when the stored timestamp is newer, lowering the key's timestamp,
   * while the merge would have rejected the same entry and kept the store.
   */
  lemma PutCanLowerTimestamp(s: Store, k: Key, v: Json, now: real)
    requires k in s && now < s[k].timestamp
    ensures s[k := Entry(v, now)][k].timestamp < s[k].timestamp
    ensures Merge(s, Update(k, v, now)) == s
  {
  }

  /** The store after a sequence of updates is delivered in order. */
  function MergeAll(s: Store, us: seq<Update>): Store
    decreases |us|
  {
    if us == [] then s else MergeAll(Merge(s, us[0]), us[1..])
  }

  /** Every entry of the result is the one it was, or comes from one of the updates. */
  ghost predicate FromStoreOrUpdates(r: Store, s: Store, us: seq<Update>) {
    forall k :: k in r ==>
      (k in s && r[k] == s[k]) ||
      exists i :: 0 <= i < |us| && us[i].key == k && r[k] == Entry(us[i].value, us[i].timestamp)
  }

  /**
   * After a sequence of merges, each key's timestamp is the largest one this
   * node has seen for it: no smaller than the one stored before, no smaller
   * than any delivered update's, and the entry itself is either the old one
   * or one of the delivered updates.
   */
  lemma {:induction false} MergeAllKeepsNewest(s: Store, us: seq<Update>)
    ensures s.Keys <= MergeAll(s, us).Keys
    ensures forall k :: k in s ==> s[k].timestamp <= MergeAll(s, us)[k].timestamp
    ensures forall i :: 0 <= i < |us| ==>
              us[i].key in MergeAll(s, us) && us[i].timestamp <= MergeAll(s, us)[us[i].key].timestamp
    ensures FromStoreOrUpdates(MergeAll(s, us), s, us)
    decreases |us|
  {
    if us != [] {
      var s1, rest := Merge(s, us[0]), us[1..];
      var r := MergeAll(s1, rest);
      MergeAllKeepsNewest(s1, rest);
      assert r == MergeAll(s, us);
      forall i | 0 <= i < |us|
        ensures us[i].key in r && us[i].timestamp <= r[us[i].key].timestamp
      {
        if i > 0 {
          assert us[i] == rest[i - 1];
        }
      }
      forall k | k in r
        ensures (k in s && r[k] == s[k]) ||
                exists i :: 0 <= i < |us| && us[i].key == k && r[k] == Entry(us[i].value, us[i].timestamp)
      {
        if k in s1 && r[k] == s1[k] {
          if !(k in s && s1[k] == s[k]) {
            assert us[0].key == k && r[k] == Entry(us[0].value, us[0].timestamp);
          }
        } else {
          var j :| 0 <= j < |rest| && rest[j].key == k && r[k] == Entry(rest[j].value, rest[j].timestamp);
          assert us[j + 1] == rest[j];
        }
      }
    }
  }

  /** Delivering `a` then `b` is delivering `a + b`. */
  lemma {:induction false} MergeAllAppend(s: Store, a: seq<Update>, b: seq<Update>)
    ensures MergeAll(s, a + b) == MergeAll(MergeAll(s, a), b)
    decreases |a|
  {
    if a != [] {
      assert (a + b)[0] == a[0] && (a + b)[1..] == a[1..] + b;
      MergeAllAppend(Merge(s, a[0]), a[1..], b);
    } else {
      assert a + b == b;
    }
  }

  /** Updates that are no newer than what is stored change nothing. */
  lemma {:induction false} MergeAllAbsorbed(r: Store, us: seq<Update>)
    requires forall i :: 0 <= i < |us| ==> us[i].key in r && us[i].timestamp <= r[us[i].key].timestamp
    ensures MergeAll(r, us) == r
    decreases |us|
  {
    if us != [] {
      assert !Accepts(r, us[0]);
      assert forall i :: 0 <= i < |us[1..]| ==> us[1..][i] == us[i + 1];
      MergeAllAbsorbed(r, us[1..]);
    }
  }

  /** A batch of updates delivered twice leaves the store that one delivery leaves. */
  lemma MergeAllRedelivery(s: Store, us: seq<Update>)
    ensures MergeAll(s, us + us) == MergeAll(s, us)
  {
    MergeAllAppend(s, us, us);
    MergeAllKeepsNewest(s, us);
    MergeAllAbsorbed(MergeAll(s, us), us);
  }
}
