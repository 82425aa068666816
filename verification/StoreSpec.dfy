/**
 The key-value state machine as a map, folded over log entries. Every application of an entry reads
 the node's own clock, so a run comes with the times at which its entries were applied.
 */
module StoreSpec {
  import opened Types

  // Times are milliseconds since the epoch. Creation and update times are not part of the model.
  datatype KVEntry = KVEntry(value: string, version: nat, raftIndex: nat, expiresAt: Option<int>)

  type Store = map<string, KVEntry>

  predicate Expired(e: KVEntry, now: int)
  {
    e.expiresAt.Some? && e.expiresAt.value < now
  }

  function Put(m: Store, key: string, value: string, raftIndex: nat, ttl: Option<int>, now: int): Store
  {
    var version := if key in m then m[key].version + 1 else 1;
    m[key := KVEntry(value, version, raftIndex, if ttl.Some? then Some(now + ttl.value) else None)]
  }

  function Delete(m: Store, key: string): Store
  {
    m - {key}
  }

  /** A time to live counts only if it is positive. */
  function TtlOf(e: Entry): Option<int>
  {
    if e.ttlMs > 0 then Some(e.ttlMs) else None
  }

  function Apply(m: Store, e: Entry, now: int): Store
  {
    match e.op
    case NoOp => m
    case Put => Put(m, e.key, e.value, e.index, TtlOf(e), now)
    case Delete => Delete(m, e.key)
  }

  function ApplyAll(m: Store, es: seq<Entry>, times: seq<int>): Store
    requires |es| == |times|
  {
    if es == [] then m
    else Apply(ApplyAll(m, es[..|es| - 1], times[..|es| - 1]), es[|es| - 1], times[|es| - 1])
  }

  lemma {:induction false} ApplyInPieces(m: Store, a: seq<Entry>, s: seq<int>, b: seq<Entry>, t: seq<int>)
    requires |a| == |s| && |b| == |t|
    ensures ApplyAll(m, a + b, s + t) == ApplyAll(ApplyAll(m, a, s), b, t)
    decreases |b|
  {
    if b == [] {
      assert a + b == a && s + t == s;
    } else {
      var n := |b| - 1;
      assert (a + b)[..|a| + n] == a + b[..n] && (s + t)[..|a| + n] == s + t[..n];
      ApplyInPieces(m, a, s, b[..n], t[..n]);
    }
  }

  // ----- one key -----

  /** What replicas must agree on; expiry follows each node's own clock. */
  datatype Core = Core(value: string, version: nat, raftIndex: nat)

  function CoreOf(m: Store, k: string): Option<Core>
  {
    if k in m then Some(Core(m[k].value, m[k].version, m[k].raftIndex)) else None
  }

  predicate IsPut(e: Entry, k: string)
  {
    e.op == OpType.Put && e.key == k
  }

  predicate IsDelete(e: Entry, k: string)
  {
    e.op == OpType.Delete && e.key == k
  }

  function KeyStep(c: Option<Core>, e: Entry, k: string): Option<Core>
  {
    if IsPut(e, k) then Some(Core(e.value, if c.Some? then c.value.version + 1 else 1, e.index))
    else if IsDelete(e, k) then None
    else c
  }

  function KeyRun(c: Option<Core>, es: seq<Entry>, k: string): Option<Core>
  {
    if es == [] then c else KeyStep(KeyRun(c, es[..|es| - 1], k), es[|es| - 1], k)
  }

  /** Keys do not interfere, and the clock does not reach what replicas must agree on. */
  lemma {:induction false} ApplyByKey(m: Store, es: seq<Entry>, times: seq<int>, k: string)
    requires |es| == |times|
    ensures CoreOf(ApplyAll(m, es, times), k) == KeyRun(CoreOf(m, k), es, k)
  {
    if es != [] { ApplyByKey(m, es[..|es| - 1], times[..|es| - 1], k); }
  }

  ghost predicate SameCore(m: Store, m': Store)
  {
    forall k :: CoreOf(m, k) == CoreOf(m', k)
  }

  /** Replicas that have applied the same entries agree, whatever their clocks said. */
  lemma ReplicasAgree(es: seq<Entry>, times: seq<int>, times': seq<int>)
    requires |es| == |times| == |times'|
    ensures SameCore(ApplyAll(map[], es, times), ApplyAll(map[], es, times'))
  {
    forall k ensures CoreOf(ApplyAll(map[], es, times), k) == CoreOf(ApplyAll(map[], es, times'), k) {
      ApplyByKey(map[], es, times, k);
      ApplyByKey(map[], es, times', k);
    }
  }

  // ----- the last writer -----

  /** Entry `j` is a Put of `k` and no later entry touches `k`. */
  ghost predicate LastPut(es: seq<Entry>, k: string, j: nat)
  {
    j < |es| && IsPut(es[j], k) && forall i :: j < i < |es| ==> !IsPut(es[i], k) && !IsDelete(es[i], k)
  }

  /** The Puts of `k` that no later Delete of `k` has undone. */
  ghost function LivePuts(es: seq<Entry>, k: string): set<nat>
  {
    set j: nat | j < |es| && IsPut(es[j], k) && forall i :: j < i < |es| ==> !IsDelete(es[i], k)
  }

  lemma LivePutsSnoc(es: seq<Entry>, e: Entry, k: string)
    ensures LivePuts(es + [e], k) == if IsDelete(e, k) then {} else if IsPut(e, k) then LivePuts(es, k) + {|es|} else LivePuts(es, k)
  {
    var all := es + [e];
    forall j: nat ensures j in LivePuts(all, k) <==>
                          !IsDelete(e, k) && (j in LivePuts(es, k) || (j == |es| && IsPut(e, k)))
    {
      if j < |es| {
        assert all[j] == es[j] && all[|es|] == e;
        assert forall i :: j < i < |es| ==> all[i] == es[i];
        if j in LivePuts(all, k) {
          assert forall i :: j < i < |es| ==> !IsDelete(es[i], k) by {
            forall i | j < i < |es| ensures !IsDelete(es[i], k) { assert !IsDelete(all[i], k); }
          }
        }
      }
    }
  }

  lemma LastPutSnoc(es: seq<Entry>, e: Entry, k: string, j: nat)
    requires !IsPut(e, k) && !IsDelete(e, k)
    ensures LastPut(es + [e], k, j) <==> LastPut(es, k, j)
  {
    var all := es + [e];
    assert all[|es|] == e && forall i :: 0 <= i < |es| ==> all[i] == es[i];
    if LastPut(all, k, j) && j < |es| {
      forall i | j < i < |es| ensures !IsPut(es[i], k) && !IsDelete(es[i], k) { assert es[i] == all[i]; }
    }
  }

  lemma {:induction false} LastWriter(es: seq<Entry>, k: string, c: Option<Core>)
    requires c == KeyRun(None, es, k)
    ensures c.Some? <==> exists j: nat :: LastPut(es, k, j)
    ensures forall j: nat :: LastPut(es, k, j) ==> c.value.value == es[j].value && c.value.raftIndex == es[j].index
    ensures (if c.Some? then c.value.version else 0) == |LivePuts(es, k)|
  {
    if es != [] {
      var front, e := es[..|es| - 1], es[|es| - 1];
      assert es == front + [e];
      LastWriter(front, k, KeyRun(None, front, k));
      LivePutsSnoc(front, e, k);
      if IsPut(e, k) {
        assert LastPut(es, k, |front|);
      } else if !IsDelete(e, k) {
        forall j: nat ensures LastPut(es, k, j) <==> LastPut(front, k, j) { LastPutSnoc(front, e, k, j); }
      }
    }
  }

  /**
   After any entries from empty: a key is stored exactly if the last entry that touches it is a Put,
   with that Put's value and index, and as version the number of Puts since the last Delete.
   */
  lemma StoredIsLastWrite(es: seq<Entry>, times: seq<int>, k: string)
    requires |es| == |times|
    ensures var m := ApplyAll(map[], es, times);
            && (k in m <==> exists j: nat :: LastPut(es, k, j))
            && (k in m ==> m[k].version == |LivePuts(es, k)|)
            && forall j: nat :: LastPut(es, k, j) ==> k in m && m[k].value == es[j].value && m[k].raftIndex == es[j].index
  {
    ApplyByKey(map[], es, times, k);
    LastWriter(es, k, KeyRun(None, es, k));
  }

  /** A stored key is visible for as long as its last Put asked, counted from when that Put was applied. */
  lemma {:induction false} VisibleUntilTtl(es: seq<Entry>, times: seq<int>, k: string, j: nat, now: int)
    requires |es| == |times| && LastPut(es, k, j)
    ensures var m := ApplyAll(map[], es, times);
            k in m && (!Expired(m[k], now) <==> es[j].ttlMs <= 0 || now <= times[j] + es[j].ttlMs)
    decreases |es|
  {
    var n := |es| - 1;
    if j < n {
      assert LastPut(es[..n], k, j) by {
        forall i | j < i < n ensures !IsPut(es[..n][i], k) && !IsDelete(es[..n][i], k) { assert es[..n][i] == es[i]; }
      }
      VisibleUntilTtl(es[..n], times[..n], k, j, now);
      assert !IsPut(es[n], k) && !IsDelete(es[n], k);
    }
  }

  // ----- snapshots -----

  datatype SnapItem = SnapItem(key: string, value: string, version: nat, raftIndex: nat, expiresMs: int)

  function ItemOf(k: string, e: KVEntry): SnapItem
  {
    SnapItem(k, e.value, e.version, e.raftIndex, if e.expiresAt.Some? then e.expiresAt.value else -1)
  }

  function EntryOf(i: SnapItem): KVEntry
  {
    KVEntry(i.value, i.version, i.raftIndex, if i.expiresMs >= 0 then Some(i.expiresMs) else None)
  }

  /** What restoring a snapshot of `m` taken at `now` leaves. */
  function Restored(m: Store, now: int): Store
  {
    map k | k in m && !Expired(m[k], now) :: EntryOf(ItemOf(k, m[k]))
  }

  /** An entry survives the way through a snapshot item exactly if it does not expire before the epoch. */
  lemma ItemRoundTripIff(k: string, e: KVEntry)
    ensures EntryOf(ItemOf(k, e)) == e <==> (e.expiresAt.Some? ==> e.expiresAt.value >= 0)
  {
  }

  /** A snapshot taken after the epoch keeps every unexpired entry as it is, expiry included. */
  lemma RestoredAsTheyWere(m: Store, now: int)
    requires now >= 0
    ensures Restored(m, now) == map k | k in m && !Expired(m[k], now) :: m[k]
  {
    forall k | k in m && !Expired(m[k], now) ensures EntryOf(ItemOf(k, m[k])) == m[k] { ItemRoundTripIff(k, m[k]); }
  }

  ghost predicate Deleted(es: seq<Entry>, k: string)
  {
    exists j :: 0 <= j < |es| && IsDelete(es[j], k)
  }

  function PutCount(es: seq<Entry>, k: string): nat
  {
    if es == [] then 0 else PutCount(es[..|es| - 1], k) + if IsPut(es[|es| - 1], k) then 1 else 0
  }

  lemma {:induction false} UndeletedKeepsCounting(c: Option<Core>, es: seq<Entry>, k: string)
    requires !Deleted(es, k)
    ensures var n, v, r := PutCount(es, k), if c.Some? then c.value.version else 0, KeyRun(c, es, k);
            if n == 0 then r == c else r.Some? && r.value.version == v + n
  {
    if es != [] {
      var front := es[..|es| - 1];
      assert !Deleted(front, k) by { assert forall j :: 0 <= j < |front| ==> front[j] == es[j]; }
      assert !IsDelete(es[|es| - 1], k);
      UndeletedKeepsCounting(c, front, k);
    }
  }

  lemma {:induction false} DeletedForgets(c: Option<Core>, es: seq<Entry>, k: string)
    requires Deleted(es, k)
    ensures KeyRun(c, es, k) == KeyRun(None, es, k)
  {
    var front, e := es[..|es| - 1], es[|es| - 1];
    if !IsDelete(e, k) {
      var j :| 0 <= j < |es| && IsDelete(es[j], k);
      assert front[j] == es[j];
      DeletedForgets(c, front, k);
    }
  }

  /** Losing a stored key shows after the entries `es` exactly if none of them deletes it. */
  lemma LostKeyShowsIff(c: Core, es: seq<Entry>, k: string)
    requires c.version >= 1
    ensures KeyRun(Some(c), es, k) == KeyRun(None, es, k) <==> Deleted(es, k)
  {
    if Deleted(es, k) {
      DeletedForgets(Some(c), es, k);
    } else {
      UndeletedKeepsCounting(Some(c), es, k);
      UndeletedKeepsCounting(None, es, k);
    }
  }

  /** Every key that has expired at the snapshot is deleted by one of the entries that follow. */
  ghost predicate ExpiredAreDeleted(m: Store, now: int, es: seq<Entry>)
  {
    forall k :: k in m && Expired(m[k], now) ==> Deleted(es, k)
  }

  lemma RestoredKey(m: Store, now: int, es: seq<Entry>, k: string)
    requires forall l :: l in m ==> m[l].version >= 1
    ensures KeyRun(CoreOf(Restored(m, now), k), es, k) == KeyRun(CoreOf(m, k), es, k)
       <==> (k in m && Expired(m[k], now) ==> Deleted(es, k))
  {
    if k in m && Expired(m[k], now) { LostKeyShowsIff(CoreOf(m, k).value, es, k); }
  }

  /** Snapshot plus suffix equals the whole log exactly if what the snapshot dropped as expired is deleted later. */
  lemma SnapshotPlusSuffixIff(m: Store, now: int, es: seq<Entry>, times: seq<int>, times': seq<int>)
    requires |es| == |times| == |times'| && forall l :: l in m ==> m[l].version >= 1
    ensures SameCore(ApplyAll(Restored(m, now), es, times), ApplyAll(m, es, times')) <==> ExpiredAreDeleted(m, now, es)
  {
    var a, b := ApplyAll(Restored(m, now), es, times), ApplyAll(m, es, times');
    forall k ensures CoreOf(a, k) == CoreOf(b, k) <==> (k in m && Expired(m[k], now) ==> Deleted(es, k)) {
      ApplyByKey(Restored(m, now), es, times, k);
      ApplyByKey(m, es, times', k);
      RestoredKey(m, now, es, k);
    }
  }

  lemma {:induction false} VersionsPositive(es: seq<Entry>, times: seq<int>)
    requires |es| == |times|
    ensures forall k :: k in ApplyAll(map[], es, times) ==> ApplyAll(map[], es, times)[k].version >= 1
  {
    if es != [] { VersionsPositive(es[..|es| - 1], times[..|es| - 1]); }
  }

  /** The same for a log cut in two: a snapshot after `a` and then `b`, against `a` and `b` from empty. */
  lemma SnapshotThenLog(a: seq<Entry>, s: seq<int>, now: int, b: seq<Entry>, t: seq<int>, t': seq<int>)
    requires |a| == |s| && |b| == |t| == |t'|
    ensures SameCore(ApplyAll(Restored(ApplyAll(map[], a, s), now), b, t), ApplyAll(map[], a + b, s + t'))
       <==> ExpiredAreDeleted(ApplyAll(map[], a, s), now, b)
  {
    VersionsPositive(a, s);
    ApplyInPieces(map[], a, s, b, t');
    SnapshotPlusSuffixIff(ApplyAll(map[], a, s), now, b, t, t');
  }
}
