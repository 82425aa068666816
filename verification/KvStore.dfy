/** The key-value store as it is kept in place: entries in key order, changed by the state machine and scanned by prefix. */
module KvStores {
  import opened Types
  import opened KeyOrder
  import Spec = StoreSpec

  type KVEntry = Spec.KVEntry

  datatype Item = Item(key: string, entry: KVEntry)

  // ----- entries in key order -----

  ghost predicate Sorted(items: seq<Item>)
  {
    forall i, j :: 0 <= i < j < |items| ==> Less(items[i].key, items[j].key)
  }

  /** `items` lists `m` in key order. */
  ghost predicate Lists(items: seq<Item>, m: Spec.Store)
  {
    && Sorted(items)
    && (forall i :: 0 <= i < |items| ==> items[i].key in m && m[items[i].key] == items[i].entry)
    && (forall k :: k in m ==> exists i :: 0 <= i < |items| && items[i].key == k)
  }

  /** `i` separates the keys below `key` from the others. */
  ghost predicate IsLowerBound(items: seq<Item>, key: string, i: nat)
  {
    && i <= |items|
    && (forall j :: 0 <= j < i ==> Less(items[j].key, key))
    && (forall j :: i <= j < |items| ==> !Less(items[j].key, key))
  }

  predicate Found(items: seq<Item>, key: string, i: nat)
  {
    i < |items| && items[i].key == key
  }

  lemma InOrder(items: seq<Item>, i: nat, j: nat)
    requires Sorted(items) && i <= j < |items|
    ensures items[i].key == items[j].key || Less(items[i].key, items[j].key)
  {
  }

  lemma FoundIffStored(items: seq<Item>, m: Spec.Store, key: string, i: nat)
    requires Lists(items, m) && IsLowerBound(items, key, i)
    ensures Found(items, key, i) <==> key in m
    ensures Found(items, key, i) ==> m[key] == items[i].entry
  {
    if key in m {
      var j :| 0 <= j < |items| && items[j].key == key;
      Irreflexive(key);
      assert i <= j;
      InOrder(items, i, j);
    }
  }

  /** Past the lower bound of an absent key every key is above it. */
  lemma AboveWhenAbsent(items: seq<Item>, key: string, i: nat, j: nat)
    requires Sorted(items) && IsLowerBound(items, key, i) && !Found(items, key, i) && i <= j < |items|
    ensures Less(key, items[j].key)
  {
    Total(items[i].key, key);
    if i < j { Transitive(key, items[i].key, items[j].key); }
  }

  lemma InsertSorted(items: seq<Item>, i: nat, it: Item)
    requires Sorted(items) && IsLowerBound(items, it.key, i) && !Found(items, it.key, i)
    ensures Sorted(items[..i] + [it] + items[i..])
  {
    forall j | i <= j < |items| ensures Less(it.key, items[j].key) { AboveWhenAbsent(items, it.key, i, j); }
  }

  lemma InsertLists(items: seq<Item>, m: Spec.Store, i: nat, it: Item)
    requires Lists(items, m) && IsLowerBound(items, it.key, i) && !Found(items, it.key, i)
    ensures Lists(items[..i] + [it] + items[i..], m[it.key := it.entry])
  {
    var items', m' := items[..i] + [it] + items[i..], m[it.key := it.entry];
    InsertSorted(items, i, it);
    FoundIffStored(items, m, it.key, i);
    forall j | 0 <= j < |items'| ensures items'[j].key in m' && m'[items'[j].key] == items'[j].entry {
      if j != i { InsertKeepsAt(items, i, it, if j < i then j else j - 1); }
    }
    forall k | k in m' ensures exists j :: 0 <= j < |items'| && items'[j].key == k {
      InsertKeepsKey(items, i, it, k);
    }
  }

  lemma InsertKeepsAt(items: seq<Item>, i: nat, it: Item, j: nat)
    requires i <= |items| && j < |items|
    ensures (items[..i] + [it] + items[i..])[if j < i then j else j + 1] == items[j]
  {
  }

  lemma InsertKeepsKey(items: seq<Item>, i: nat, it: Item, k: string)
    requires i <= |items| && (k == it.key || exists j :: 0 <= j < |items| && items[j].key == k)
    ensures var items' := items[..i] + [it] + items[i..]; exists j :: 0 <= j < |items'| && items'[j].key == k
  {
    var items' := items[..i] + [it] + items[i..];
    if k == it.key {
      assert items'[i].key == k;
    } else {
      var j :| 0 <= j < |items| && items[j].key == k;
      InsertKeepsAt(items, i, it, j);
      assert items'[if j < i then j else j + 1].key == k;
    }
  }

  lemma ReplaceLists(items: seq<Item>, m: Spec.Store, i: nat, it: Item)
    requires Lists(items, m) && Found(items, it.key, i)
    ensures Lists(items[i := it], m[it.key := it.entry])
  {
    var items', m' := items[i := it], m[it.key := it.entry];
    assert forall j :: 0 <= j < |items| ==> items'[j].key == items[j].key;
    forall j | 0 <= j < |items'| ensures items'[j].key in m' && m'[items'[j].key] == items'[j].entry {
      if j != i { OthersDiffer(items, i, j); }
    }
    forall k | k in m' ensures exists j :: 0 <= j < |items'| && items'[j].key == k {
      if k != it.key {
        var j :| 0 <= j < |items| && items[j].key == k;
        assert items'[j].key == k;
      } else {
        assert items'[i].key == k;
      }
    }
  }

  lemma RemoveSorted(items: seq<Item>, i: nat)
    requires Sorted(items) && i < |items|
    ensures Sorted(items[..i] + items[i + 1..])
  {
  }

  lemma RemoveKeepsOthers(items: seq<Item>, i: nat, k: string)
    requires i < |items| && items[i].key != k && exists j :: 0 <= j < |items| && items[j].key == k
    ensures var items' := items[..i] + items[i + 1..]; exists j :: 0 <= j < |items'| && items'[j].key == k
  {
    var items' := items[..i] + items[i + 1..];
    var j :| 0 <= j < |items| && items[j].key == k;
    assert items'[if j < i then j else j - 1].key == k;
  }

  lemma OthersDiffer(items: seq<Item>, i: nat, j: nat)
    requires Sorted(items) && i < |items| && j < |items| && i != j
    ensures items[i].key != items[j].key
  {
    if j < i { Asymmetric(items[j].key, items[i].key); } else { Asymmetric(items[i].key, items[j].key); }
  }

  lemma RemoveLists(items: seq<Item>, m: Spec.Store, i: nat, key: string)
    requires Lists(items, m) && Found(items, key, i)
    ensures Lists(items[..i] + items[i + 1..], m - {key})
  {
    var items', m' := items[..i] + items[i + 1..], m - {key};
    RemoveSorted(items, i);
    forall j | 0 <= j < |items'| ensures items'[j].key in m' && m'[items'[j].key] == items'[j].entry {
      OthersDiffer(items, i, if j < i then j else j + 1);
    }
    forall k | k in m' ensures exists j :: 0 <= j < |items'| && items'[j].key == k {
      RemoveKeepsOthers(items, i, k);
    }
  }

  // ----- prefix scans -----

  predicate Matches(it: Item, prefix: string, now: int)
  {
    prefix <= it.key && !Spec.Expired(it.entry, now)
  }

  /** All unexpired entries whose key has the prefix, in key order. */
  function AllMatches(items: seq<Item>, prefix: string, now: int): seq<Item>
  {
    if items == [] then []
    else
      var front := AllMatches(items[..|items| - 1], prefix, now);
      if Matches(items[|items| - 1], prefix, now) then front + [items[|items| - 1]] else front
  }

  /** The limit is looked at after an entry has been added, so a limit of 0 acts as 1. */
  function Limited(rs: seq<Item>, limit: Option<nat>): seq<Item>
  {
    if limit.Some? && Max(limit.value, 1) <= |rs| then rs[..Max(limit.value, 1)] else rs
  }

  lemma {:induction false} NoMatches(items: seq<Item>, prefix: string, now: int)
    requires forall i :: 0 <= i < |items| ==> !(prefix <= items[i].key)
    ensures AllMatches(items, prefix, now) == []
  {
    if items != [] { NoMatches(items[..|items| - 1], prefix, now); }
  }

  lemma {:induction false} MatchesInPieces(a: seq<Item>, b: seq<Item>, prefix: string, now: int)
    ensures AllMatches(a + b, prefix, now) == AllMatches(a, prefix, now) + AllMatches(b, prefix, now)
    decreases |b|
  {
    if b == [] {
      assert a + b == a;
    } else {
      var n := |b| - 1;
      assert (a + b)[..|a| + n] == a + b[..n];
      MatchesInPieces(a, b[..n], prefix, now);
    }
  }

  /** Nothing below the prefix matches it. */
  lemma BelowDoesNotMatch(items: seq<Item>, prefix: string, now: int, i: nat)
    requires IsLowerBound(items, prefix, i)
    ensures AllMatches(items[..i], prefix, now) == []
  {
    forall j | 0 <= j < i ensures !(prefix <= items[..i][j].key) {
      if prefix <= items[j].key { PrefixNotAbove(prefix, items[j].key); }
    }
    NoMatches(items[..i], prefix, now);
  }

  /** After the first key past the lower bound without the prefix, no key has it. */
  lemma BeyondDoesNotMatch(items: seq<Item>, prefix: string, now: int, lo: nat, i: nat)
    requires Sorted(items) && IsLowerBound(items, prefix, lo) && lo <= i < |items| && !(prefix <= items[i].key)
    ensures AllMatches(items[i..], prefix, now) == []
  {
    forall j | 0 <= j < |items[i..]| ensures !(prefix <= items[i..][j].key) {
      if j > 0 && prefix <= items[i + j].key { Contiguous(prefix, items[i].key, items[i + j].key); }
    }
    NoMatches(items[i..], prefix, now);
  }

  lemma MatchNext(items: seq<Item>, prefix: string, now: int, i: nat)
    requires i < |items|
    ensures AllMatches(items[..i + 1], prefix, now) ==
            AllMatches(items[..i], prefix, now) + if Matches(items[i], prefix, now) then [items[i]] else []
  {
    assert items[..i + 1][..i] == items[..i];
  }

  lemma MatchesSplit(items: seq<Item>, prefix: string, now: int, i: nat)
    requires i <= |items|
    ensures AllMatches(items, prefix, now) == AllMatches(items[..i], prefix, now) + AllMatches(items[i..], prefix, now)
  {
    assert items[..i] + items[i..] == items;
    MatchesInPieces(items[..i], items[i..], prefix, now);
  }

  predicate BelowLimit(rs: seq<Item>, limit: Option<nat>)
  {
    limit.Some? ==> |rs| < Max(limit.value, 1)
  }

  /** What has been collected when the scan stops at a key without the prefix is everything. */
  lemma ScanStops(items: seq<Item>, prefix: string, now: int, lo: nat, i: nat)
    requires Sorted(items) && IsLowerBound(items, prefix, lo) && lo <= i < |items| && !(prefix <= items[i].key)
    ensures AllMatches(items, prefix, now) == AllMatches(items[..i], prefix, now)
  {
    BeyondDoesNotMatch(items, prefix, now, lo, i);
    MatchesSplit(items, prefix, now, i);
  }

  lemma ScanReachesLimit(items: seq<Item>, prefix: string, now: int, i: nat, rs: seq<Item>, limit: nat)
    requires i <= |items| && rs == AllMatches(items[..i], prefix, now) && |rs| == Max(limit, 1)
    ensures rs == Limited(AllMatches(items, prefix, now), Some(limit))
  {
    MatchesSplit(items, prefix, now, i);
  }

  /** What the scan's specification means: exactly the stored, unexpired entries with the prefix, in key order. */
  lemma {:induction false} MatchesAreTheStoredOnes(items: seq<Item>, prefix: string, now: int)
    requires Sorted(items)
    ensures forall it :: it in AllMatches(items, prefix, now) <==> it in items && Matches(it, prefix, now)
    ensures Sorted(AllMatches(items, prefix, now))
  {
    if items != [] {
      var front, last := items[..|items| - 1], items[|items| - 1];
      var rs := AllMatches(front, prefix, now);
      MatchesAreTheStoredOnes(front, prefix, now);
      assert forall it :: it in items <==> it in front || it == last;
      forall j | 0 <= j < |rs| ensures Less(rs[j].key, last.key) {
        assert rs[j] in front;
        var i :| 0 <= i < |front| && front[i] == rs[j];
        assert items[i] == front[i];
      }
    }
  }

  // What a scan means for a caller, who sees the stored map only.

  predicate Visible(m: Spec.Store, prefix: string, now: int, k: string)
  {
    k in m && prefix <= k && !Spec.Expired(m[k], now)
  }

  ghost predicate HasKey(rs: seq<Item>, k: string)
  {
    exists i :: 0 <= i < |rs| && rs[i].key == k
  }

  /**
   Visible entries only, in key order; and all of them, or as many as the limit allows (a limit of 0 counts
   as 1) and then the first ones.
   */
  ghost predicate Scans(m: Spec.Store, prefix: string, limit: Option<nat>, now: int, rs: seq<Item>)
  {
    && Sorted(rs) && (limit.Some? ==> |rs| <= Max(limit.value, 1))
    && (forall i :: 0 <= i < |rs| ==> Visible(m, prefix, now, rs[i].key) && m[rs[i].key] == rs[i].entry)
    && forall k :: Visible(m, prefix, now, k) ==>
         HasKey(rs, k) || (limit.Some? && |rs| == Max(limit.value, 1) && forall i :: 0 <= i < |rs| ==> Less(rs[i].key, k))
  }

  lemma AllMatchesScan(items: seq<Item>, m: Spec.Store, prefix: string, now: int)
    requires Lists(items, m)
    ensures Scans(m, prefix, None, now, AllMatches(items, prefix, now))
  {
    var rs := AllMatches(items, prefix, now);
    MatchesAreTheStoredOnes(items, prefix, now);
    forall i | 0 <= i < |rs| ensures Visible(m, prefix, now, rs[i].key) && m[rs[i].key] == rs[i].entry {
      assert rs[i] in rs;
      var j :| 0 <= j < |items| && items[j] == rs[i];
    }
    forall k | Visible(m, prefix, now, k) ensures HasKey(rs, k) {
      var j :| 0 <= j < |items| && items[j].key == k;
      assert items[j] in items && Matches(items[j], prefix, now) && items[j] in rs;
    }
  }

  lemma LimitedScan(m: Spec.Store, prefix: string, limit: Option<nat>, now: int, rs: seq<Item>)
    requires Scans(m, prefix, None, now, rs)
    ensures Scans(m, prefix, limit, now, Limited(rs, limit))
  {
    var few := Limited(rs, limit);
    forall k | Visible(m, prefix, now, k)
      ensures HasKey(few, k) || (limit.Some? && |few| == Max(limit.value, 1) && forall i :: 0 <= i < |few| ==> Less(few[i].key, k))
    {
      assert HasKey(rs, k);
      var j :| 0 <= j < |rs| && rs[j].key == k;
      if j < |few| { assert few[j].key == k; }
    }
  }

  // ----- snapshots -----

  /** Item `j` is the last one for `k`. */
  ghost predicate LastItem(snap: seq<Spec.SnapItem>, k: string, j: nat)
  {
    j < |snap| && snap[j].key == k && forall i :: j < i < |snap| ==> snap[i].key != k
  }

  /** A later item wins. */
  lemma {:induction false} LoadKeepsLast(snap: seq<Spec.SnapItem>, k: string, j: nat)
    requires LastItem(snap, k, j)
    ensures k in Load(snap) && Load(snap)[k] == Spec.EntryOf(snap[j])
    decreases |snap|
  {
    var front := snap[..|snap| - 1];
    if j < |front| {
      assert LastItem(front, k, j);
      LoadKeepsLast(front, k, j);
      assert snap[|front|].key != k;
    }
  }

  /** A key without an item is absent. */
  lemma {:induction false} LoadNothingElse(snap: seq<Spec.SnapItem>, k: string)
    requires forall i :: 0 <= i < |snap| ==> snap[i].key != k
    ensures k !in Load(snap)
  {
    if snap != [] { LoadNothingElse(snap[..|snap| - 1], k); }
  }

  /** One item for every unexpired entry, in key order. */
  function SnapItems(items: seq<Item>, now: int): seq<Spec.SnapItem>
  {
    if items == [] then []
    else
      var front, last := SnapItems(items[..|items| - 1], now), items[|items| - 1];
      if Spec.Expired(last.entry, now) then front else front + [Spec.ItemOf(last.key, last.entry)]
  }

  function Load(snap: seq<Spec.SnapItem>): Spec.Store
  {
    if snap == [] then map[] else Load(snap[..|snap| - 1])[snap[|snap| - 1].key := Spec.EntryOf(snap[|snap| - 1])]
  }

  lemma {:induction false} LoadKeys(items: seq<Item>, now: int, k: string)
    ensures k in Load(SnapItems(items, now)) ==> exists i :: 0 <= i < |items| && items[i].key == k
  {
    if items != [] {
      var front, last := items[..|items| - 1], items[|items| - 1];
      LoadKeys(front, now, k);
      LoadSnoc(items, now);
      if k in Load(SnapItems(items, now)) && k != last.key {
        var i :| 0 <= i < |front| && front[i].key == k;
        assert items[i].key == k;
      } else {
        assert items[|items| - 1].key == last.key;
      }
    }
  }

  lemma LoadSnoc(items: seq<Item>, now: int)
    requires items != []
    ensures var front, last := items[..|items| - 1], items[|items| - 1];
            Load(SnapItems(items, now)) ==
            if Spec.Expired(last.entry, now) then Load(SnapItems(front, now))
            else Load(SnapItems(front, now))[last.key := Spec.EntryOf(Spec.ItemOf(last.key, last.entry))]
  {
  }

  lemma {:induction false} LoadAt(items: seq<Item>, now: int, i: nat)
    requires Sorted(items) && i < |items|
    ensures items[i].key in Load(SnapItems(items, now)) <==> !Spec.Expired(items[i].entry, now)
    ensures !Spec.Expired(items[i].entry, now) ==>
              Load(SnapItems(items, now))[items[i].key] == Spec.EntryOf(Spec.ItemOf(items[i].key, items[i].entry))
  {
    var n := |items| - 1;
    LoadSnoc(items, now);
    if i < n {
      assert items[..n][i] == items[i];
      LoadAt(items[..n], now, i);
      OthersDiffer(items, i, n);
    } else {
      LoadKeys(items[..n], now, items[n].key);
      if items[n].key in Load(SnapItems(items[..n], now)) {
        var j :| 0 <= j < n && items[..n][j].key == items[n].key;
        OthersDiffer(items, j, n);
      }
    }
  }

  /** Restoring a snapshot gives back exactly what had not expired when it was taken. */
  lemma SnapshotRoundTrip(items: seq<Item>, m: Spec.Store, now: int)
    requires Lists(items, m)
    ensures Load(SnapItems(items, now)) == Spec.Restored(m, now)
  {
    var a, b := Load(SnapItems(items, now)), Spec.Restored(m, now);
    forall k ensures k in a <==> k in b {
      LoadKeys(items, now, k);
      if k in a || k in b {
        var i :| 0 <= i < |items| && items[i].key == k;
        LoadAt(items, now, i);
      }
    }
    forall k | k in a ensures a[k] == b[k] {
      var i :| 0 <= i < |items| && items[i].key == k;
      LoadAt(items, now, i);
    }
  }

  /** The scan's loop. */
  method ScanFrom(items: seq<Item>, lo: nat, prefix: string, limit: Option<nat>, now: int) returns (rs: seq<Item>)
    requires Sorted(items) && IsLowerBound(items, prefix, lo)
    ensures rs == Limited(AllMatches(items, prefix, now), limit)
  {
    rs := [];
    BelowDoesNotMatch(items, prefix, now, lo);
    var i := lo;
    while i < |items|
      invariant lo <= i <= |items|
      invariant rs == AllMatches(items[..i], prefix, now)
      invariant BelowLimit(rs, limit)
    {
      if !(prefix <= items[i].key) {
        ScanStops(items, prefix, now, lo, i);
        return;
      }
      MatchNext(items, prefix, now, i);
      if Spec.Expired(items[i].entry, now) {
        i := i + 1;
        continue;
      }
      rs := rs + [items[i]];
      i := i + 1;
      if limit.Some? && |rs| >= limit.value {
        ScanReachesLimit(items, prefix, now, i, rs, limit.value);
        return;
      }
    }
    assert items[..i] == items;
  }

  class KVStore {
    var items: seq<Item>
    ghost var view: Spec.Store

    ghost predicate Valid()
      reads this
    {
      Lists(items, view)
    }

    constructor ()
      ensures Valid() && view == map[]
    {
      items, view := [], map[];
    }

    method LowerBound(key: string) returns (i: nat)
      requires Valid()
      ensures IsLowerBound(items, key, i)
    {
      i := 0;
      while i < |items| && Less(items[i].key, key)
        invariant i <= |items| && forall j :: 0 <= j < i ==> Less(items[j].key, key)
      {
        i := i + 1;
      }
      forall j | i <= j < |items| ensures !Less(items[j].key, key) {
        if j > i && Less(items[j].key, key) { Transitive(items[i].key, items[j].key, key); }
      }
    }

    method Get(key: string, now: int) returns (e: Option<KVEntry>)
      requires Valid()
      ensures e == if key in view && !Spec.Expired(view[key], now) then Some(view[key]) else None
    {
      var i := LowerBound(key);
      FoundIffStored(items, view, key, i);
      if !Found(items, key, i) || Spec.Expired(items[i].entry, now) {
        return None;
      }
      return Some(items[i].entry);
    }

    method Put(key: string, value: string, raftIndex: nat, ttl: Option<int>, now: int)
      requires Valid()
      modifies this
      ensures Valid() && view == Spec.Put(old(view), key, value, raftIndex, ttl, now)
    {
      var version := NextVersion(key);
      var expiresAt := if ttl.Some? then Some(now + ttl.value) else None;
      Set(key, Spec.KVEntry(value, version, raftIndex, expiresAt));
    }

    method NextVersion(key: string) returns (version: nat)
      requires Valid()
      ensures version == if key in view then view[key].version + 1 else 1
    {
      var i := LowerBound(key);
      FoundIffStored(items, view, key, i);
      version := if Found(items, key, i) then items[i].entry.version + 1 else 1;
    }

    method Set(key: string, e: KVEntry)
      requires Valid()
      modifies this
      ensures Valid() && view == old(view)[key := e]
    {
      var i := LowerBound(key);
      var it := Item(key, e);
      if Found(items, key, i) {
        ReplaceLists(items, view, i, it);
        items := items[i := it];
      } else {
        InsertLists(items, view, i, it);
        items := items[..i] + [it] + items[i..];
      }
      view := view[key := e];
    }

    method Delete(key: string) returns (erased: bool)
      requires Valid()
      modifies this
      ensures Valid() && view == Spec.Delete(old(view), key) && erased == (key in old(view))
    {
      var i := LowerBound(key);
      FoundIffStored(items, view, key, i);
      erased := Found(items, key, i);
      if erased {
        RemoveLists(items, view, i, key);
        items := items[..i] + items[i + 1..];
      }
      view := view - {key};
    }

    /** A log entry applied to the store. */
    method ApplyEntry(e: Entry, now: int)
      requires Valid()
      modifies this
      ensures Valid() && view == Spec.Apply(old(view), e, now)
    {
      if e.op == OpType.NoOp {
        return;
      }
      if e.op == OpType.Put {
        Put(e.key, e.value, e.index, if e.ttlMs > 0 then Some(e.ttlMs) else None, now);
      } else {
        var _ := Delete(e.key);
      }
    }

    /** Starting at the lower bound and stopping at the first other key finds every match, in order, up to the limit. */
    method Scan(prefix: string, limit: Option<nat>, now: int) returns (rs: seq<Item>)
      requires Valid()
      ensures rs == Limited(AllMatches(items, prefix, now), limit) && Scans(view, prefix, limit, now, rs)
    {
      var lo := LowerBound(prefix);
      rs := ScanFrom(items, lo, prefix, limit, now);
      AllMatchesScan(items, view, prefix, now);
      LimitedScan(view, prefix, limit, now, AllMatches(items, prefix, now));
    }

    method TakeSnapshot(now: int) returns (snap: seq<Spec.SnapItem>)
      requires Valid()
      ensures snap == SnapItems(items, now) && Load(snap) == Spec.Restored(view, now)
    {
      snap := [];
      for i := 0 to |items|
        invariant snap == SnapItems(items[..i], now)
      {
        assert items[..i + 1][..i] == items[..i];
        if Spec.Expired(items[i].entry, now) {
          continue;
        }
        snap := snap + [Spec.ItemOf(items[i].key, items[i].entry)];
      }
      assert items[..|items|] == items;
      SnapshotRoundTrip(items, view, now);
    }

    method RestoreSnapshot(snap: seq<Spec.SnapItem>)
      modifies this
      ensures Valid() && view == Load(snap)
    {
      items, view := [], map[];
      for i := 0 to |snap|
        invariant Valid() && view == Load(snap[..i])
      {
        assert snap[..i + 1][..i] == snap[..i];
        Set(snap[i].key, Spec.EntryOf(snap[i]));
      }
      assert snap[..|snap|] == snap;
    }
  }
}
