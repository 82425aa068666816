/**
 What a node makes of its write-ahead log when it starts: the fold of `Recover` over the
 decoded records, the rule it implements, and when it gives back the in-memory log.
 */
module WalRecords {
  import opened Types
  import opened Logs

  datatype WalRecord =
    | LogRec(entry: Entry)
    | HardRec(term: nat, votedFor: Option<NodeId>)
    | SnapRec(index: nat, snapTerm: nat, data: string)

  datatype Recovery = Recovery(
    entries: seq<Entry>,
    term: nat,
    votedFor: Option<NodeId>,
    snapshot: Option<string>,
    snapshotIndex: nat,
    snapshotTerm: nat)

  const NOTHING := Recovery([], 0, None, None, 0, 0)

  /** The pop loop: drop entries from the back while their index is at least `i`. */
  function PopFrom(es: seq<Entry>, i: nat): seq<Entry>
  {
    if es != [] && es[|es| - 1].index >= i then PopFrom(es[..|es| - 1], i) else es
  }

  function Replay(r: Recovery, rec: WalRecord): Recovery
  {
    match rec
    case LogRec(e) => r.(entries := PopFrom(r.entries, e.index) + [e])
    case HardRec(t, v) => r.(term := t, votedFor := v)
    case SnapRec(i, t, d) => r.(entries := [], snapshot := Some(d), snapshotIndex := i, snapshotTerm := t)
  }

  function Recover(records: seq<WalRecord>): Recovery
  {
    if records == [] then NOTHING
    else Replay(Recover(records[..|records| - 1]), records[|records| - 1])
  }

  function LogRecs(es: seq<Entry>): (rs: seq<WalRecord>)
    ensures |rs| == |es|
    ensures forall k :: 0 <= k < |es| ==> rs[k] == LogRec(es[k])
  {
    seq(|es|, k requires 0 <= k < |es| => LogRec(es[k]))
  }

  lemma RecoverSnoc(records: seq<WalRecord>, rec: WalRecord)
    ensures Recover(records + [rec]) == Replay(Recover(records), rec)
  {
  }

  // ----- the pop loop against an order -----

  ghost predicate Rising(es: seq<Entry>)
  {
    forall j, k :: 0 <= j < k < |es| ==> es[j].index < es[k].index
  }

  /** On entries with rising indices the loop keeps exactly the prefix below `i`. */
  lemma {:induction false} PopFromKeepsBelow(es: seq<Entry>, i: nat)
    requires Rising(es)
    ensures PopFrom(es, i) <= es
    ensures forall k :: 0 <= k < |es| ==> (k < |PopFrom(es, i)| <==> es[k].index < i)
  {
    if es != [] && es[|es| - 1].index >= i {
      PopFromKeepsBelow(es[..|es| - 1], i);
    }
  }

  lemma {:induction false} RecoverRising(records: seq<WalRecord>)
    ensures Rising(Recover(records).entries)
  {
    if records != [] {
      var r := Recover(records[..|records| - 1]);
      RecoverRising(records[..|records| - 1]);
      if records[|records| - 1].LogRec? {
        PopFromKeepsBelow(r.entries, records[|records| - 1].entry.index);
      }
    }
  }

  // ----- the declarative rule -----

  /** Record `k` is a log record, no snapshot follows it, and every later log record has a larger index. */
  predicate Survives(records: seq<WalRecord>, k: nat)
    requires k < |records|
  {
    && records[k].LogRec?
    && (forall j :: k < j < |records| ==> !records[j].SnapRec?)
    && (forall j :: k < j < |records| && records[j].LogRec? ==> records[k].entry.index < records[j].entry.index)
  }

  function Kept(records: seq<WalRecord>, k: nat): (es: seq<Entry>)
    requires k < |records|
    ensures |es| <= 1
  {
    if Survives(records, k) then [records[k].entry] else []
  }

  function AllKept(records: seq<WalRecord>): (ks: seq<seq<Entry>>)
    ensures |ks| == |records| && forall k :: 0 <= k < |ks| ==> ks[k] == Kept(records, k)
  {
    seq(|records|, k requires 0 <= k < |records| => Kept(records, k))
  }

  function Concat(ks: seq<seq<Entry>>): seq<Entry>
  {
    if ks == [] then [] else Concat(ks[..|ks| - 1]) + ks[|ks| - 1]
  }

  /** The entries of the surviving records, in write order. */
  function Survivors(records: seq<WalRecord>): seq<Entry>
  {
    Concat(AllKept(records))
  }

  function Below(es: seq<Entry>, i: nat): seq<Entry>
  {
    if es == [] then []
    else Below(es[..|es| - 1], i) + (if es[|es| - 1].index < i then [es[|es| - 1]] else [])
  }

  lemma AllBelow(es: seq<Entry>, i: nat)
    requires forall k :: 0 <= k < |es| ==> es[k].index < i
    ensures PopFrom(es, i) == es
  {
  }

  lemma {:induction false} BelowIsPop(es: seq<Entry>, i: nat)
    requires Rising(es)
    ensures Below(es, i) == PopFrom(es, i)
  {
    if es != [] {
      var front := es[..|es| - 1];
      BelowIsPop(front, i);
      if es[|es| - 1].index < i {
        AllBelow(front, i);
        assert es == front + [es[|es| - 1]];
      }
    }
  }

  lemma BelowOne(e: Entry, i: nat)
    ensures Below([e], i) == if e.index < i then [e] else []
  {
  }

  lemma BelowAppend(es: seq<Entry>, more: seq<Entry>, i: nat)
    requires |more| <= 1
    ensures Below(es + more, i) == Below(es, i) + Below(more, i)
  {
    if |more| == 1 {
      assert (es + more)[..|es|] == es;
      assert more[..0] == [];
      assert (es + more)[|es + more| - 1] == more[0];
    } else {
      assert es + more == es;
    }
  }

  lemma SurvivesSnoc(records: seq<WalRecord>, rec: WalRecord, k: nat)
    requires k < |records|
    ensures Survives(records + [rec], k) <==>
            Survives(records, k) && !rec.SnapRec? && (rec.LogRec? ==> records[k].entry.index < rec.entry.index)
  {
    var all := records + [rec];
    assert all[k] == records[k] && all[|records|] == rec;
    assert forall j :: k < j < |records| ==> all[j] == records[j];
    if Survives(all, k) {
      assert forall j :: k < j < |records| ==> records[j] == all[j];
    }
  }

  function SurvivorsAfter(es: seq<Entry>, rec: WalRecord): seq<Entry>
  {
    match rec
    case LogRec(e) => Below(es, e.index)
    case HardRec(_, _) => es
    case SnapRec(_, _, _) => []
  }

  lemma KeptSnoc(records: seq<WalRecord>, rec: WalRecord, k: nat)
    requires k < |records|
    ensures Kept(records + [rec], k) == SurvivorsAfter(Kept(records, k), rec)
  {
    SurvivesSnoc(records, rec, k);
    assert (records + [rec])[k] == records[k];
    if rec.LogRec? && Survives(records, k) { BelowOne(records[k].entry, rec.entry.index); }
  }

  lemma SurvivorsAfterAppend(es: seq<Entry>, more: seq<Entry>, rec: WalRecord)
    requires |more| <= 1
    ensures SurvivorsAfter(es + more, rec) == SurvivorsAfter(es, rec) + SurvivorsAfter(more, rec)
  {
    if rec.LogRec? { BelowAppend(es, more, rec.entry.index); }
  }

  /** How one more record changes the survivors among the old ones. */
  lemma {:induction false} ConcatAfter(ks: seq<seq<Entry>>, ks': seq<seq<Entry>>, rec: WalRecord)
    requires |ks'| == |ks| && forall k :: 0 <= k < |ks| ==> |ks[k]| <= 1 && ks'[k] == SurvivorsAfter(ks[k], rec)
    ensures Concat(ks') == SurvivorsAfter(Concat(ks), rec)
    decreases |ks|
  {
    if ks != [] {
      var n := |ks| - 1;
      ConcatAfter(ks[..n], ks'[..n], rec);
      SurvivorsAfterAppend(Concat(ks[..n]), ks[n], rec);
    }
  }

  lemma AllKeptSnoc(records: seq<WalRecord>, rec: WalRecord) returns (ks: seq<seq<Entry>>)
    ensures |ks| == |records| && AllKept(records + [rec]) == ks + [Newest(rec)]
    ensures forall k :: 0 <= k < |records| ==> ks[k] == SurvivorsAfter(AllKept(records)[k], rec)
  {
    var all := AllKept(records + [rec]);
    ks := all[..|records|];
    assert (records + [rec])[|records|] == rec;
    forall k | 0 <= k < |records| ensures ks[k] == SurvivorsAfter(AllKept(records)[k], rec) { KeptSnoc(records, rec, k); }
  }

  /** A log record survives where it is the last one. */
  function Newest(rec: WalRecord): seq<Entry>
  {
    if rec.LogRec? then [rec.entry] else []
  }

  lemma SurvivorsGrow(records: seq<WalRecord>, rec: WalRecord)
    ensures Survivors(records + [rec]) == SurvivorsAfter(Survivors(records), rec) + Newest(rec)
  {
    var ks := AllKeptSnoc(records, rec);
    ConcatAfter(AllKept(records), ks, rec);
    assert (ks + [Newest(rec)])[..|ks|] == ks;
  }

  lemma ReplayIsSurvivors(r: Recovery, rec: WalRecord)
    requires Rising(r.entries)
    ensures Replay(r, rec).entries == SurvivorsAfter(r.entries, rec) + Newest(rec)
  {
    if rec.LogRec? { BelowIsPop(r.entries, rec.entry.index); }
  }

  /** The recovered entries are exactly the surviving log records, in write order. */
  lemma {:induction false} RecoverIsSurvivors(records: seq<WalRecord>)
    ensures Recover(records).entries == Survivors(records)
  {
    if records != [] {
      var front, rec := records[..|records| - 1], records[|records| - 1];
      assert records == front + [rec];
      RecoverIsSurvivors(front);
      SurvivorsGrow(front, rec);
      RecoverRising(front);
      ReplayIsSurvivors(Recover(front), rec);
    }
  }

  // ----- the snapshot and the hard state -----

  /** Record `k` is the last snapshot record. */
  ghost predicate LastSnap(records: seq<WalRecord>, k: nat)
  {
    k < |records| && records[k].SnapRec? && forall j :: k < j < |records| ==> !records[j].SnapRec?
  }

  /** Record `k` is the last hard-state record. */
  ghost predicate LastHard(records: seq<WalRecord>, k: nat)
  {
    k < |records| && records[k].HardRec? && forall j :: k < j < |records| ==> !records[j].HardRec?
  }

  lemma LastSnapSnoc(records: seq<WalRecord>, rec: WalRecord, k: nat)
    ensures LastSnap(records + [rec], k) <==> if rec.SnapRec? then k == |records| else LastSnap(records, k)
  {
    var all := records + [rec];
    assert all[|records|] == rec && forall j :: 0 <= j < |records| ==> all[j] == records[j];
    if LastSnap(all, k) && k < |records| {
      forall j | k < j < |records| ensures !records[j].SnapRec? { assert !all[j].SnapRec?; }
    }
  }

  lemma LastHardSnoc(records: seq<WalRecord>, rec: WalRecord, k: nat)
    ensures LastHard(records + [rec], k) <==> if rec.HardRec? then k == |records| else LastHard(records, k)
  {
    var all := records + [rec];
    assert all[|records|] == rec && forall j :: 0 <= j < |records| ==> all[j] == records[j];
    if LastHard(all, k) && k < |records| {
      forall j | k < j < |records| ensures !records[j].HardRec? { assert !all[j].HardRec?; }
    }
  }

  /** The recovered snapshot, its index and its term are those of the last snapshot record. */
  lemma {:induction false} RecoversLastSnapshot(records: seq<WalRecord>)
    ensures var r := Recover(records);
            && (forall k: nat :: LastSnap(records, k) ==>
                  r.snapshot == Some(records[k].data) && r.snapshotIndex == records[k].index && r.snapshotTerm == records[k].snapTerm)
            && ((forall k :: 0 <= k < |records| ==> !records[k].SnapRec?) ==> r.snapshot == None && r.snapshotIndex == 0 && r.snapshotTerm == 0)
  {
    if records != [] {
      var front, rec := records[..|records| - 1], records[|records| - 1];
      assert records == front + [rec];
      RecoversLastSnapshot(front);
      forall k: nat ensures LastSnap(records, k) <==> if rec.SnapRec? then k == |front| else LastSnap(front, k) { LastSnapSnoc(front, rec, k); }
    }
  }

  /** The recovered term and vote are those of the last hard-state record. */
  lemma {:induction false} RecoversLastHardState(records: seq<WalRecord>)
    ensures var r := Recover(records);
            && (forall k: nat :: LastHard(records, k) ==> r.term == records[k].term && r.votedFor == records[k].votedFor)
            && ((forall k :: 0 <= k < |records| ==> !records[k].HardRec?) ==> r.term == 0 && r.votedFor == None)
  {
    if records != [] {
      var front, rec := records[..|records| - 1], records[|records| - 1];
      assert records == front + [rec];
      RecoversLastHardState(front);
      forall k: nat ensures LastHard(records, k) <==> if rec.HardRec? then k == |front| else LastHard(front, k) { LastHardSnoc(front, rec, k); }
    }
  }

  // ----- rewriting records into the log -----

  lemma PopFromIdle(es: seq<Entry>, front: seq<Entry>, e: Entry)
    requires front != [] && front[|front| - 1].index < e.index
    ensures PopFrom(es + front, e.index) == es + front
  {
  }

  lemma OneMoreReplayed(r: Recovery, front: seq<Entry>, last: Entry, kept: seq<Entry>)
    requires front != [] && front[|front| - 1].index < last.index
    ensures Replay(r.(entries := kept + front), LogRec(last)) == r.(entries := kept + (front + [last]))
  {
    PopFromIdle(kept, front, last);
  }

  /** Log records with rising indices replace everything from the first index on. */
  lemma {:induction false} RecoverBatch(records: seq<WalRecord>, es: seq<Entry>)
    requires Rising(es)
    ensures es == [] ==> Recover(records + LogRecs(es)) == Recover(records)
    ensures es != [] ==> Recover(records + LogRecs(es)) ==
                         Recover(records).(entries := PopFrom(Recover(records).entries, es[0].index) + es)
  {
    if es == [] {
      assert records + LogRecs(es) == records;
    } else {
      var front, last := es[..|es| - 1], es[|es| - 1];
      assert es == front + [last];
      assert records + LogRecs(es) == (records + LogRecs(front)) + [LogRec(last)];
      RecoverBatch(records, front);
      RecoverSnoc(records + LogRecs(front), LogRec(last));
      if front != [] {
        OneMoreReplayed(Recover(records), front, last, PopFrom(Recover(records).entries, es[0].index));
      }
    }
  }

  /** The constructor appends every recovered entry again; the next recovery is unchanged by that. */
  lemma ReappendingKeepsRecovery(records: seq<WalRecord>)
    ensures Recover(records + LogRecs(Recover(records).entries)) == Recover(records)
  {
    var es := Recover(records).entries;
    RecoverRising(records);
    RecoverBatch(records, es);
    if es != [] {
      PopFromKeepsBelow(es, es[0].index);
      assert PopFrom(es, es[0].index) == [];
    }
  }

  // ----- the log in memory against the log on disk -----

  /** A batch is numbered consecutively from `prev + 1`. */
  ghost predicate Numbered(prev: nat, batch: seq<Entry>)
  {
    forall k :: 0 <= k < |batch| ==> batch[k].index == prev + 1 + k
  }

  /** Where the log and the batch hold the same term they hold the same entry. */
  ghost predicate MatchesByTerm(log: Log, prev: nat, batch: seq<Entry>)
  {
    forall k :: 0 <= k < |batch| && prev + k < |log| && log[prev + k].term == batch[k].term ==> log[prev + k] == batch[k]
  }

  lemma PopFromCuts(log: Log, prev: nat)
    requires WellIndexed(log) && prev <= |log|
    ensures PopFrom(log, prev + 1) == log[..prev]
  {
    PopFromKeepsBelow(log, prev + 1);
    var p := PopFrom(log, prev + 1);
    if prev < |log| { assert log[prev].index >= prev + 1; }
    if prev > 0 { assert log[prev - 1].index < prev + 1; }
  }

  /** What the disk holds after a batch: everything from the batch's first index on is replaced by the batch. */
  lemma DiskAfterBatch(records: seq<WalRecord>, log: Log, prev: nat, batch: seq<Entry>)
    requires Recover(records).entries == log && WellIndexed(log)
    requires prev <= |log| && Numbered(prev, batch)
    ensures Recover(records + LogRecs(batch)).entries == if batch == [] then log else log[..prev] + batch
  {
    RecoverBatch(records, batch);
    PopFromCuts(log, prev);
  }

  lemma SpliceWellIndexed(log: Log, prev: nat, batch: seq<Entry>)
    requires WellIndexed(log) && prev <= |log| && Numbered(prev, batch)
    ensures WellIndexed(Splice(log, prev, batch))
  {
    SpliceCutsAtFirstConflict(log, prev, batch);
  }

  /** Against a log that matches by term, the splice either replaces everything from the batch on or changes nothing. */
  lemma SpliceOrReplace(log: Log, prev: nat, batch: seq<Entry>)
    requires prev <= |log| && MatchesByTerm(log, prev, batch)
    ensures Splice(log, prev, batch) == log[..prev] + batch || Splice(log, prev, batch) == log
    ensures |Splice(log, prev, batch)| == prev + |batch| ==> Splice(log, prev, batch) == log[..prev] + batch
  {
    var h := Held(log, prev, batch);
    SpliceCutsAtFirstConflict(log, prev, batch);
    forall k | prev <= k < prev + h ensures log[k] == batch[k - prev] {
      assert log[prev + (k - prev)].term == batch[k - prev].term;
    }
    ReplacedPieces(log, prev, batch, h, Splice(log, prev, batch));
  }

  lemma ReplacedPieces(log: Log, prev: nat, batch: seq<Entry>, h: nat, out: Log)
    requires prev + h <= |log| && h <= |batch| && forall k :: prev <= k < prev + h ==> log[k] == batch[k - prev]
    requires out == if h == |batch| then log else log[..prev + h] + batch[h..]
    ensures out == log[..prev] + batch || out == log
    ensures |out| == prev + |batch| ==> out == log[..prev] + batch
  {
    if h < |batch| || |log| == prev + |batch| {
      assert out == log[..prev] + batch;
    }
  }

  /**
   The exact condition under which memory and disk agree after `AppendAll`, given that they agreed
   before: the batch is empty, or it ends at the last index of the resulting log.
   */
  lemma AgreesIffBatchEndsAtLast(records: seq<WalRecord>, log: Log, prev: nat, batch: seq<Entry>)
    requires Recover(records).entries == log && WellIndexed(log)
    requires prev <= |log| && Numbered(prev, batch) && MatchesByTerm(log, prev, batch)
    ensures Recover(records + LogRecs(batch)).entries == Splice(log, prev, batch)
            <==> batch == [] || prev + |batch| == |Splice(log, prev, batch)|
  {
    DiskAfterBatch(records, log, prev, batch);
    SpliceOrReplace(log, prev, batch);
  }

  /** The calls a node makes on its log between two restarts. */
  datatype LogCall = AppendOne(entry: Entry) | AppendBatch(prev: nat, batch: seq<Entry>)

  ghost predicate CallOk(log: Log, call: LogCall)
  {
    match call
    case AppendOne(e) => e.index == |log| + 1
    case AppendBatch(prev, batch) =>
      && prev <= |log| && Numbered(prev, batch) && MatchesByTerm(log, prev, batch)
      && (batch == [] || prev + |batch| == |Splice(log, prev, batch)|)
  }

  function AfterCall(log: Log, call: LogCall): Log
  {
    match call
    case AppendOne(e) => log + [e]
    case AppendBatch(prev, batch) => if prev <= |log| then Splice(log, prev, batch) else log
  }

  function Written(call: LogCall): seq<WalRecord>
  {
    match call
    case AppendOne(e) => [LogRec(e)]
    case AppendBatch(_, batch) => LogRecs(batch)
  }

  function MemoryAfter(calls: seq<LogCall>): Log
  {
    if calls == [] then [] else AfterCall(MemoryAfter(calls[..|calls| - 1]), calls[|calls| - 1])
  }

  function DiskAfter(calls: seq<LogCall>): seq<WalRecord>
  {
    if calls == [] then [] else DiskAfter(calls[..|calls| - 1]) + Written(calls[|calls| - 1])
  }

  ghost predicate CallsOk(calls: seq<LogCall>)
  {
    calls == [] || (CallsOk(calls[..|calls| - 1]) && CallOk(MemoryAfter(calls[..|calls| - 1]), calls[|calls| - 1]))
  }

  lemma CallRebuilds(disk: seq<WalRecord>, log: Log, call: LogCall)
    requires Recover(disk).entries == log && WellIndexed(log) && CallOk(log, call)
    ensures Recover(disk + Written(call)).entries == AfterCall(log, call) && WellIndexed(AfterCall(log, call))
  {
    match call
    case AppendOne(e) => AppendedEntryRecovered(disk, log, e);
    case AppendBatch(prev, batch) =>
      AgreesIffBatchEndsAtLast(disk, log, prev, batch);
      SpliceWellIndexed(log, prev, batch);
  }

  /** Over any sequence of calls whose batches end at the last index, recovery rebuilds the in-memory log. */
  lemma {:induction false} RecoveryRebuildsMemory(calls: seq<LogCall>)
    requires CallsOk(calls)
    ensures Recover(DiskAfter(calls)).entries == MemoryAfter(calls)
    ensures WellIndexed(MemoryAfter(calls))
  {
    if calls != [] {
      var front, call := calls[..|calls| - 1], calls[|calls| - 1];
      RecoveryRebuildsMemory(front);
      CallRebuilds(DiskAfter(front), MemoryAfter(front), call);
    }
  }

  lemma AppendedEntryRecovered(records: seq<WalRecord>, log: Log, e: Entry)
    requires Recover(records).entries == log && WellIndexed(log) && e.index == |log| + 1
    ensures Recover(records + [LogRec(e)]).entries == log + [e]
  {
  }

  /** A batch that stops short of the log's end makes recovery drop entries the log still holds. */
  lemma ShortBatchLosesEntries(records: seq<WalRecord>, log: Log, prev: nat, batch: seq<Entry>)
    requires Recover(records).entries == log && WellIndexed(log)
    requires batch != [] && prev + |batch| < |log| && batch == log[prev..prev + |batch|]
    ensures Splice(log, prev, batch) == log
    ensures Recover(records + LogRecs(batch)).entries == log[..prev + |batch|]
  {
    SpliceOwn(log, prev, |batch|);
    assert log[..prev] + batch == log[..prev + |batch|];
    DiskAfterBatch(records, log, prev, batch);
  }

  // ----- a crash between two writes of one batch -----

  /** What recovery gives after the first `m` writes of a batch: the log up to the batch, then what was written of it. */
  lemma DiskDuringBatch(records: seq<WalRecord>, log: Log, prev: nat, batch: seq<Entry>, m: nat)
    requires Recover(records).entries == log && WellIndexed(log) && prev <= |log| && Numbered(prev, batch) && m <= |batch|
    ensures Recover(records + LogRecs(batch[..m])).entries == if m == 0 then log else log[..prev] + batch[..m]
  {
    if m == 0 {
      assert records + LogRecs(batch[..m]) == records;
    } else {
      DiskAfterBatch(records, log, prev, batch[..m]);
    }
  }

  /** Such a crash keeps the first `n` entries, which the batch only repeats, if and only if nothing or enough was written. */
  lemma CrashDuringBatchKeepsIff(records: seq<WalRecord>, log: Log, prev: nat, batch: seq<Entry>, m: nat, n: nat)
    requires Recover(records).entries == log && WellIndexed(log) && prev <= |log| && Numbered(prev, batch) && m <= |batch|
    requires n <= |log| && forall i :: prev <= i < n && i < prev + |batch| ==> batch[i - prev] == log[i]
    ensures Agree(log, Recover(records + LogRecs(batch[..m])).entries, n) <==> m == 0 || prev + m >= n
  {
    DiskDuringBatch(records, log, prev, batch, m);
    PartKeepsIff(log, prev, batch, m, n, Recover(records + LogRecs(batch[..m])).entries);
  }

  lemma PartKeepsIff(log: Log, prev: nat, batch: seq<Entry>, m: nat, n: nat, out: Log)
    requires prev <= |log| && m <= |batch| && out == if m == 0 then log else log[..prev] + batch[..m]
    requires n <= |log| && forall i :: prev <= i < n && i < prev + |batch| ==> batch[i - prev] == log[i]
    ensures Agree(log, out, n) <==> m == 0 || prev + m >= n
  {
    if m > 0 && prev + m >= n {
      assert forall i :: 0 <= i < n ==> out[i] == log[i];
    }
  }
}
