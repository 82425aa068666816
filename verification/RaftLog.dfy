/** The in-memory log with its sentinel and index map, and the stream of records it writes. */
module RaftLogs {
  import opened Types
  import opened Logs
  import opened WalRecords

  const TWO_64: nat := 0x1_0000_0000_0000_0000

  function Sentinel(index: nat, term: nat): Entry
  {
    Entry(term, index, NoOp, "", "", -1)
  }

  /** The offset into the entries of an absolute index, as unsigned 64-bit subtraction gives it. */
  function OffsetOf(snapshotIndex: nat, index: nat): nat
    requires snapshotIndex < TWO_64
  {
    if index >= snapshotIndex then index - snapshotIndex else TWO_64 + index - snapshotIndex
  }

  /** The entries start with the sentinel and are numbered consecutively from it. */
  ghost predicate Indexed(entries: seq<Entry>, snapshotIndex: nat)
  {
    && |entries| >= 1 && snapshotIndex + |entries| <= TWO_64
    && forall k :: 0 <= k < |entries| ==> entries[k].index == snapshotIndex + k
  }

  /** One round of the loop in AppendAll. */
  function MergeOne(entries: seq<Entry>, snapshotIndex: nat, e: Entry): seq<Entry>
    requires snapshotIndex < TWO_64
  {
    var off := OffsetOf(snapshotIndex, e.index);
    if off < |entries| then
      if entries[off].term != e.term then entries[..off] + [e] else entries
    else entries + [e]
  }

  function MergeAll(entries: seq<Entry>, snapshotIndex: nat, batch: seq<Entry>): seq<Entry>
    requires snapshotIndex < TWO_64
    decreases |batch|
  {
    if batch == [] then entries else MergeAll(MergeOne(entries, snapshotIndex, batch[0]), snapshotIndex, batch[1..])
  }

  lemma {:induction false} MergeAllSnoc(entries: seq<Entry>, snapshotIndex: nat, batch: seq<Entry>, e: Entry)
    requires snapshotIndex < TWO_64
    ensures MergeAll(entries, snapshotIndex, batch + [e]) == MergeOne(MergeAll(entries, snapshotIndex, batch), snapshotIndex, e)
    decreases |batch|
  {
    if batch == [] {
      assert [] + [e] == [e] && [e][1..] == [];
    } else {
      assert (batch + [e])[1..] == batch[1..] + [e];
      MergeAllSnoc(MergeOne(entries, snapshotIndex, batch[0]), snapshotIndex, batch[1..], e);
    }
  }

  /** A batch numbered from the end of the log is appended whole. */
  lemma {:induction false} MergeAtEnd(entries: seq<Entry>, snapshotIndex: nat, batch: seq<Entry>)
    requires snapshotIndex < TWO_64 && |entries| >= 1
    requires Numbered(snapshotIndex + |entries| - 1, batch)
    ensures MergeAll(entries, snapshotIndex, batch) == entries + batch
    decreases |batch|
  {
    if batch != [] {
      assert batch[0].index == snapshotIndex + |entries|;
      MergeAtEnd(entries + [batch[0]], snapshotIndex, batch[1..]);
      assert entries + [batch[0]] + batch[1..] == entries + batch;
    }
  }

  /** The loop of AppendAll is the splice: cut at the first term conflict, then append the rest. */
  lemma {:induction false} MergeIsSplice(entries: seq<Entry>, snapshotIndex: nat, prev: nat, batch: seq<Entry>)
    requires snapshotIndex < TWO_64 && 1 <= |entries| && prev < |entries|
    requires Numbered(snapshotIndex + prev, batch)
    ensures MergeAll(entries, snapshotIndex, batch) == [entries[0]] + Splice(entries[1..], prev, batch)
    decreases |batch|
  {
    var log := entries[1..];
    assert entries == [entries[0]] + log;
    if batch != [] {
      var e := batch[0];
      assert e.index == snapshotIndex + prev + 1;
      if prev < |log| && log[prev].term == e.term {
        assert MergeOne(entries, snapshotIndex, e) == entries;
        MergeIsSplice(entries, snapshotIndex, prev + 1, batch[1..]);
      } else {
        var cut := entries[..prev + 1] + [e];
        assert entries[..prev + 1] == [entries[0]] + log[..prev];
        assert MergeOne(entries, snapshotIndex, e) == cut;
        MergeAtEnd(cut, snapshotIndex, batch[1..]);
        assert cut + batch[1..] == [entries[0]] + (log[..prev] + batch);
      }
    }
  }

  /** The entries after compaction to `index`. */
  function Compacted(entries: seq<Entry>, snapshotIndex: nat, index: nat, term: nat): seq<Entry>
    requires snapshotIndex < TWO_64
  {
    var off := OffsetOf(snapshotIndex, index);
    [Sentinel(index, term)] + (if off < |entries| then entries[off..] else [])
  }

  /**
   Compaction keeps the index map right exactly when the log does not hold the snapshot index: otherwise
   the entry at that index stays behind the new sentinel and every later entry is found one too early.
   */
  lemma CompactionKeepsIndexIff(entries: seq<Entry>, snapshotIndex: nat, index: nat, term: nat)
    requires Indexed(entries, snapshotIndex) && index < TWO_64
    ensures Indexed(Compacted(entries, snapshotIndex, index, term), index) <==> OffsetOf(snapshotIndex, index) >= |entries|
    ensures OffsetOf(snapshotIndex, index) < |entries| ==>
              forall k :: OffsetOf(snapshotIndex, index) <= k < |entries| ==>
                Compacted(entries, snapshotIndex, index, term)[k - OffsetOf(snapshotIndex, index) + 1] == entries[k]
  {
    var off := OffsetOf(snapshotIndex, index);
    var after := Compacted(entries, snapshotIndex, index, term);
    if off < |entries| {
      assert after[1] == entries[off] && entries[off].index == index;
    }
  }

  /** The records written to the write-ahead log, in order. */
  class RecordStream {
    var records: seq<WalRecord>

    constructor ()
      ensures records == []
    {
      records := [];
    }

    method Write(rec: WalRecord)
      modifies this
      ensures records == old(records) + [rec]
    {
      records := records + [rec];
    }
  }

  class RaftLog {
    var entries: seq<Entry>
    var snapshotIndex: nat
    var snapshotTerm: nat
    const wal: RecordStream

    ghost predicate Valid()
      reads this
    {
      Indexed(entries, snapshotIndex) && entries[0].term == snapshotTerm
    }

    /** The log without its sentinel. */
    ghost function Contents(): Log
      reads this
      requires Valid()
    {
      entries[1..]
    }

    constructor (wal: RecordStream)
      ensures this.wal == wal && Valid() && Contents() == [] && snapshotIndex == 0 && snapshotTerm == 0
    {
      this.wal := wal;
      snapshotIndex, snapshotTerm := 0, 0;
      entries := [Sentinel(0, 0)];
    }

    function LastIndex(): (i: nat)
      reads this
      requires Valid()
      ensures i == snapshotIndex + |Contents()|
    {
      entries[|entries| - 1].index
    }

    function LastTermHeld(): (t: nat)
      reads this
      requires Valid()
      ensures t == if Contents() == [] then snapshotTerm else LastTerm(Contents())
    {
      entries[|entries| - 1].term
    }

    /** 0 for an index the log does not hold. */
    function GetTerm(index: nat): (t: nat)
      reads this
      requires Valid() && index < TWO_64
      ensures snapshotIndex < index <= LastIndex() ==> t == Contents()[index - snapshotIndex - 1].term
      ensures index == snapshotIndex ==> t == snapshotTerm
      ensures index < snapshotIndex || index > LastIndex() ==> t == 0
    {
      if index == snapshotIndex then snapshotTerm
      else
        var off := OffsetOf(snapshotIndex, index);
        if off >= |entries| then 0 else entries[off].term
    }

    /** None where the original throws. */
    function GetEntry(index: nat): (e: Option<Entry>)
      reads this
      requires Valid() && index < TWO_64
      ensures snapshotIndex < index <= LastIndex() ==> e == Some(Contents()[index - snapshotIndex - 1])
      ensures index == snapshotIndex ==> e == Some(entries[0])
      ensures index < snapshotIndex || index > LastIndex() ==> e == None
    {
      var off := OffsetOf(snapshotIndex, index);
      if off >= |entries| then None else Some(entries[off])
    }

    /** Appends whatever it is given; only an entry with the next index keeps the index map. */
    method Append(e: Entry)
      requires Valid()
      modifies this`entries, wal
      ensures entries == old(entries) + [e]
      ensures e.index == old(LastIndex()) + 1 && e.index < TWO_64 ==> Valid() && Contents() == old(Contents()) + [e]
      ensures wal.records == old(wal.records) + [LogRec(e)]
    {
      entries := entries + [e];
      wal.Write(LogRec(e));
    }

    /** Every entry of the batch is written to the WAL, held or not. */
    method AppendAll(batch: seq<Entry>)
      requires snapshotIndex < TWO_64
      modifies this`entries, wal
      ensures entries == MergeAll(old(entries), snapshotIndex, batch)
      ensures wal.records == old(wal.records) + LogRecs(batch)
    {
      if batch == [] {
        assert wal.records == old(wal.records) + LogRecs(batch);
        return;
      }
      var i := 0;
      while i < |batch|
        invariant 0 <= i <= |batch|
        invariant entries == MergeAll(old(entries), snapshotIndex, batch[..i])
        invariant wal.records == old(wal.records) + LogRecs(batch[..i])
      {
        var ne := batch[i];
        assert batch[..i + 1] == batch[..i] + [ne];
        MergeAllSnoc(old(entries), snapshotIndex, batch[..i], ne);
        var off := OffsetOf(snapshotIndex, ne.index);
        if off < |entries| {
          if entries[off].term != ne.term {
            entries := entries[..off];
            entries := entries + [ne];
          }
        } else {
          entries := entries + [ne];
        }
        wal.Write(LogRec(ne));
        assert LogRecs(batch[..i + 1]) == LogRecs(batch[..i]) + [LogRec(ne)];
        i := i + 1;
      }
      assert batch[..i] == batch;
    }

    method SetSnapshot(index: nat, term: nat)
      requires Valid() && index < TWO_64
      modifies this
      ensures entries == Compacted(old(entries), old(snapshotIndex), index, term)
      ensures snapshotIndex == index && snapshotTerm == term
      ensures Valid() <==> OffsetOf(old(snapshotIndex), index) >= old(|entries|)
    {
      CompactionKeepsIndexIff(entries, snapshotIndex, index, term);
      var off := OffsetOf(snapshotIndex, index);
      if off < |entries| {
        entries := entries[off..];
      } else {
        entries := [];
      }
      entries := [Sentinel(index, term)] + entries;
      snapshotIndex, snapshotTerm := index, term;
    }
  }
}
