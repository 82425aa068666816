/**
 Replicated logs as values.

 A log is the sequence of its entries without the sentinel, so that the entry at
 index `i` (indices are 1-based) sits at position `i - 1` and index 0 stands for the
 sentinel, whose term is 0.
 */
module Logs {
  import opened Types

  type Log = seq<Entry>

  function TermAt(log: Log, i: nat): nat
  {
    if 1 <= i <= |log| then log[i - 1].term else 0
  }

  function LastTerm(log: Log): nat
  {
    TermAt(log, |log|)
  }

  /** `a` and `b` both reach index `n` and hold the same entries up to it. */
  predicate Agree(a: Log, b: Log, n: nat)
  {
    n <= |a| && n <= |b| && a[..n] == b[..n]
  }

  /** Every entry carries its own position. */
  ghost predicate WellIndexed(log: Log)
  {
    forall k :: 0 <= k < |log| ==> log[k].index == k + 1
  }

  ghost predicate Ascending(log: Log)
  {
    forall j, k :: 0 <= j <= k < |log| ==> log[j].term <= log[k].term
  }

  lemma AgreeShorter(a: Log, b: Log, n: nat, m: nat)
    requires Agree(a, b, n) && m <= n
    ensures Agree(a, b, m)
  {
  }

  lemma AgreeAt(a: Log, b: Log, n: nat, k: nat)
    requires Agree(a, b, n) && k < n
    ensures a[k] == b[k]
  {
  }

  /** The rule `AppendAll` must implement: keep what matches, cut at the first term conflict, append the rest. */
  function Splice(log: Log, prev: nat, batch: seq<Entry>): Log
    requires prev <= |log|
    decreases |batch|
  {
    if batch == [] then log
    else if prev < |log| && log[prev].term == batch[0].term then Splice(log, prev + 1, batch[1..])
    else log[..prev] + batch
  }

  /** How many leading entries of `batch` the log already holds (by term) from `prev` on. */
  function Held(log: Log, prev: nat, batch: seq<Entry>): (h: nat)
    requires prev <= |log|
    ensures h <= |batch| && prev + h <= |log|
    ensures forall k :: 0 <= k < h ==> log[prev + k].term == batch[k].term
    ensures h < |batch| && prev + h < |log| ==> log[prev + h].term != batch[h].term
    decreases |batch|
  {
    if batch != [] && prev < |log| && log[prev].term == batch[0].term
    then
      var h := Held(log, prev + 1, batch[1..]);
      assert forall k :: 1 <= k < h + 1 ==> batch[k] == batch[1..][k - 1] && log[prev + k] == log[(prev + 1) + (k - 1)];
      h + 1
    else 0
  }

  /** Either every entry of the batch was held and nothing changes, or the log is cut right after the held part. */
  lemma {:induction false} SpliceCutsAtFirstConflict(log: Log, prev: nat, batch: seq<Entry>)
    requires prev <= |log|
    ensures var h := Held(log, prev, batch);
            Splice(log, prev, batch) == if h == |batch| then log else log[..prev + h] + batch[h..]
    decreases |batch|
  {
    if batch != [] && prev < |log| && log[prev].term == batch[0].term {
      SpliceCutsAtFirstConflict(log, prev + 1, batch[1..]);
      var h := Held(log, prev + 1, batch[1..]);
      assert batch[1..][h..] == batch[h + 1..];
      assert log[..(prev + 1) + h] == log[..prev + (h + 1)];
    } else {
      assert batch[0..] == batch;
    }
  }

  /** A second delivery of the same batch changes nothing. */
  lemma {:induction false} SpliceIdempotent(log: Log, prev: nat, batch: seq<Entry>)
    requires prev <= |log|
    ensures prev <= |Splice(log, prev, batch)|
    ensures Splice(Splice(log, prev, batch), prev, batch) == Splice(log, prev, batch)
  {
    var out := Splice(log, prev, batch);
    var h := Held(log, prev, batch);
    SpliceCutsAtFirstConflict(log, prev, batch);
    if h < |batch| {
      forall k | 0 <= k < |batch| ensures out[prev + k].term == batch[k].term {
        if k >= h {
          assert out[prev + k] == batch[h..][k - h];
        }
      }
      SpliceCutsAtFirstConflict(out, prev, batch);
    }
  }

  lemma SplicedPieces(log: Log, source: Log, prev: nat, count: nat, h: nat, out: Log)
    requires Agree(log, source, prev + h) && h <= count && prev + count <= |source|
    requires out == if h == count then log else log[..prev + h] + source[prev..prev + count][h..]
    ensures Agree(out, source, prev + count) && (out == log || out == source[..prev + count])
  {
  }

  lemma HeldAgrees(log: Log, source: Log, prev: nat, count: nat)
    requires Agree(log, source, prev) && prev + count <= |source|
    requires forall i :: prev <= i < |log| && i < |source| && log[i].term == source[i].term ==> log[i] == source[i]
    ensures Agree(log, source, prev + Held(log, prev, source[prev..prev + count]))
  {
  }

  /** Splicing a stretch of `source` into a log that agrees with it up to `prev` and matches it by term. */
  lemma SpliceOfMatching(log: Log, source: Log, prev: nat, count: nat)
    requires Agree(log, source, prev) && prev + count <= |source|
    requires forall i :: prev <= i < |log| && i < |source| && log[i].term == source[i].term ==> log[i] == source[i]
    ensures var batch := source[prev..prev + count];
            var out := Splice(log, prev, batch);
            && Agree(out, source, prev + count)
            && (out == log || out == source[..prev + count])
  {
    var batch := source[prev..prev + count];
    var h := Held(log, prev, batch);
    var out := Splice(log, prev, batch);
    SpliceCutsAtFirstConflict(log, prev, batch);
    HeldAgrees(log, source, prev, count);
    SplicedPieces(log, source, prev, count, h, out);
  }

  /** Entries the log already holds leave it unchanged. */
  lemma SpliceOwn(log: Log, prev: nat, count: nat)
    requires prev + count <= |log|
    ensures Splice(log, prev, log[prev..prev + count]) == log
  {
    var batch := log[prev..prev + count];
    SpliceCutsAtFirstConflict(log, prev, batch);
    assert forall k :: 0 <= k < count ==> log[prev + k] == batch[k];
  }

  /** A batch the log agrees with in full leaves it unchanged. */
  lemma SpliceAgreed(log: Log, source: Log, prev: nat, count: nat)
    requires Agree(log, source, prev + count)
    ensures Splice(log, prev, source[prev..prev + count]) == log
  {
    assert source[prev..prev + count] == source[..prev + count][prev..];
    assert log[prev..prev + count] == log[..prev + count][prev..];
    SpliceOwn(log, prev, count);
  }

  /** Splicing never cuts into a prefix on which the log and the source agree. */
  lemma SpliceKeepsAgreed(log: Log, source: Log, prev: nat, count: nat, c: nat)
    requires Agree(log, source, prev) && prev + count <= |source|
    requires forall i :: prev <= i < |log| && i < |source| && log[i].term == source[i].term ==> log[i] == source[i]
    requires Agree(log, source, c)
    ensures Agree(Splice(log, prev, source[prev..prev + count]), source, c)
  {
    SpliceOfMatching(log, source, prev, count);
    if prev + count <= c {
      AgreeShorter(log, source, c, prev + count);
      SpliceAgreed(log, source, prev, count);
    } else {
      AgreeShorter(Splice(log, prev, source[prev..prev + count]), source, prev + count, c);
    }
  }
}
