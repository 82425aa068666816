/** The node's record list and the write-ahead log on disk are the same thing. */
module NodeOnDisk {
  import opened Types
  import opened WalRecords
  import opened NodeSpec
  import opened WriteAheadLogs

  lemma LogRecsNext(recs: seq<WalRecord>, es: seq<Entry>, i: nat)
    requires i < |es|
    ensures (recs + LogRecs(es[..i])) + [LogRec(es[i])] == recs + LogRecs(es[..i + 1])
  {
  }

  /** The constructor's loop over the recovered entries. */
  method AppendAgain(wal: WriteAheadLog, es: seq<Entry>, ghost recs: seq<WalRecord>)
    requires wal.Valid() && wal.Faithful() && Joined(wal.groups) == recs
    modifies wal`segments, wal`currentOffset, wal`groups, wal.crc`ready, wal.crc.table
    ensures wal.Valid() && wal.Faithful() && Joined(wal.groups) == recs + LogRecs(es)
  {
    assert recs + LogRecs(es[..0]) == recs;
    for i := 0 to |es|
      invariant wal.Valid() && wal.Faithful()
      invariant Joined(wal.groups) == recs + LogRecs(es[..i])
    {
      LogRecsNext(recs, es, i);
      wal.AppendLogEntry(es[i]);
    }
    assert es[..|es|] == es;
  }

  /**
   Restarting a node from its disk: recovery reads what the node had written, and appending every
   recovered entry again leaves on disk the records of the restarted node.
   */
  method Reboot(wal: WriteAheadLog, ghost n: Node) returns (r: Recovery)
    requires wal.Valid() && wal.Faithful() && Lossless(wal.codec) && Joined(wal.groups) == n.wal
    modifies wal`segments, wal`currentOffset, wal`groups, wal.crc`ready, wal.crc.table
    ensures wal.Valid() && wal.Faithful() && Joined(wal.groups) == Restart(n).wal
    ensures var n' := Restart(n);
            n'.currentTerm == r.term && n'.votedFor == r.votedFor && n'.log == r.entries && n'.commitIndex == r.snapshotIndex
  {
    r := wal.RecoverAll();
    AppendAgain(wal, r.entries, n.wal);
  }
}
