/**
 The node as an object: fields updated in place, one method for each section of code that runs under
 the lock, each proved to do to the node what the function of the same step does to its value.
 */
module RaftNodes {
  import opened Types
  import opened Logs
  import opened WalRecords
  import opened Backtracking
  import opened RaftLogs
  import Spec = NodeSpec

  /** `n` entries after the first `from`, as far as the log goes. */
  ghost function Window(log: Log, from: nat, n: nat): Log
  {
    if from + n <= |log| then log[from..from + n] else []
  }

  lemma WindowGrows(log: Log, from: nat, n: nat)
    requires from + n < |log|
    ensures Window(log, from, n + 1) == Window(log, from, n) + [log[from + n]]
  {
  }

  lemma WindowIsBatch(log: Log, from: nat, n: nat)
    requires n == Spec.MAX_BATCH || from + n >= |log|
    requires n <= Spec.MAX_BATCH && from + n <= Max(from, |log|)
    ensures Window(log, from, n) == Spec.Batch(log, from)
  {
  }

  class RaftNode {
    const id: NodeId
    const peers: set<NodeId>
    const log: RaftLog
    const wal: RecordStream

    var currentTerm: nat
    var votedFor: Option<NodeId>
    var role: Role
    var commitIndex: nat
    var lastApplied: nat
    var applied: seq<Entry>
    var votes: set<NodeId>
    var nextIndex: map<NodeId, nat>
    var matchIndex: map<NodeId, nat>

    /** The log has not been compacted, and indices still fit in 64 bits. */
    ghost predicate Valid()
      reads this, log
    {
      && log.Valid() && log.snapshotIndex == 0 && log.snapshotTerm == 0 && log.wal == wal
      && (forall p :: p in nextIndex ==> 1 <= nextIndex[p] < TWO_64)
      && lastApplied < TWO_64
    }

    ghost function View(): Spec.Node
      reads this, log, wal
      requires Valid()
    {
      Spec.Node(currentTerm, votedFor, role, log.Contents(), commitIndex, lastApplied, applied, votes, nextIndex, matchIndex,
                wal.records)
    }

    /** A new process over an existing write-ahead log: every recovered entry is appended, and so logged, again. */
    constructor (id: NodeId, peers: set<NodeId>, wal: RecordStream)
      requires Recover(wal.records).snapshot == None && Recover(wal.records).snapshotIndex == 0
      requires WellIndexed(Recover(wal.records).entries) && |Recover(wal.records).entries| + 1 < TWO_64
      modifies wal
      ensures Valid() && this.id == id && this.peers == peers && this.wal == wal && fresh(log)
      ensures View() == Spec.Restart(Spec.FRESH.(wal := old(wal.records)))
    {
      this.id, this.peers, this.wal := id, peers, wal;
      log := new RaftLog(wal);
      var recovery := Recover(wal.records);
      currentTerm, votedFor, role := recovery.term, recovery.votedFor, Follower;
      commitIndex, lastApplied, applied := 0, 0, [];
      votes, nextIndex, matchIndex := {}, map[], map[];
      new;
      AppendRecovered(recovery.entries);
    }

    method AppendRecovered(es: seq<Entry>)
      requires Valid() && log.Contents() == [] && WellIndexed(es) && |es| + 1 < TWO_64
      modifies log`entries, wal
      ensures Valid() && log.Contents() == es && wal.records == old(wal.records) + LogRecs(es)
    {
      var i := 0;
      while i < |es|
        invariant 0 <= i <= |es|
        invariant Valid() && log.Contents() == es[..i]
        invariant wal.records == old(wal.records) + LogRecs(es[..i])
      {
        assert es[..i + 1] == es[..i] + [es[i]];
        assert LogRecs(es[..i + 1]) == LogRecs(es[..i]) + [LogRec(es[i])];
        log.Append(es[i]);
        i := i + 1;
      }
      assert es[..i] == es;
    }

    /** The least number of nodes that is more than half of the cluster. */
    function QuorumSize(): (q: nat)
      ensures 2 * q > |peers| + 1 && 2 * (q - 1) <= |peers| + 1
    {
      (|peers| + 1) / 2 + 1
    }

    lemma TermIsTermAt(i: nat)
      requires Valid() && i < TWO_64
      ensures log.GetTerm(i) == TermAt(log.Contents(), i)
    {
    }

    method PersistHardState()
      requires Valid()
      modifies wal
      ensures wal.records == old(wal.records) + [HardRec(currentTerm, votedFor)]
    {
      wal.Write(HardRec(currentTerm, votedFor));
    }

    // ----- elections -----

    method BecomeFollower(term: nat)
      requires Valid()
      modifies this`currentTerm, this`role, this`votedFor, wal
      ensures Valid() && View() == Spec.BecomeFollower(old(View()), term)
    {
      currentTerm := term;
      role := Follower;
      votedFor := None;
      PersistHardState();
    }

    method StartElection() returns (req: Spec.VoteRequest)
      requires Valid()
      modifies this`currentTerm, this`role, this`votedFor, this`votes, wal
      ensures Valid() && View() == Spec.StartElection(old(View()), id)
      ensures req == Spec.MakeVoteRequest(View(), id)
    {
      currentTerm := currentTerm + 1;
      votedFor := Some(id);
      role := Candidate;
      PersistHardState();
      votes := {id};
      req := Spec.VoteRequest(currentTerm, id, log.LastIndex(), log.LastTermHeld());
    }

    predicate IsLogUpToDate(lastIndex: nat, lastTerm: nat)
      reads this, log
      requires Valid()
      ensures IsLogUpToDate(lastIndex, lastTerm) == Spec.UpToDate(log.Contents(), lastIndex, lastTerm)
    {
      if lastTerm != log.LastTermHeld() then lastTerm > log.LastTermHeld() else lastIndex >= log.LastIndex()
    }

    method HandleRequestVote(req: Spec.VoteRequest) returns (resp: Spec.VoteReply)
      requires Valid()
      modifies this`currentTerm, this`role, this`votedFor, wal
      ensures Valid() && (View(), resp) == Spec.HandleVote(old(View()), req)
    {
      var term := currentTerm;
      if req.term < currentTerm {
        return Spec.VoteReply(term, false);
      }
      if req.term > currentTerm {
        BecomeFollower(req.term);
      }
      var alreadyVoted := votedFor != None && votedFor != Some(req.candidate);
      if !alreadyVoted && IsLogUpToDate(req.lastIndex, req.lastTerm) {
        votedFor := Some(req.candidate);
        PersistHardState();
        resp := Spec.VoteReply(term, true);
      } else {
        resp := Spec.VoteReply(term, false);
      }
    }

    method CountVote(voter: NodeId, electionTerm: nat, resp: Spec.VoteReply)
      requires Valid()
      modifies this`currentTerm, this`role, this`votedFor, this`votes, wal
      ensures Valid() && View() == Spec.CountVote(old(View()), voter, electionTerm, resp)
    {
      if resp.term > currentTerm {
        BecomeFollower(resp.term);
        return;
      }
      if resp.granted && currentTerm == electionTerm && role == Candidate {
        votes := votes + {voter};
      }
    }

    /** The end of an election: become leader if enough votes came in and nothing has changed meanwhile. */
    method ConcludeElection()
      requires Valid() && log.LastIndex() + 2 < TWO_64
      modifies this`role, this`nextIndex, this`matchIndex, log`entries, wal
      ensures Valid()
      ensures View() == if Spec.HasWon(old(View()), peers) then Spec.BecomeLeader(old(View()), peers) else old(View())
    {
      if role == Candidate && |votes| >= QuorumSize() {
        BecomeLeader();
      }
    }

    method BecomeLeader()
      requires Valid() && log.LastIndex() + 2 < TWO_64
      modifies this`role, this`nextIndex, this`matchIndex, log`entries, wal
      ensures Valid() && View() == Spec.BecomeLeader(old(View()), peers)
    {
      role := Leader;
      var lastIndex := log.LastIndex();
      ResetTables(lastIndex);
      AppendOwn(Spec.NoOpEntry(currentTerm, lastIndex + 1));
    }

    method AppendOwn(e: Entry)
      requires Valid() && e.index == log.LastIndex() + 1 < TWO_64
      modifies log`entries, wal
      ensures Valid() && View() == old(View()).(log := old(View()).log + [e], wal := old(View()).wal + [LogRec(e)])
    {
      log.Append(e);
    }

    /** `m'` is `m` with every key of `done` set to `v`. */
    static ghost predicate SetAll(m: map<NodeId, nat>, m': map<NodeId, nat>, done: set<NodeId>, v: nat)
    {
      && m'.Keys == m.Keys + done
      && forall p :: p in m' ==> m'[p] == if p in done then v else m[p]
    }

    static lemma SetAllIsReset(m: map<NodeId, nat>, m': map<NodeId, nat>, done: set<NodeId>, v: nat)
      requires SetAll(m, m', done, v)
      ensures m' == Spec.ResetTo(m, done, v)
    {
    }

    method ResetTables(lastIndex: nat)
      modifies this`nextIndex, this`matchIndex
      ensures nextIndex == Spec.ResetTo(old(nextIndex), peers, lastIndex + 1)
      ensures matchIndex == Spec.ResetTo(old(matchIndex), peers, 0)
      ensures forall p :: p in nextIndex ==> nextIndex[p] == lastIndex + 1 || (p in old(nextIndex) && nextIndex[p] == old(nextIndex)[p])
    {
      ResetPeers(lastIndex);
      SetAllIsReset(old(nextIndex), nextIndex, peers, lastIndex + 1);
      SetAllIsReset(old(matchIndex), matchIndex, peers, 0);
    }

    method ResetPeers(lastIndex: nat)
      modifies this`nextIndex, this`matchIndex
      ensures SetAll(old(nextIndex), nextIndex, peers, lastIndex + 1)
      ensures SetAll(old(matchIndex), matchIndex, peers, 0)
    {
      var todo := peers;
      while todo != {}
        invariant todo <= peers
        invariant SetAll(old(nextIndex), nextIndex, peers - todo, lastIndex + 1)
        invariant SetAll(old(matchIndex), matchIndex, peers - todo, 0)
        decreases |todo|
      {
        var p :| p in todo;
        nextIndex := nextIndex[p := lastIndex + 1];
        matchIndex := matchIndex[p := 0];
        todo := todo - {p};
      }
      assert peers - todo == peers;
    }

    // ----- replication -----

    method Propose(op: OpType, key: string, value: string, ttlMs: int) returns (index: Option<nat>)
      requires Valid() && log.LastIndex() + 1 < TWO_64
      modifies log`entries, wal
      ensures Valid() && View() == Spec.Propose(old(View()), op, key, value, ttlMs)
      ensures index == if old(role) != Leader then None else Some(|old(View()).log| + 1)
    {
      if role != Leader {
        return None;
      }
      var i := log.LastIndex() + 1;
      AppendOwn(Entry(currentTerm, i, op, key, value, ttlMs));
      return Some(i);
    }

    /** What a leader reads under the lock before it sends to `peer`; None if it does not lead. */
    method PrepareAppend(peer: NodeId) returns (req: Option<Spec.AppendRequest>)
      requires Valid() && log.LastIndex() + 1 < TWO_64
      ensures role != Leader ==> req == None
      ensures Spec.NextFor(View(), peer) >= 1
      ensures role == Leader ==> req == Some(Spec.MakeAppend(View(), id, peer))
    {
      if role != Leader {
        return None;
      }
      var next := if peer in nextIndex then nextIndex[peer] else log.LastIndex() + 1;
      var prev := next - 1;
      TermIsTermAt(prev);
      var prevTerm := log.GetTerm(prev);
      var batch := CollectBatch(next);
      req := Some(Spec.AppendRequest(currentTerm, id, prev, prevTerm, batch, commitIndex));
    }

    /** The look-up of a held index cannot fail. */
    method HeldEntry(i: nat) returns (e: Entry)
      requires Valid() && 1 <= i <= log.LastIndex() < TWO_64
      ensures e == log.Contents()[i - 1]
    {
      var found := log.GetEntry(i);
      e := found.value;
    }

    /** Up to `MAX_BATCH` entries from index `next` on. */
    method CollectBatch(next: nat) returns (batch: seq<Entry>)
      requires Valid() && 1 <= next && log.LastIndex() + 1 < TWO_64
      ensures batch == Spec.Batch(log.Contents(), next - 1)
    {
      batch := [];
      var lastIndex := log.LastIndex();
      ghost var held := log.Contents();
      var i: nat := next;
      while i <= lastIndex && i < next + Spec.MAX_BATCH
        invariant next <= i <= next + Spec.MAX_BATCH && i <= Max(next, lastIndex + 1)
        invariant batch == Window(held, next - 1, i - next)
      {
        var e := HeldEntry(i);
        WindowGrows(held, next - 1, i - next);
        batch := batch + [e];
        i := i + 1;
      }
      WindowIsBatch(held, next - 1, i - next);
    }

    /** The follower's walk back to the first index of the conflicting term. */
    method FirstOfRun(i: nat, t: nat) returns (ci: nat)
      requires Valid() && 1 <= i <= log.LastIndex()
      ensures ci == RunStart(log.Contents(), i, t)
    {
      ci := i;
      while ci > log.snapshotIndex && log.GetTerm(ci - 1) == t
        invariant ci <= i
        invariant RunStart(log.Contents(), ci, t) == RunStart(log.Contents(), i, t)
        decreases ci
      {
        TermIsTermAt(ci - 1);
        ci := ci - 1;
      }
      if ci > 0 { TermIsTermAt(ci - 1); }
    }

    // The sender numbers its entries from `prevIndex + 1`.
    method HandleAppendEntries(req: Spec.AppendRequest) returns (resp: Spec.AppendReply)
      requires Valid() && req.prevIndex + |req.entries| + 1 < TWO_64 && Numbered(req.prevIndex, req.entries)
      modifies this`currentTerm, this`role, this`votedFor, this`commitIndex, log`entries, wal
      ensures Valid() && (View(), resp) == Spec.HandleAppend(old(View()), req)
    {
      var term := currentTerm;
      if req.term < currentTerm {
        return Spec.AppendReply(term, false, 0, 0);
      }
      if req.term > currentTerm {
        BecomeFollower(req.term);
      }
      if req.prevIndex > 0 {
        if req.prevIndex > log.LastIndex() {
          return Spec.AppendReply(term, false, log.LastIndex() + 1, 0);
        }
        var prevTerm := log.GetTerm(req.prevIndex);
        TermIsTermAt(req.prevIndex);
        if prevTerm != req.prevTerm {
          var ci := FirstOfRun(req.prevIndex, prevTerm);
          return Spec.AppendReply(term, false, ci, prevTerm);
        }
      }
      AppendBatch(req.prevIndex, req.entries);
      if req.leaderCommit > commitIndex {
        commitIndex := Min(req.leaderCommit, log.LastIndex());
      }
      resp := Spec.AppendReply(term, true, 0, 0);
    }

    method AppendBatch(prev: nat, batch: seq<Entry>)
      requires Valid() && prev <= log.LastIndex() && prev + |batch| + 1 < TWO_64 && Numbered(prev, batch)
      modifies log`entries, wal
      ensures Valid() && log.Contents() == Splice(old(log.Contents()), prev, batch)
      ensures wal.records == old(wal.records) + LogRecs(batch)
    {
      ghost var before := log.entries;
      MergeIsSplice(before, 0, prev, batch);
      SpliceWellIndexed(before[1..], prev, batch);
      SpliceLength(before[1..], prev, batch);
      if batch != [] {
        log.AppendAll(batch);
      } else {
        assert wal.records == old(wal.records) + LogRecs(batch);
      }
    }

    static lemma SpliceLength(contents: Log, prev: nat, batch: seq<Entry>)
      requires prev <= |contents|
      ensures |Splice(contents, prev, batch)| <= Max(|contents|, prev + |batch|)
    {
      SpliceCutsAtFirstConflict(contents, prev, batch);
    }

    /** The leader's backward search for its last entry of the conflicting term. */
    method FindLastInTerm(t: nat) returns (last: nat)
      requires Valid() && t > 0
      ensures last == LastInTerm(log.Contents(), t, |log.Contents()|)
    {
      last := 0;
      var i: nat := log.LastIndex();
      while i > log.snapshotIndex
        invariant i <= log.LastIndex() && last == 0
        invariant LastInTerm(log.Contents(), t, i) == LastInTerm(log.Contents(), t, |log.Contents()|)
        decreases i
      {
        TermIsTermAt(i);
        if log.GetTerm(i) == t {
          last := i;
          break;
        }
        i := i - 1;
      }
    }

    method HandleAppendReply(peer: NodeId, prevIndex: nat, count: nat, resp: Spec.AppendReply)
      requires Valid() && log.LastIndex() + 1 < TWO_64
      requires prevIndex + count + 1 < TWO_64 && resp.conflictIndex < TWO_64 && (resp.conflictTerm > 0 ==> resp.conflictIndex > 0)
      requires forall p :: p in matchIndex ==> matchIndex[p] + 1 < TWO_64
      modifies this`currentTerm, this`role, this`votedFor, this`nextIndex, this`matchIndex, this`commitIndex, wal
      ensures Valid() && View() == Spec.HandleReply(old(View()), peer, prevIndex, count, resp, QuorumSize())
    {
      if resp.term > currentTerm {
        BecomeFollower(resp.term);
        return;
      }
      if role != Leader || resp.term != currentTerm {
        return;
      }
      if resp.success {
        var m := Max(if peer in matchIndex then matchIndex[peer] else 0, prevIndex + count);
        matchIndex := matchIndex[peer := m];
        nextIndex := nextIndex[peer := m + 1];
        AdvanceCommitIndex();
      } else if resp.conflictTerm > 0 {
        var last := FindLastInTerm(resp.conflictTerm);
        LastInTermFinds(log.Contents(), resp.conflictTerm, |log.Contents()|);
        nextIndex := nextIndex[peer := if last > 0 then last + 1 else resp.conflictIndex];
      } else {
        nextIndex := nextIndex[peer := if resp.conflictIndex > 0 then resp.conflictIndex else 1];
      }
    }

    static ghost function MatchedAmong(m: map<NodeId, nat>, seen: set<NodeId>, k: nat): set<NodeId>
    {
      set p | p in seen && p in m && m[p] >= k
    }

    static lemma MatchedOneMore(m: map<NodeId, nat>, seen: set<NodeId>, p: NodeId, k: nat)
      requires p !in seen && p in m
      ensures |MatchedAmong(m, seen + {p}, k)| == |MatchedAmong(m, seen, k)| + (if m[p] >= k then 1 else 0)
    {
      assert MatchedAmong(m, seen + {p}, k) == if m[p] >= k then MatchedAmong(m, seen, k) + {p} else MatchedAmong(m, seen, k);
    }

    /** One plus the number of peers whose match index reaches `k`. */
    method CountReplicas(k: nat) returns (replicated: nat)
      ensures replicated == Spec.Replicated(matchIndex, k)
    {
      replicated := 1;
      ghost var seen: set<NodeId> := {};
      assert MatchedAmong(matchIndex, seen, k) == {};
      var todo := matchIndex.Keys;
      while todo != {}
        invariant todo <= matchIndex.Keys && seen == matchIndex.Keys - todo
        invariant replicated == 1 + |MatchedAmong(matchIndex, seen, k)|
        decreases |todo|
      {
        var p :| p in todo;
        MatchedOneMore(matchIndex, seen, p, k);
        if matchIndex[p] >= k {
          replicated := replicated + 1;
        }
        todo := todo - {p};
        seen := seen + {p};
      }
      assert MatchedAmong(matchIndex, seen, k) == Spec.MatchedPeers(matchIndex, k);
    }

    method AdvanceCommitIndex()
      requires Valid()
      modifies this`commitIndex
      ensures Valid() && View() == Spec.AdvanceCommit(old(View()), QuorumSize())
    {
      var k: nat := log.LastIndex();
      while k > commitIndex
        invariant k <= log.LastIndex() && commitIndex == old(commitIndex)
        invariant Spec.CommitSearch(old(View()), k, QuorumSize()) == Spec.CommitSearch(old(View()), log.LastIndex(), QuorumSize())
        decreases k
      {
        TermIsTermAt(k);
        var replicated := CountReplicas(k);
        if log.GetTerm(k) == currentTerm && replicated >= QuorumSize() {
          commitIndex := k;
          return;
        }
        k := k - 1;
      }
    }

    // ----- applying -----

    /** Hand the next committed entry to the state machine, if the log holds it. */
    method ApplyNext()
      requires Valid() && lastApplied + 1 < TWO_64
      modifies this`lastApplied, this`applied
      ensures Valid() && View() == Spec.ApplyNext(old(View()))
    {
      if lastApplied < commitIndex {
        var e := log.GetEntry(lastApplied + 1);
        if e != None {
          applied := applied + [e.value];
          lastApplied := lastApplied + 1;
        }
      }
    }
  }
}
