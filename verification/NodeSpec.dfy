/**
 One Raft node as a value, and one function for each section of code that runs under the node's lock.

 The log starts at index 1 (no compaction has happened); `votes` is the set of nodes counted in the
 current election, `applied` the entries handed to the state machine since the node started, and
 `wal` the records written so far.
 */
module NodeSpec {
  import opened Types
  import opened Logs
  import opened WalRecords
  import opened Backtracking

  const MAX_BATCH: nat := 100

  datatype Node = Node(
    currentTerm: nat,
    votedFor: Option<NodeId>,
    role: Role,
    log: Log,
    commitIndex: nat,
    lastApplied: nat,
    applied: seq<Entry>,
    votes: set<NodeId>,
    nextIndex: map<NodeId, nat>,
    matchIndex: map<NodeId, nat>,
    wal: seq<WalRecord>)

  datatype VoteRequest = VoteRequest(term: nat, candidate: NodeId, lastIndex: nat, lastTerm: nat)

  datatype VoteReply = VoteReply(term: nat, granted: bool)

  datatype AppendRequest = AppendRequest(term: nat, leader: NodeId, prevIndex: nat, prevTerm: nat, entries: seq<Entry>, leaderCommit: nat)

  datatype AppendReply = AppendReply(term: nat, success: bool, conflictIndex: nat, conflictTerm: nat)

  const FRESH := Node(0, None, Follower, [], 0, 0, [], {}, map[], map[], [])

  function QuorumSize(peers: nat): nat
  {
    (peers + 1) / 2 + 1
  }

  // ----- elections -----

  function BecomeFollower(n: Node, term: nat): Node
  {
    n.(currentTerm := term, role := Follower, votedFor := None, wal := n.wal + [HardRec(term, None)])
  }

  function StartElection(n: Node, self: NodeId): Node
  {
    n.(currentTerm := n.currentTerm + 1,
       votedFor := Some(self),
       role := Candidate,
       votes := {self},
       wal := n.wal + [HardRec(n.currentTerm + 1, Some(self))])
  }

  function MakeVoteRequest(n: Node, self: NodeId): VoteRequest
  {
    VoteRequest(n.currentTerm, self, |n.log|, LastTerm(n.log))
  }

  predicate UpToDate(log: Log, lastIndex: nat, lastTerm: nat)
  {
    if lastTerm != LastTerm(log) then lastTerm > LastTerm(log) else lastIndex >= |log|
  }

  function AdoptTerm(n: Node, term: nat): Node
  {
    if term > n.currentTerm then BecomeFollower(n, term) else n
  }

  predicate Grants(n: Node, req: VoteRequest)
  {
    (n.votedFor == None || n.votedFor == Some(req.candidate)) && UpToDate(n.log, req.lastIndex, req.lastTerm)
  }

  // The reply carries the term read before stepping down.
  function HandleVote(n: Node, req: VoteRequest): (Node, VoteReply)
  {
    if req.term < n.currentTerm then (n, VoteReply(n.currentTerm, false))
    else
      var n1 := AdoptTerm(n, req.term);
      if Grants(n1, req) then
        (n1.(votedFor := Some(req.candidate), wal := n1.wal + [HardRec(n1.currentTerm, Some(req.candidate))]),
         VoteReply(n.currentTerm, true))
      else (n1, VoteReply(n.currentTerm, false))
  }

  function CountVote(n: Node, voter: NodeId, electionTerm: nat, reply: VoteReply): Node
  {
    if reply.term > n.currentTerm then BecomeFollower(n, reply.term)
    else if reply.granted && n.currentTerm == electionTerm && n.role == Candidate then n.(votes := n.votes + {voter})
    else n
  }

  function NoOpEntry(term: nat, index: nat): Entry
  {
    Entry(term, index, NoOp, "", "", -1)
  }

  /** Every peer's entry set to `v`. */
  function ResetTo(m: map<NodeId, nat>, peers: set<NodeId>, v: nat): map<NodeId, nat>
  {
    m + (map p | p in peers :: v)
  }

  function BecomeLeader(n: Node, peers: set<NodeId>): Node
  {
    var noop := NoOpEntry(n.currentTerm, |n.log| + 1);
    n.(role := Leader,
       nextIndex := ResetTo(n.nextIndex, peers, |n.log| + 1),
       matchIndex := ResetTo(n.matchIndex, peers, 0),
       log := n.log + [noop],
       wal := n.wal + [LogRec(noop)])
  }

  predicate HasWon(n: Node, peers: set<NodeId>)
  {
    n.role == Candidate && |n.votes| >= QuorumSize(|peers|)
  }

  // ----- replication -----

  function Propose(n: Node, op: OpType, key: string, value: string, ttlMs: int): Node
  {
    if n.role != Leader then n
    else
      var e := Entry(n.currentTerm, |n.log| + 1, op, key, value, ttlMs);
      n.(log := n.log + [e], wal := n.wal + [LogRec(e)])
  }

  function NextFor(n: Node, peer: NodeId): nat
  {
    if peer in n.nextIndex then n.nextIndex[peer] else |n.log| + 1
  }

  function Batch(log: Log, prev: nat): seq<Entry>
  {
    if prev <= |log| then log[prev..Min(|log|, prev + MAX_BATCH)] else []
  }

  function MakeAppend(n: Node, self: NodeId, peer: NodeId): AppendRequest
    requires NextFor(n, peer) >= 1
  {
    var prev := NextFor(n, peer) - 1;
    AppendRequest(n.currentTerm, self, prev, TermAt(n.log, prev), Batch(n.log, prev), n.commitIndex)
  }

  function AcceptAppend(n: Node, req: AppendRequest): Node
    requires req.prevIndex <= |n.log|
  {
    var log' := Splice(n.log, req.prevIndex, req.entries);
    n.(log := log',
       wal := n.wal + LogRecs(req.entries),
       commitIndex := if req.leaderCommit > n.commitIndex then Min(req.leaderCommit, |log'|) else n.commitIndex)
  }

  // As with votes, the reply carries the term read before stepping down, and a candidate that hears
  // from a leader of its own term stays a candidate.
  function HandleAppend(n: Node, req: AppendRequest): (Node, AppendReply)
  {
    if req.term < n.currentTerm then (n, AppendReply(n.currentTerm, false, 0, 0))
    else
      var n1 := AdoptTerm(n, req.term);
      match Check(n1.log, req.prevIndex, req.prevTerm)
      case Reject(ci, ct) => (n1, AppendReply(n.currentTerm, false, ci, ct))
      case Accept => (AcceptAppend(n1, req), AppendReply(n.currentTerm, true, 0, 0))
  }

  function MatchedPeers(matchIndex: map<NodeId, nat>, k: nat): set<NodeId>
  {
    set p | p in matchIndex && matchIndex[p] >= k
  }

  /** How many nodes are known to hold index `k`: the leader itself and the peers whose match index reaches it. */
  function Replicated(matchIndex: map<NodeId, nat>, k: nat): nat
  {
    1 + |MatchedPeers(matchIndex, k)|
  }

  predicate MayCommit(n: Node, k: nat, quorum: nat)
  {
    TermAt(n.log, k) == n.currentTerm && Replicated(n.matchIndex, k) >= quorum
  }

  /** The downward search for the highest index above `commitIndex` that may be committed. */
  function CommitSearch(n: Node, k: nat, quorum: nat): nat
  {
    if k <= n.commitIndex then n.commitIndex
    else if MayCommit(n, k, quorum) then k
    else CommitSearch(n, k - 1, quorum)
  }

  function AdvanceCommit(n: Node, quorum: nat): Node
  {
    n.(commitIndex := CommitSearch(n, |n.log|, quorum))
  }

  function MatchOf(n: Node, peer: NodeId): nat
  {
    if peer in n.matchIndex then n.matchIndex[peer] else 0
  }

  function HandleReply(n: Node, peer: NodeId, prevIndex: nat, count: nat, reply: AppendReply, quorum: nat): Node
  {
    if reply.term > n.currentTerm then BecomeFollower(n, reply.term)
    else if n.role != Leader || reply.term != n.currentTerm then n
    else if reply.success then
      var m := Max(MatchOf(n, peer), prevIndex + count);
      AdvanceCommit(n.(matchIndex := n.matchIndex[peer := m], nextIndex := n.nextIndex[peer := m + 1]), quorum)
    else n.(nextIndex := n.nextIndex[peer := BackUp(n.log, reply.conflictIndex, reply.conflictTerm)])
  }

  // ----- applying and restarting -----

  function ApplyNext(n: Node): Node
  {
    if n.lastApplied < n.commitIndex && n.lastApplied < |n.log| then
      n.(lastApplied := n.lastApplied + 1, applied := n.applied + [n.log[n.lastApplied]])
    else n
  }

  /** A new process over the old write-ahead log; the constructor logs every recovered entry again. */
  function Restart(n: Node): Node
  {
    var r := Recover(n.wal);
    Node(r.term, r.votedFor, Follower, r.entries, r.snapshotIndex, r.snapshotIndex, [], {}, map[], map[],
         n.wal + LogRecs(r.entries))
  }

  // ----- what the commit search finds -----

  lemma {:induction false} CommitSearchFinds(n: Node, k: nat, quorum: nat)
    ensures CommitSearch(n, k, quorum) >= n.commitIndex
    ensures CommitSearch(n, k, quorum) > n.commitIndex ==>
              CommitSearch(n, k, quorum) <= k && MayCommit(n, CommitSearch(n, k, quorum), quorum)
    ensures forall j :: CommitSearch(n, k, quorum) < j <= k ==> !MayCommit(n, j, quorum)
  {
    if k > n.commitIndex && !MayCommit(n, k, quorum) {
      CommitSearchFinds(n, k - 1, quorum);
    }
  }
}
