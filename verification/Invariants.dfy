/** The inductive invariant of the cluster, over its state and its past. */
module Invariants {
  import opened Types
  import opened Logs
  import opened WalRecords
  import opened Backtracking
  import opened NodeSpec
  import opened Cluster
  import opened History

  // ----- recording the past -----

  function Record(h: Past, s: State, a: Action): Past
    requires Enabled(s, a)
  {
    match a
    case Elect(i) => h.(ballots := h.ballots[(i, s.nodes[i].currentTerm + 1) := Ballot(i, s.nodes[i].log)])
    case DeliverVoteReq(m) =>
      var r := m.voteReq;
      if HandleVote(s.nodes[m.dst], r).1.granted && (m.dst, r.term) !in h.ballots
      then h.(ballots := h.ballots[(m.dst, r.term) := Ballot(r.candidate, s.nodes[m.dst].log)])
      else h
    case Win(i) =>
      var n, n' := s.nodes[i], After(s, a);
      h.(reigns := h.reigns[n.currentTerm := Reign(i, n.log, n.votes, n'.log)],
         acks := h.acks[(i, n.currentTerm) := |n'.log|])
    case Submit(i, _, _, _, _) =>
      var n' := After(s, a);
      if n'.currentTerm in h.reigns
      then h.(reigns := h.reigns[n'.currentTerm := h.reigns[n'.currentTerm].(log := n'.log)],
              acks := h.acks[(i, n'.currentTerm) := |n'.log|])
      else h
    case DeliverAppendReq(m) =>
      var r := m.appendReq;
      if HandleAppend(s.nodes[m.dst], r).1.success
      then h.(acks := h.acks[(m.dst, r.term) := Max(Ack(h, m.dst, r.term), r.prevIndex + |r.entries|)])
      else h
    case DeliverAppendResp(m) =>
      var n' := After(s, a);
      if |h.decided| < n'.commitIndex <= |n'.log|
      then h.(decided := n'.log[..n'.commitIndex], decidedTerm := n'.currentTerm)
      else h
    case _ => h
  }

  // ----- majorities -----

  ghost predicate Majority(members: set<NodeId>, q: set<NodeId>)
  {
    q <= members && |q| >= |members| / 2 + 1
  }

  lemma SubsetSmaller<T>(a: set<T>, b: set<T>)
    requires a <= b
    ensures |a| <= |b|
  {
    assert b == a + (b - a);
  }

  lemma MajoritiesMeet(members: set<NodeId>, p: set<NodeId>, q: set<NodeId>)
    requires Majority(members, p) && Majority(members, q)
    ensures exists v :: v in p && v in q
  {
    if p * q == {} {
      assert |p + q| == |p| + |q|;
      SubsetSmaller(p + q, members);
    }
    var v :| v in p * q;
  }

  lemma LargerMajority(members: set<NodeId>, p: set<NodeId>, q: set<NodeId>)
    requires Majority(members, p) && p <= q <= members
    ensures Majority(members, q)
  {
    SubsetSmaller(p, q);
  }

  // ----- elections and votes -----

  ghost predicate Voted(h: Past, v: NodeId, t: nat, cand: NodeId)
  {
    (v, t) in h.ballots && h.ballots[(v, t)].candidate == cand
  }

  ghost predicate Elected(s: State, h: Past, t: nat)
    requires t in h.reigns
  {
    var r := h.reigns[t];
    && r.leader in s.nodes
    && Majority(s.nodes.Keys, r.voters)
    && (forall v :: v in r.voters ==> Voted(h, v, t, r.leader))
    && Voted(h, r.leader, t, r.leader) && h.ballots[(r.leader, t)].log == r.start
  }

  ghost predicate ElectedOk(s: State, h: Past)
  {
    forall t :: t in h.reigns ==> Elected(s, h, t)
  }

  /** A ballot was cast by a member no later than its current term, for a candidate whose log was at least as up to date. */
  ghost predicate BallotOk(s: State, h: Past, v: NodeId, t: nat)
    requires (v, t) in h.ballots
  {
    var b := h.ballots[(v, t)];
    && v in s.nodes && t <= s.nodes[v].currentTerm
    && LogOk(h, b.log)
    && Voted(h, b.candidate, t, b.candidate)
    && var cl := h.ballots[(b.candidate, t)].log;
       LastTerm(cl) < t && UpToDate(b.log, |cl|, LastTerm(cl))
  }

  ghost predicate BallotsOk(s: State, h: Past)
  {
    forall v, t :: (v, t) in h.ballots ==> BallotOk(s, h, v, t)
  }

  // ----- commitment -----

  ghost function Holders(members: set<NodeId>, h: Past, t: nat, n: nat): set<NodeId>
  {
    set v | v in members && Ack(h, v, t) >= n
  }

  /** A majority has acknowledged index `n` of the leader of `t`, and that entry is of term `t`. */
  ghost predicate Committed(members: set<NodeId>, h: Past, t: nat, n: nat)
  {
    OwnIndex(h, t, n) && Majority(members, Holders(members, h, t, n))
  }

  /** Everything up to `c` was committed by a leader of term at most `t`. */
  ghost predicate Certified(members: set<NodeId>, h: Past, t: nat, c: nat)
  {
    c == 0 || exists u: nat, n: nat :: u <= t && c <= n && Committed(members, h, u, n)
  }

  // ----- nodes -----

  /**
   A leader of term `t` with log history `r` may probe `f` at `p`: `p` is at or beyond the log it was
   elected with, or `f` has left the term, or `f` already holds a prefix of the leader's log, or `p`
   is not inside the part of the logs that agree.
   */
  ghost predicate MayProbe(f: Node, t: nat, r: Reign, p: nat)
  {
    || p >= |r.start|
    || f.currentTerm > t
    || (f.currentTerm == t && (f.log <= r.log || !Agree(f.log, r.log, p + 1)))
  }

  ghost predicate NodeOk(s: State, h: Past, i: NodeId)
    requires i in s.nodes
  {
    var n := s.nodes[i];
    && LogOk(h, n.log)
    && LastTerm(n.log) <= n.currentTerm
    && n.votedFor == (if (i, n.currentTerm) in h.ballots then Some(h.ballots[(i, n.currentTerm)].candidate) else None)
    && (var w := Recover(n.wal); w.term == n.currentTerm && w.votedFor == n.votedFor && w.snapshotIndex == 0)
    && n.matchIndex.Keys <= s.nodes.Keys - {i}
  }

  ghost predicate CandidateOk(s: State, h: Past, i: NodeId)
    requires i in s.nodes
  {
    var n := s.nodes[i];
    n.role == Candidate ==>
      && Voted(h, i, n.currentTerm, i)
      && n.votes <= s.nodes.Keys
      && (forall v :: v in n.votes ==> Voted(h, v, n.currentTerm, i))
      && (n.currentTerm !in h.reigns ==> n.log == h.ballots[(i, n.currentTerm)].log)
      && (n.currentTerm in h.reigns ==> h.reigns[n.currentTerm].leader != i)
  }

  ghost predicate PeerOk(s: State, h: Past, i: NodeId, j: NodeId)
    requires i in s.nodes && j in s.nodes && s.nodes[i].currentTerm in h.reigns
  {
    var n := s.nodes[i];
    && j in n.nextIndex && j in n.matchIndex
    && 1 <= n.nextIndex[j] <= |n.log| + 1
    && MayProbe(s.nodes[j], n.currentTerm, h.reigns[n.currentTerm], n.nextIndex[j] - 1)
    && n.matchIndex[j] <= Ack(h, j, n.currentTerm)
  }

  ghost predicate LeaderOk(s: State, h: Past, i: NodeId)
    requires i in s.nodes
  {
    var n := s.nodes[i];
    n.role == Leader ==>
      && n.currentTerm in h.reigns
      && h.reigns[n.currentTerm].leader == i
      && n.log == h.reigns[n.currentTerm].log
      && |n.log| <= Ack(h, i, n.currentTerm)
      && forall j :: j in s.nodes && j != i ==> PeerOk(s, h, i, j)
  }

  ghost predicate CommitOk(s: State, h: Past, i: NodeId)
    requires i in s.nodes
  {
    var n := s.nodes[i];
    && n.lastApplied <= n.commitIndex
    && Agree(n.log, h.decided, n.commitIndex)
    && Certified(s.nodes.Keys, h, n.currentTerm, n.commitIndex)
    && n.applied == h.decided[..n.lastApplied]
  }

  ghost predicate NodesOk(s: State, h: Past)
  {
    forall i :: i in s.nodes ==> NodeOk(s, h, i)
  }

  ghost predicate CandidatesOk(s: State, h: Past)
  {
    forall i :: i in s.nodes ==> CandidateOk(s, h, i)
  }

  ghost predicate LeadersOk(s: State, h: Past)
  {
    forall i :: i in s.nodes ==> LeaderOk(s, h, i)
  }

  ghost predicate CommitsOk(s: State, h: Past)
  {
    forall i :: i in s.nodes ==> CommitOk(s, h, i)
  }

  // ----- acknowledgements -----

  /** What a node has acknowledged to the leader of `t` it still holds while it stays in `t`. */
  ghost predicate AckOk(s: State, h: Past, v: NodeId, t: nat)
    requires v in s.nodes
  {
    var k := Ack(h, v, t);
    k > 0 ==>
      && t in h.reigns && t <= s.nodes[v].currentTerm && k <= |h.reigns[t].log|
      && (s.nodes[v].currentTerm == t ==> s.nodes[v].log <= h.reigns[t].log && k <= |s.nodes[v].log|)
  }

  ghost predicate AcksOk(s: State, h: Past)
  {
    forall v, t :: v in s.nodes ==> AckOk(s, h, v, t)
  }

  // ----- messages -----

  ghost predicate VoteReqOk(s: State, h: Past, dst: NodeId, r: VoteRequest)
  {
    && dst in s.nodes && r.candidate in s.nodes && dst != r.candidate
    && Voted(h, r.candidate, r.term, r.candidate)
    && r.lastIndex == |h.ballots[(r.candidate, r.term)].log|
    && r.lastTerm == LastTerm(h.ballots[(r.candidate, r.term)].log)
  }

  ghost predicate VoteRespOk(s: State, h: Past, src: NodeId, dst: NodeId, t: nat, v: VoteReply)
  {
    src in s.nodes && dst in s.nodes && (v.granted ==> Voted(h, src, t, dst))
  }

  /** A request carries a stretch of its leader's log and a commit index whose prefix is decided. */
  ghost predicate Carries(g: Reign, decided: Log, r: AppendRequest)
  {
    && g.leader == r.leader
    && r.prevIndex + |r.entries| <= |g.log|
    && r.entries == g.log[r.prevIndex..r.prevIndex + |r.entries|]
    && r.prevTerm == TermAt(g.log, r.prevIndex)
    && Agree(g.log, decided, r.leaderCommit)
    && (r.entries == [] ==> r.prevIndex > |g.start|)
  }

  ghost predicate AppendReqOk(s: State, h: Past, dst: NodeId, r: AppendRequest)
  {
    && dst in s.nodes && dst != r.leader
    && r.term in h.reigns
    && Carries(h.reigns[r.term], h.decided, r)
    && Certified(s.nodes.Keys, h, r.term, r.leaderCommit)
    && MayProbe(s.nodes[dst], r.term, h.reigns[r.term], r.prevIndex)
  }

  /** Where the hint sends the leader of `t` it may probe `f`. */
  ghost predicate HintOk(f: Node, t: nat, r: Reign, ci: nat, ct: nat)
  {
    var next := BackUp(r.log, ci, ct);
    1 <= next <= |r.log| + 1 && MayProbe(f, t, r, next - 1)
  }

  ghost predicate AppendRespOk(s: State, h: Past, src: NodeId, dst: NodeId, t: nat, prev: nat, count: nat, a: AppendReply)
  {
    && src in s.nodes && dst in s.nodes && src != dst
    && t in h.reigns && h.reigns[t].leader == dst
    && (a.success ==> 1 <= prev + count <= Ack(h, src, t))
    && (!a.success && a.term == t ==>
          a.conflictTerm < t && HintOk(s.nodes[src], t, h.reigns[t], a.conflictIndex, a.conflictTerm))
    && (a.term > t ==> !a.success && a.conflictIndex == 0 && a.conflictTerm == 0)
  }

  ghost predicate MsgOk(s: State, h: Past, m: Message)
  {
    match m
    case VoteReq(dst, r) => VoteReqOk(s, h, dst, r)
    case VoteResp(src, dst, t, v) => VoteRespOk(s, h, src, dst, t, v)
    case AppendReq(dst, r) => AppendReqOk(s, h, dst, r)
    case AppendResp(src, dst, t, prev, count, a) => AppendRespOk(s, h, src, dst, t, prev, count, a)
  }

  ghost predicate NetOk(s: State, h: Past)
  {
    forall m :: m in s.net ==> MsgOk(s, h, m)
  }

  // ----- completeness -----

  /** Nodes that have acknowledged index `n` of the leader of `t`, or still could. */
  ghost function Support(s: State, h: Past, t: nat, n: nat): set<NodeId>
  {
    set v | v in s.nodes && (Ack(h, v, t) >= n || s.nodes[v].currentTerm <= t)
  }

  ghost predicate Choosable(s: State, h: Past, t: nat, n: nat)
  {
    OwnIndex(h, t, n) && Majority(s.nodes.Keys, Support(s, h, t, n))
  }

  /** What may be committed in `t` is in the log of every later leader. */
  ghost predicate LeadersComplete(s: State, h: Past)
  {
    forall t: nat, n: nat, u: nat :: Choosable(s, h, t, n) && u in h.reigns && t < u ==> Agree(h.reigns[t].log, h.reigns[u].log, n)
  }

  /** What may be committed in `t` and was acknowledged by `v` is in the log `v` held when it voted later. */
  ghost predicate BallotsComplete(s: State, h: Past)
  {
    forall t: nat, n: nat, v: NodeId, u: nat :: Choosable(s, h, t, n) && (v, u) in h.ballots && t < u && Ack(h, v, t) >= n
      ==> Agree(h.reigns[t].log, h.ballots[(v, u)].log, n)
  }

  /** What may be committed in `t` and was acknowledged by `v` is in the log of `v`. */
  ghost predicate NodesComplete(s: State, h: Past)
  {
    forall t: nat, n: nat, v: NodeId :: Choosable(s, h, t, n) && v in s.nodes && Ack(h, v, t) >= n
      ==> Agree(h.reigns[t].log, s.nodes[v].log, n)
  }

  ghost predicate DecidedOk(s: State, h: Past)
  {
    h.decided == [] ||
    (Committed(s.nodes.Keys, h, h.decidedTerm, |h.decided|) && h.decided <= h.reigns[h.decidedTerm].log)
  }

  ghost predicate Inv(s: State, h: Past)
  {
    && ReignsOk(h)
    && ElectedOk(s, h)
    && BallotsOk(s, h)
    && NodesOk(s, h)
    && CandidatesOk(s, h)
    && LeadersOk(s, h)
    && CommitsOk(s, h)
    && AcksOk(s, h)
    && NetOk(s, h)
    && LeadersComplete(s, h)
    && BallotsComplete(s, h)
    && NodesComplete(s, h)
    && DecidedOk(s, h)
  }

  lemma InitInv(members: set<NodeId>)
    ensures Inv(Init(members), NO_PAST)
  {
  }
}
