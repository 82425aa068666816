/** What one step of a node promises, whatever state the node is in. */
module NodeLaws {
  import opened Types
  import opened Logs
  import opened WalRecords
  import opened Backtracking
  import opened NodeSpec
  import opened Cluster

  // ----- votes -----

  /** The order of logs in section 5.4.1 of the Raft paper: by last term, then by length. */
  predicate Behind(a: Log, b: Log)
  {
    LastTerm(a) < LastTerm(b) || (LastTerm(a) == LastTerm(b) && |a| < |b|)
  }

  function RequestFor(cand: Log, t: nat, c: NodeId): VoteRequest
  {
    VoteRequest(t, c, |cand|, LastTerm(cand))
  }

  predicate Granted(n: Node, r: VoteRequest)
  {
    HandleVote(n, r).1.granted
  }

  /** In a new term a node votes for every candidate whose log is not behind its own, and for no other. */
  lemma GrantedIffNotBehind(n: Node, cand: Log, t: nat, c: NodeId)
    requires t > n.currentTerm
    ensures Granted(n, RequestFor(cand, t, c)) <==> !Behind(cand, n.log)
  {
  }

  /** In particular for a candidate whose log extends its own. */
  lemma LongerLogIsGranted(n: Node, cand: Log, t: nat, c: NodeId)
    requires t > n.currentTerm && Ascending(cand) && n.log <= cand
    ensures Granted(n, RequestFor(cand, t, c))
  {
    GrantedIffNotBehind(n, cand, t, c);
    if n.log != [] {
      assert n.log[|n.log| - 1] == cand[|n.log| - 1];
    }
  }

  /** Of any two nodes at least one gets the other's vote in a new term. */
  lemma OneOfTwoIsGranted(a: Node, b: Node, t: nat, i: NodeId, j: NodeId)
    requires t > a.currentTerm && t > b.currentTerm
    ensures Granted(b, RequestFor(a.log, t, i)) || Granted(a, RequestFor(b.log, t, j))
  {
    GrantedIffNotBehind(a, b.log, t, j);
    GrantedIffNotBehind(b, a.log, t, i);
  }

  /** A vote stands for the rest of the term: the same request is granted again, another candidate's refused. */
  lemma VoteStands(n: Node, r: VoteRequest, other: VoteRequest)
    requires Granted(n, r) && other.term <= r.term
    ensures var n' := HandleVote(n, r).0;
            && Granted(n', r)
            && (other.term < r.term || other.candidate != r.candidate ==> !Granted(n', other))
  {
  }

  // ----- terms -----

  function TermOf(m: Message): nat
  {
    match m
    case VoteReq(_, r) => r.term
    case VoteResp(_, _, _, v) => v.term
    case AppendReq(_, r) => r.term
    case AppendResp(_, _, _, _, _, a) => a.term
  }

  predicate IsDelivery(a: Action)
  {
    a.DeliverVoteReq? || a.DeliverVoteResp? || a.DeliverAppendReq? || a.DeliverAppendResp?
  }

  /** Any message of a later term is adopted and ends candidacy and leadership; none other changes the term. */
  lemma LaterTermIsAdopted(s: State, a: Action)
    requires Enabled(s, a) && IsDelivery(a)
    ensures a.msg.dst in s.nodes
    ensures var n, n' := s.nodes[a.msg.dst], Do(s, a).nodes[a.msg.dst];
            && n'.currentTerm == Max(n.currentTerm, TermOf(a.msg))
            && (TermOf(a.msg) > n.currentTerm ==> n'.role == Follower)
  {
  }

  /** A leader makes nothing of the first answer of a follower it has just brought into its term. */
  lemma FirstContactIsIgnored(l: Node, i: NodeId, p: NodeId, f: Node, q: nat)
    requires NextFor(l, p) >= 1 && f.currentTerm < l.currentTerm
    ensures var r := MakeAppend(l, i, p);
            && HandleAppend(f, r).0.currentTerm == l.currentTerm
            && HandleReply(l, p, r.prevIndex, |r.entries|, HandleAppend(f, r).1, q) == l
  {
  }

  /** A vote counts once, for the candidacy it was cast for; a late one changes nothing. */
  lemma LateVotesChangeNothing(n: Node, v: NodeId, t: nat, a: VoteReply)
    requires a.term <= n.currentTerm
    ensures n.role != Candidate || t != n.currentTerm || !a.granted || v in n.votes ==> CountVote(n, v, t, a) == n
    ensures n.role == Candidate && t == n.currentTerm && a.granted && v !in n.votes ==> |CountVote(n, v, t, a).votes| == |n.votes| + 1
  {
  }

  /** An answer of an earlier term, or one to a node that no longer leads, changes nothing. */
  lemma LateAnswersChangeNothing(n: Node, p: NodeId, prev: nat, count: nat, a: AppendReply, q: nat)
    requires a.term < n.currentTerm || (a.term == n.currentTerm && n.role != Leader)
    ensures HandleReply(n, p, prev, count, a, q) == n
  {
  }

  // ----- accepting -----

  /** A batch is what the log holds from `nextIndex` on, cut at a hundred entries. */
  lemma BatchIsNextHundred(l: Node, i: NodeId, p: NodeId)
    requires 1 <= NextFor(l, p) <= |l.log| + 1
    ensures var r := MakeAppend(l, i, p);
            && r.prevIndex == NextFor(l, p) - 1
            && r.entries <= l.log[r.prevIndex..]
            && |r.entries| == Min(100, |l.log| - r.prevIndex)
  {
  }

  /**
   An accepted request, empty or not, moves the commit index to what the leader has committed as far as
   the log goes, and never beyond that. It moves it back only if it cuts the log below it.
   */
  lemma AcceptedCommits(n: Node, r: AppendRequest)
    requires HandleAppend(n, r).1.success
    ensures var n' := HandleAppend(n, r).0;
            && Min(r.leaderCommit, |n'.log|) <= n'.commitIndex <= Max(n.commitIndex, r.leaderCommit)
            && (n'.commitIndex >= n.commitIndex <==> r.leaderCommit <= n.commitIndex || n.commitIndex <= |n'.log|)
  {
  }

  /** The request to a follower whose probe succeeds passes on the leader's commit index. */
  lemma HeartbeatCommits(l: Node, i: NodeId, p: NodeId, f: Node)
    requires NextFor(l, p) >= 1 && f.currentTerm <= l.currentTerm && Probe(l.log, f.log, NextFor(l, p)) == Accept
    ensures var (f', a) := HandleAppend(f, MakeAppend(l, i, p));
            && a == AppendReply(f.currentTerm, true, 0, 0)
            && f'.commitIndex >= Min(l.commitIndex, |f'.log|)
            && f'.log == Splice(f.log, NextFor(l, p) - 1, Batch(l.log, NextFor(l, p) - 1))
  {
    AcceptedCommits(f, MakeAppend(l, i, p));
  }

  // ----- answers -----

  /** A rejected request and its answer are one probe of the search for the common prefix. */
  lemma RejectionIsProbe(l: Node, i: NodeId, p: NodeId, f: Node, q: nat)
    requires l.role == Leader && f.currentTerm == l.currentTerm && NextFor(l, p) >= 1
    requires Probe(l.log, f.log, NextFor(l, p)).Reject?
    ensures var r := MakeAppend(l, i, p);
            var (f', a) := HandleAppend(f, r);
            var l' := HandleReply(l, p, r.prevIndex, |r.entries|, a, q);
            && f' == f && !a.success
            && NextFor(l', p) == NextProbe(l.log, f.log, NextFor(l, p))
            && l' == l.(nextIndex := l.nextIndex[p := NextFor(l', p)])
  {
  }

  /** After an acceptance the leader knows how far the peer matches, goes on from there, and forgets nothing it knew. */
  lemma AcceptanceIsMatch(l: Node, p: NodeId, prev: nat, count: nat, a: AppendReply, q: nat)
    requires l.role == Leader && a.success && a.term == l.currentTerm
    ensures var l' := HandleReply(l, p, prev, count, a, q);
            && MatchOf(l', p) == Max(MatchOf(l, p), prev + count)
            && NextFor(l', p) == MatchOf(l', p) + 1
            && (forall o :: o != p ==> MatchOf(l', o) == MatchOf(l, o) && (o in l'.nextIndex <==> o in l.nextIndex) && NextFor(l', o) == NextFor(l, o))
            && l' == l.(nextIndex := l'.nextIndex, matchIndex := l'.matchIndex, commitIndex := l'.commitIndex)
  {
  }

  ghost function Holding(n: Node, k: nat): set<NodeId>
  {
    set p | p in n.matchIndex && n.matchIndex[p] >= k
  }

  /** The leader and the peers known to match make `q` nodes that hold its own term's entry at `k`. */
  ghost predicate HeldByQuorum(n: Node, k: nat, q: nat)
  {
    1 <= k <= |n.log| && n.log[k - 1].term == n.currentTerm && 1 + |Holding(n, k)| >= q
  }

  /** The commit index moves to the last index held by a quorum, and only there. */
  lemma AdvanceCommitFinds(n: Node, q: nat)
    ensures var n' := AdvanceCommit(n, q);
            && n' == n.(commitIndex := n'.commitIndex) && n'.commitIndex >= n.commitIndex
            && (n'.commitIndex > n.commitIndex ==> HeldByQuorum(n, n'.commitIndex, q))
            && forall k :: k > n'.commitIndex ==> !HeldByQuorum(n, k, q)
  {
    CommitSearchFinds(n, |n.log|, q);
    var c := AdvanceCommit(n, q).commitIndex;
    forall k | k > c ensures !HeldByQuorum(n, k, q) {
      if k <= |n.log| {
        assert !MayCommit(n, k, q);
        assert MatchedPeers(n.matchIndex, k) == Holding(n, k);
      }
    }
    if c > n.commitIndex {
      assert MatchedPeers(n.matchIndex, c) == Holding(n, c);
    }
  }

  /** So an acceptance commits everything that a quorum is then known to hold. */
  lemma AcceptanceCommits(l: Node, p: NodeId, prev: nat, count: nat, a: AppendReply, q: nat)
    requires l.role == Leader && a.success && a.term == l.currentTerm
    ensures var l' := HandleReply(l, p, prev, count, a, q);
            l'.commitIndex >= l.commitIndex && forall k :: k > l'.commitIndex ==> !HeldByQuorum(l', k, q)
  {
    var l' := HandleReply(l, p, prev, count, a, q);
    var before := l.(matchIndex := l'.matchIndex, nextIndex := l'.nextIndex);
    AdvanceCommitFinds(before, q);
    assert forall k :: Holding(l', k) == Holding(before, k);
  }

  // ----- restarts -----

  function Restarts(n: Node, k: nat): Node
  {
    if k == 0 then n else Restart(Restarts(n, k - 1))
  }

  lemma RestartAgain(n: Node, m: Node)
    requires Recover(m.wal) == Recover(n.wal)
    ensures Restart(m) == Restart(n).(wal := Restart(m).wal)
    ensures |Restart(m).wal| == |m.wal| + |Restart(n).log| && Recover(Restart(m).wal) == Recover(n.wal)
  {
    ReappendingKeepsRecovery(m.wal);
  }

  /** Restarting again and again changes nothing but the write-ahead log, which grows by the whole log each time. */
  lemma {:induction false} RestartsPileUp(n: Node, k: nat)
    ensures k >= 1 ==> Restarts(n, k) == Restart(n).(wal := Restarts(n, k).wal)
    ensures k >= 1 ==> |Restarts(n, k).wal| == |Restarts(n, k - 1).wal| + |Restart(n).log|
    ensures Recover(Restarts(n, k).wal) == Recover(n.wal)
  {
    if k > 0 {
      RestartsPileUp(n, k - 1);
      RestartAgain(n, Restarts(n, k - 1));
    }
  }
}
