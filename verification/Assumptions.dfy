/**
 The two conditions runs are subject to, examined: a restart needs a write-ahead log that gives back
 the log in memory, and a leader must not act on a reply to a request of an earlier term.
 */
module Assumptions {
  import opened Types
  import opened Logs
  import opened WalRecords
  import opened NodeSpec
  import opened Cluster
  import opened History
  import opened Invariants
  import opened FollowerSteps
  import opened Runs
  import opened Safety

  // ----- restarts -----

  /** The delivery of a batch that the node accepts but that ends before the node's last index. */
  predicate ShortBatch(s: State, a: Action)
    requires Enabled(s, a)
  {
    a.DeliverAppendReq? &&
    var (n', reply) := HandleAppend(s.nodes[a.msg.dst], a.msg.appendReq);
    var r := a.msg.appendReq;
    reply.success && r.entries != [] && r.prevIndex + |r.entries| != |n'.log|
  }

  lemma AdoptKeepsEntries(n: Node, t: nat)
    ensures Recover(AdoptTerm(n, t).wal).entries == Recover(n.wal).entries && AdoptTerm(n, t).log == n.log
  {
  }

  /** A request's entries are numbered from its `prevIndex` and match the follower's log wherever the terms do. */
  lemma BatchFits(s: State, h: Past, i: NodeId, r: AppendRequest)
    requires ReignsOk(h) && AppendReqOk(s, h, i, r) && NodeOk(s, h, i)
    ensures Numbered(r.prevIndex, r.entries) && MatchesByTerm(s.nodes[i].log, r.prevIndex, r.entries)
    ensures WellIndexed(s.nodes[i].log)
  {
    var g, log := h.reigns[r.term].log, s.nodes[i].log;
    LogShape(h, g);
    LogShape(h, log);
    TermMeansEntry(h, log, g);
    assert forall k :: 0 <= k < |r.entries| ==> r.entries[k] == g[r.prevIndex + k];
  }

  /** A node whose disk and memory agree keeps them in agreement over an accepted batch exactly when the batch is not short. */
  lemma IntactIffNotShort(s: State, h: Past, m: Message)
    requires Inv(s, h) && Enabled(s, DeliverAppendReq(m)) && Intact(s.nodes[m.dst])
    requires HandleAppend(s.nodes[m.dst], m.appendReq).1.success
    ensures Intact(HandleAppend(s.nodes[m.dst], m.appendReq).0) <==> !ShortBatch(s, DeliverAppendReq(m))
  {
    var i, r := m.dst, m.appendReq;
    assert MsgOk(s, h, m);
    BatchFits(s, h, i, r);
    AdoptKeepsEntries(s.nodes[i], r.term);
    SuccessIsAcceptance(s.nodes[i], r);
    var n1 := AdoptTerm(s.nodes[i], r.term);
    AgreesIffBatchEndsAtLast(n1.wal, n1.log, r.prevIndex, r.entries);
    if r.entries == [] {
      assert n1.wal + LogRecs(r.entries) == n1.wal;
    }
  }

  lemma HardRecIntact(n: Node, t: nat, v: Option<NodeId>)
    requires Intact(n)
    ensures Recover(n.wal + [HardRec(t, v)]).entries == n.log
  {
  }

  lemma VoteIntact(n: Node, r: VoteRequest)
    requires Intact(n)
    ensures Intact(HandleVote(n, r).0)
  {
  }

  lemma FollowerIntact(n: Node, t: nat)
    requires Intact(n)
    ensures Intact(BecomeFollower(n, t))
  {
  }

  lemma RejectIntact(n: Node, r: AppendRequest)
    requires Intact(n) && !HandleAppend(n, r).1.success
    ensures Intact(HandleAppend(n, r).0)
  {
  }

  lemma AppendIntact(n: Node, e: Entry)
    requires Intact(n) && WellIndexed(n.log) && e.index == |n.log| + 1
    ensures Intact(n.(log := n.log + [e], wal := n.wal + [LogRec(e)]))
  {
  }

  lemma ReplyIntact(n: Node, j: NodeId, prev: nat, count: nat, a: AppendReply, q: nat)
    requires Intact(n)
    ensures Intact(HandleReply(n, j, prev, count, a, q))
  {
  }

  lemma WinIntact(n: Node, peers: set<NodeId>)
    requires Intact(n) && WellIndexed(n.log)
    ensures Intact(BecomeLeader(n, peers))
  {
  }

  lemma WellIndexedAt(s: State, h: Past, i: NodeId)
    requires Inv(s, h) && i in s.nodes
    ensures WellIndexed(s.nodes[i].log)
  {
    assert NodeOk(s, h, i);
    LogShape(h, s.nodes[i].log);
  }

  lemma AppendReqIntact(s: State, h: Past, m: Message)
    requires Inv(s, h) && Enabled(s, DeliverAppendReq(m)) && Intact(s.nodes[m.dst])
    requires !ShortBatch(s, DeliverAppendReq(m))
    ensures Intact(After(s, DeliverAppendReq(m)))
  {
    if HandleAppend(s.nodes[m.dst], m.appendReq).1.success {
      IntactIffNotShort(s, h, m);
    } else {
      RejectIntact(s.nodes[m.dst], m.appendReq);
    }
  }

  lemma OtherIntact(s: State, a: Action)
    requires Regular(s, a) && !a.DeliverAppendReq? && Actor(a) in s.nodes
    requires Intact(s.nodes[Actor(a)]) && WellIndexed(s.nodes[Actor(a)].log)
    ensures Intact(After(s, a))
  {
    var n := s.nodes[Actor(a)];
    match a
    case Elect(i) => HardRecIntact(n, n.currentTerm + 1, Some(i));
    case DeliverVoteReq(m) => VoteIntact(n, m.voteReq);
    case DeliverVoteResp(m) => if m.vote.term > n.currentTerm { FollowerIntact(n, m.vote.term); }
    case Win(i) => WinIntact(n, Peers(s, i));
    case Submit(_, _, _, _, _) => AppendIntact(n, Proposed(n, a));
    case DeliverAppendResp(m) => ReplyIntact(n, m.src, m.prevIndex, m.count, m.reply, Quorum(s, m.dst));
    case Crash(i) => ReappendingKeepsRecovery(n.wal);
    case _ =>
  }

  lemma ActionIntact(s: State, h: Past, a: Action, i: NodeId)
    requires Inv(s, h) && Regular(s, a) && i in s.nodes && Intact(s.nodes[i]) && !ShortBatch(s, a)
    ensures i in Do(s, a).nodes && Intact(Do(s, a).nodes[i])
  {
    DoNodes(s, a);
    WellIndexedAt(s, h, i);
    if i == Actor(a) {
      match a
      case DeliverAppendReq(m) => AppendReqIntact(s, h, m);
      case _ => OtherIntact(s, a);
    }
  }

  /** No delivery of the run is a short batch. */
  ghost predicate FullBatches(members: set<NodeId>, run: seq<Action>)
    requires IsRun(members, run)
  {
    forall k :: 0 <= k < |run| ==>
      Enabled(StateAfter(members, run[..k]), run[k]) && !ShortBatch(StateAfter(members, run[..k]), run[k])
  }

  /** In a run without short batches every node can restart at any time and finds the log it had. */
  lemma {:induction false} RestartsAreLossless(members: set<NodeId>, run: seq<Action>, k: nat, i: NodeId)
    requires IsRun(members, run) && FullBatches(members, run) && k <= |run| && i in members
    ensures Intact(At(members, run, k, i))
    ensures Regular(StateAfter(members, run[..k]), Crash(i))
    ensures Restart(At(members, run, k, i)).log == At(members, run, k, i).log
    decreases k
  {
    InvAt(members, run, k);
    if k > 0 {
      RestartsAreLossless(members, run, k - 1, i);
      InvAt(members, run, k - 1);
      StepAt(members, run, k - 1);
      ActionIntact(StateAfter(members, run[..k - 1]), PastAt(members, run, k - 1), run[k - 1], i);
    }
  }

  // ----- stale replies -----

  /** In every reachable state, a reply of a later term than its request is a rejection without hints. */
  lemma StaleRepliesCarryNoHint(members: set<NodeId>, run: seq<Action>, m: Message)
    requires IsRun(members, run) && m in StateAfter(members, run).net && m.AppendResp? && m.reply.term > m.sentTerm
    ensures !m.reply.success && m.reply.conflictIndex == 0 && m.reply.conflictTerm == 0
  {
  }
}
