/** Every action keeps the invariant, hence every state of every run satisfies it. */
module Runs {
  import opened Types
  import opened WalRecords
  import opened NodeSpec
  import opened Cluster
  import opened History
  import opened Invariants
  import opened CalmSteps
  import opened LeaderSteps
  import opened FollowerSteps
  import opened ReplySteps

  /** The past only grows: reigns extend, acknowledgements rise, what is decided stays decided. */
  ghost predicate Grows(members: set<NodeId>, h: Past, h': Past)
  {
    && Extends(h, h')
    && (forall v, t :: v in members ==> Ack(h, v, t) <= Ack(h', v, t))
    && h.decided <= h'.decided
  }

  ghost predicate Keeps(s: State, h: Past, a: Action)
    requires Enabled(s, a)
  {
    && Inv(Do(s, a), Record(h, s, a))
    && Grows(s.nodes.Keys, h, Record(h, s, a))
  }

  lemma MsgOf(s: State, h: Past, m: Message)
    requires NetOk(s, h) && m in s.net
    ensures MsgOk(s, h, m)
  {
  }

  lemma LeaderParts(s: State, h: Past, i: NodeId)
    requires LeadersOk(s, h) && AcksOk(s, h) && i in s.nodes
    ensures LeaderOk(s, h, i) && AckOk(s, h, i, s.nodes[i].currentTerm)
  {
  }

  lemma ElectShape(s: State, h: Past, i: NodeId)
    requires Enabled(s, Elect(i))
    ensures var s', h' := Do(s, Elect(i)), Record(h, s, Elect(i));
            && i in s.nodes
            && s'.nodes == s.nodes[i := StartElection(s.nodes[i], i)]
            && s'.net == s.net + (set j | j in Peers(s, i) :: VoteReq(j, MakeVoteRequest(StartElection(s.nodes[i], i), i)))
            && h' == h.(ballots := h.ballots[(i, s.nodes[i].currentTerm + 1) := Ballot(i, s.nodes[i].log)])
            && Grows(s.nodes.Keys, h, h')
  {
  }

  lemma ElectKeeps(s: State, h: Past, i: NodeId)
    requires Inv(s, h) && Enabled(s, Elect(i))
    ensures Keeps(s, h, Elect(i))
  {
    ElectShape(s, h, i);
    ElectInv(s, h, i, Do(s, Elect(i)), Record(h, s, Elect(i)));
  }

  lemma VoteReqShape(s: State, h: Past, m: Message)
    requires Enabled(s, DeliverVoteReq(m))
    ensures var s', h', i, r := Do(s, DeliverVoteReq(m)), Record(h, s, DeliverVoteReq(m)), m.dst, m.voteReq;
            && i in s.nodes
            && (var (n', reply) := HandleVote(s.nodes[i], r);
                && s' == State(s.nodes[i := n'], s.net + {VoteResp(i, r.candidate, r.term, reply)})
                && h' == if reply.granted then WithBallot(h, i, r.term, r.candidate, s.nodes[i].log) else h)
            && Grows(s.nodes.Keys, h, h')
  {
  }

  lemma VoteReqKeeps(s: State, h: Past, m: Message)
    requires Inv(s, h) && Enabled(s, DeliverVoteReq(m))
    ensures Keeps(s, h, DeliverVoteReq(m))
  {
    VoteReqShape(s, h, m);
    MsgOf(s, h, m);
    VoteReqInv(s, h, m.dst, m.voteReq, Do(s, DeliverVoteReq(m)), Record(h, s, DeliverVoteReq(m)));
  }

  lemma VoteRespShape(s: State, h: Past, m: Message)
    requires Enabled(s, DeliverVoteResp(m))
    ensures m.dst in s.nodes && Record(h, s, DeliverVoteResp(m)) == h
    ensures Do(s, DeliverVoteResp(m)) == State(s.nodes[m.dst := CountVote(s.nodes[m.dst], m.src, m.electionTerm, m.vote)], s.net)
    ensures Grows(s.nodes.Keys, h, h)
  {
  }

  lemma VoteRespKeeps(s: State, h: Past, m: Message)
    requires Inv(s, h) && Enabled(s, DeliverVoteResp(m))
    ensures Keeps(s, h, DeliverVoteResp(m))
  {
    VoteRespShape(s, h, m);
    MsgOf(s, h, m);
    VoteRespInv(s, h, m.dst, m.src, m.electionTerm, m.vote, Do(s, DeliverVoteResp(m)));
  }

  lemma WinGrows(s: State, h: Past, i: NodeId)
    requires AcksOk(s, h) && Enabled(s, Win(i)) && s.nodes[i].currentTerm !in h.reigns
    ensures Grows(s.nodes.Keys, h, Record(h, s, Win(i)))
  {
    assert AckOk(s, h, i, s.nodes[i].currentTerm);
  }

  lemma WinIsWins(s: State, h: Past, i: NodeId)
    requires Enabled(s, Win(i)) && s.nodes[i].currentTerm !in h.reigns && Majority(s.nodes.Keys, s.nodes[i].votes)
    ensures Wins(s, h, i, Do(s, Win(i)), Record(h, s, Win(i)))
  {
    BecomeLeaderCrowns(s.nodes[i], Peers(s, i));
  }

  lemma WinKeeps(s: State, h: Past, i: NodeId)
    requires Inv(s, h) && Enabled(s, Win(i))
    ensures Keeps(s, h, Win(i))
  {
    WinnerIsFirst(s, h, i);
    WinGrows(s, h, i);
    WinIsWins(s, h, i);
    WinInv(s, h, i, Do(s, Win(i)), Record(h, s, Win(i)));
  }

  function Proposed(n: Node, a: Action): Entry
    requires a.Submit?
  {
    Entry(n.currentTerm, |n.log| + 1, a.op, a.key, a.value, a.ttlMs)
  }

  lemma SubmitShape(s: State, h: Past, a: Action)
    requires a.Submit? && Enabled(s, a) && LeaderOk(s, h, a.node) && AckOk(s, h, a.node, s.nodes[a.node].currentTerm)
    ensures var s', h', n, e := Do(s, a), Record(h, s, a), s.nodes[a.node], Proposed(s.nodes[a.node], a);
            && s' == State(s.nodes[a.node := n.(log := n.log + [e], wal := n.wal + [LogRec(e)])], s.net)
            && n.currentTerm in h.reigns
            && h' == h.(reigns := h.reigns[n.currentTerm := h.reigns[n.currentTerm].(log := n.log + [e])],
                        acks := h.acks[(a.node, n.currentTerm) := |n.log| + 1])
            && Grows(s.nodes.Keys, h, h')
  {
  }

  lemma SubmitKeeps(s: State, h: Past, a: Action)
    requires Inv(s, h) && a.Submit? && Enabled(s, a)
    ensures Keeps(s, h, a)
  {
    LeaderParts(s, h, a.node);
    SubmitShape(s, h, a);
    SubmitInv(s, h, a.node, Proposed(s.nodes[a.node], a), Do(s, a), Record(h, s, a));
  }

  lemma ReplicateShape(s: State, h: Past, i: NodeId, j: NodeId)
    requires Enabled(s, Replicate(i, j))
    ensures Record(h, s, Replicate(i, j)) == h && Grows(s.nodes.Keys, h, h)
    ensures Do(s, Replicate(i, j)) == State(s.nodes, s.net + {AppendReq(j, MakeAppend(s.nodes[i], i, j))})
  {
  }

  lemma ReplicateKeeps(s: State, h: Past, i: NodeId, j: NodeId)
    requires Inv(s, h) && Enabled(s, Replicate(i, j))
    ensures Keeps(s, h, Replicate(i, j))
  {
    ReplicateShape(s, h, i, j);
    ReplicateInv(s, h, i, j, Do(s, Replicate(i, j)));
  }

  lemma AppendReqShape(s: State, h: Past, m: Message)
    requires Enabled(s, DeliverAppendReq(m))
    ensures var s', h', i, r := Do(s, DeliverAppendReq(m)), Record(h, s, DeliverAppendReq(m)), m.dst, m.appendReq;
            && i in s.nodes && AppendReq(i, r) in s.net
            && (var (n', reply) := HandleAppend(s.nodes[i], r);
                && s' == State(s.nodes[i := n'], s.net + {AppendResp(i, r.leader, r.term, r.prevIndex, |r.entries|, reply)})
                && h' == if reply.success then WithAck(h, i, r) else h)
            && Grows(s.nodes.Keys, h, h')
  {
    assert m == AppendReq(m.dst, m.appendReq);
  }

  lemma AppendReqKeeps(s: State, h: Past, m: Message)
    requires Inv(s, h) && Enabled(s, DeliverAppendReq(m))
    ensures Keeps(s, h, DeliverAppendReq(m))
  {
    AppendReqShape(s, h, m);
    AppendReqInv(s, h, m.dst, m.appendReq, Do(s, DeliverAppendReq(m)), Record(h, s, DeliverAppendReq(m)));
  }

  lemma AppendRespShape(s: State, h: Past, m: Message)
    requires Enabled(s, DeliverAppendResp(m))
    ensures var s', h', i := Do(s, DeliverAppendResp(m)), Record(h, s, DeliverAppendResp(m)), m.dst;
            && i in s.nodes
            && s' == State(s.nodes[i := HandleReply(s.nodes[i], m.src, m.prevIndex, m.count, m.reply, Quorum(s, i))], s.net)
            && h' == WithDecision(h, s'.nodes[i])
            && (h.decided <= h'.decided ==> Grows(s.nodes.Keys, h, h'))
  {
  }

  lemma AppendRespKeeps(s: State, h: Past, m: Message)
    requires Inv(s, h) && Regular(s, DeliverAppendResp(m))
    ensures Keeps(s, h, DeliverAppendResp(m))
  {
    AppendRespShape(s, h, m);
    MsgOf(s, h, m);
    AppendRespInv(s, h, m.dst, m.src, m.sentTerm, m.prevIndex, m.count, m.reply,
                  Do(s, DeliverAppendResp(m)), Record(h, s, DeliverAppendResp(m)));
  }

  lemma ApplyShape(s: State, h: Past, i: NodeId)
    requires Enabled(s, Apply(i))
    ensures Do(s, Apply(i)) == State(s.nodes[i := ApplyNext(s.nodes[i])], s.net)
    ensures Record(h, s, Apply(i)) == h && Grows(s.nodes.Keys, h, h)
  {
  }

  lemma ApplyKeeps(s: State, h: Past, i: NodeId)
    requires Inv(s, h) && Enabled(s, Apply(i))
    ensures Keeps(s, h, Apply(i))
  {
    ApplyShape(s, h, i);
    ApplyInv(s, h, i, Do(s, Apply(i)));
  }

  lemma CrashShape(s: State, h: Past, i: NodeId)
    requires Enabled(s, Crash(i))
    ensures Do(s, Crash(i)) == State(s.nodes[i := Restart(s.nodes[i])], s.net)
    ensures Record(h, s, Crash(i)) == h && Grows(s.nodes.Keys, h, h)
  {
  }

  lemma CrashKeeps(s: State, h: Past, i: NodeId)
    requires Inv(s, h) && Regular(s, Crash(i))
    ensures Keeps(s, h, Crash(i))
  {
    CrashShape(s, h, i);
    CrashInv(s, h, i, Do(s, Crash(i)));
  }

  lemma ElectionKeeps(s: State, h: Past, a: Action)
    requires Inv(s, h) && Regular(s, a) && (a.Elect? || a.DeliverVoteReq? || a.DeliverVoteResp? || a.Win?)
    ensures Keeps(s, h, a)
  {
    match a
    case Elect(i) => ElectKeeps(s, h, i);
    case DeliverVoteReq(m) => VoteReqKeeps(s, h, m);
    case DeliverVoteResp(m) => VoteRespKeeps(s, h, m);
    case Win(i) => WinKeeps(s, h, i);
  }

  lemma ReplicationKeeps(s: State, h: Past, a: Action)
    requires Inv(s, h) && Regular(s, a) && (a.Submit? || a.Replicate? || a.DeliverAppendReq? || a.DeliverAppendResp?)
    ensures Keeps(s, h, a)
  {
    match a
    case Submit(_, _, _, _, _) => SubmitKeeps(s, h, a);
    case Replicate(i, j) => ReplicateKeeps(s, h, i, j);
    case DeliverAppendReq(m) => AppendReqKeeps(s, h, m);
    case DeliverAppendResp(m) => AppendRespKeeps(s, h, m);
  }

  /** The invariant is inductive. */
  lemma ActionKeeps(s: State, h: Past, a: Action)
    requires Inv(s, h) && Regular(s, a)
    ensures Keeps(s, h, a)
  {
    match a
    case Apply(i) => ApplyKeeps(s, h, i);
    case Crash(i) => CrashKeeps(s, h, i);
    case Elect(_) => ElectionKeeps(s, h, a);
    case DeliverVoteReq(_) => ElectionKeeps(s, h, a);
    case DeliverVoteResp(_) => ElectionKeeps(s, h, a);
    case Win(_) => ElectionKeeps(s, h, a);
    case _ => ReplicationKeeps(s, h, a);
  }

  // ----- runs -----

  ghost function PastAfter(members: set<NodeId>, run: seq<Action>): Past
  {
    if run == [] then NO_PAST
    else
      var s, h, a := StateAfter(members, run[..|run| - 1]), PastAfter(members, run[..|run| - 1]), run[|run| - 1];
      if Enabled(s, a) then Record(h, s, a) else h
  }

  lemma {:induction false} RunInv(members: set<NodeId>, run: seq<Action>)
    requires IsRun(members, run)
    ensures Inv(StateAfter(members, run), PastAfter(members, run))
    ensures StateAfter(members, run).nodes.Keys == members
  {
    if run == [] {
      InitInv(members);
    } else {
      var front, a := run[..|run| - 1], run[|run| - 1];
      RunInv(members, front);
      ActionKeeps(StateAfter(members, front), PastAfter(members, front), a);
    }
  }

  lemma {:induction false} RunPrefix(members: set<NodeId>, run: seq<Action>, k: nat)
    requires IsRun(members, run) && k <= |run|
    ensures IsRun(members, run[..k])
  {
    if k < |run| {
      RunPrefix(members, run[..|run| - 1], k);
      assert run[..|run| - 1][..k] == run[..k];
    } else {
      assert run[..k] == run;
    }
  }

  lemma GrowsTransitive(members: set<NodeId>, h1: Past, h2: Past, h3: Past)
    requires Grows(members, h1, h2) && Grows(members, h2, h3)
    ensures Grows(members, h1, h3)
  {
  }

  lemma {:induction false} RunGrows(members: set<NodeId>, run: seq<Action>, k: nat)
    requires IsRun(members, run) && k <= |run|
    ensures Grows(members, PastAfter(members, run[..k]), PastAfter(members, run))
  {
    if k == |run| {
      assert run[..k] == run;
    } else {
      var front, a := run[..|run| - 1], run[|run| - 1];
      RunGrows(members, front, k);
      assert front[..k] == run[..k];
      RunInv(members, front);
      ActionKeeps(StateAfter(members, front), PastAfter(members, front), a);
      GrowsTransitive(members, PastAfter(members, run[..k]), PastAfter(members, front), PastAfter(members, run));
    }
  }
}
