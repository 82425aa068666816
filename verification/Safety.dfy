/** What the protocol guarantees over whole runs, stated on the cluster's own state. */
module Safety {
  import opened Types
  import opened Logs
  import opened Backtracking
  import opened NodeSpec
  import opened Cluster
  import opened History
  import opened Invariants
  import opened CalmSteps
  import opened FollowerSteps
  import opened Runs

  /** Node `i` after the first `k` actions of the run. */
  ghost function At(members: set<NodeId>, run: seq<Action>, k: nat, i: NodeId): Node
    requires IsRun(members, run) && k <= |run| && i in members
  {
    RunPrefix(members, run, k);
    RunInv(members, run[..k]);
    StateAfter(members, run[..k]).nodes[i]
  }

  ghost function PastAt(members: set<NodeId>, run: seq<Action>, k: nat): Past
    requires k <= |run|
  {
    PastAfter(members, run[..k])
  }

  lemma InvAt(members: set<NodeId>, run: seq<Action>, k: nat)
    requires IsRun(members, run) && k <= |run|
    ensures Inv(StateAfter(members, run[..k]), PastAt(members, run, k))
    ensures StateAfter(members, run[..k]).nodes.Keys == members
    ensures IsRun(members, run[..k])
  {
    RunPrefix(members, run, k);
    RunInv(members, run[..k]);
  }

  lemma GrowsAt(members: set<NodeId>, run: seq<Action>, j: nat, k: nat)
    requires IsRun(members, run) && j <= k <= |run|
    ensures Grows(members, PastAt(members, run, j), PastAt(members, run, k))
  {
    RunPrefix(members, run, k);
    RunGrows(members, run[..k], j);
    assert run[..k][..j] == run[..j];
  }

  lemma StepAt(members: set<NodeId>, run: seq<Action>, j: nat)
    requires IsRun(members, run) && j < |run|
    ensures var s := StateAfter(members, run[..j]);
            Regular(s, run[j]) && StateAfter(members, run[..j + 1]) == Do(s, run[j])
            && PastAt(members, run, j + 1) == Record(PastAt(members, run, j), s, run[j])
  {
    RunPrefix(members, run, j + 1);
    assert run[..j + 1][..j] == run[..j] && run[..j + 1][j] == run[j];
  }

  // ----- election safety -----

  lemma LeaderInPast(members: set<NodeId>, run: seq<Action>, k: nat, i: NodeId)
    requires IsRun(members, run) && k <= |run| && i in members && At(members, run, k, i).role == Leader
    ensures var n, h := At(members, run, k, i), PastAt(members, run, k);
            n.currentTerm in h.reigns && h.reigns[n.currentTerm].leader == i && h.reigns[n.currentTerm].log == n.log
  {
    InvAt(members, run, k);
    assert LeaderOk(StateAfter(members, run[..k]), PastAt(members, run, k), i);
  }

  /** At most one node is ever leader in a term, across the whole run and across restarts. */
  lemma ElectionSafety(members: set<NodeId>, run: seq<Action>, j: nat, k: nat, a: NodeId, b: NodeId)
    requires IsRun(members, run) && j <= k <= |run| && a in members && b in members
    requires At(members, run, j, a).role == Leader && At(members, run, k, b).role == Leader
    requires At(members, run, j, a).currentTerm == At(members, run, k, b).currentTerm
    ensures a == b
    ensures At(members, run, j, a).log <= At(members, run, k, b).log
  {
    LeaderInPast(members, run, j, a);
    LeaderInPast(members, run, k, b);
    GrowsAt(members, run, j, k);
    var h, h', t := PastAt(members, run, j), PastAt(members, run, k), At(members, run, j, a).currentTerm;
    assert LaterReign(h.reigns[t], h'.reigns[t]);
  }

  // ----- log matching -----

  /** In every reachable state two logs with the same term at an index are equal up to it, and a term starts at the same index in both. */
  lemma LogMatching(members: set<NodeId>, run: seq<Action>, k: nat, a: NodeId, b: NodeId)
    requires IsRun(members, run) && k <= |run| && a in members && b in members
    ensures var x, y := At(members, run, k, a).log, At(members, run, k, b).log;
            && Matching(x, y) && Aligned(x, y)
            && Ascending(x) && Positive(x) && WellIndexed(x)
  {
    InvAt(members, run, k);
    var s, h := StateAfter(members, run[..k]), PastAt(members, run, k);
    assert NodeOk(s, h, a) && NodeOk(s, h, b);
    LogsMatching(h, s.nodes[a].log, s.nodes[b].log);
    LogsAligned(h, s.nodes[a].log, s.nodes[b].log);
    LogShape(h, s.nodes[a].log);
  }

  // ----- state machine safety -----

  lemma CommitOkApplied(s: State, h: Past, i: NodeId)
    requires i in s.nodes && CommitOk(s, h, i)
    ensures var n := s.nodes[i];
            n.applied <= h.decided && |n.applied| == n.lastApplied <= n.commitIndex <= |n.log|
            && n.applied == n.log[..n.lastApplied]
  {
  }

  lemma AppliedIsDecided(members: set<NodeId>, run: seq<Action>, k: nat, i: NodeId)
    requires IsRun(members, run) && k <= |run| && i in members
    ensures var n, h := At(members, run, k, i), PastAt(members, run, k);
            n.applied <= h.decided && |n.applied| == n.lastApplied <= n.commitIndex <= |n.log|
            && n.applied == n.log[..n.lastApplied]
  {
    InvAt(members, run, k);
    CommitOkApplied(StateAfter(members, run[..k]), PastAt(members, run, k), i);
  }

  /** No two nodes ever apply different entries at the same index: of any two applied sequences one is a prefix of the other. */
  lemma StateMachineSafety(members: set<NodeId>, run: seq<Action>, j: nat, k: nat, a: NodeId, b: NodeId)
    requires IsRun(members, run) && j <= k <= |run| && a in members && b in members
    ensures var x, y := At(members, run, j, a).applied, At(members, run, k, b).applied; x <= y || y <= x
  {
    AppliedIsDecided(members, run, j, a);
    AppliedIsDecided(members, run, k, b);
    GrowsAt(members, run, j, k);
    var x, y, d := At(members, run, j, a).applied, At(members, run, k, b).applied, PastAt(members, run, k).decided;
    assert x <= d && y <= d;
    PrefixesOfOne(x, y, d);
  }

  lemma PrefixesOfOne(x: Log, y: Log, d: Log)
    requires x <= d && y <= d
    ensures x <= y || y <= x
  {
  }

  // ----- leader completeness -----

  lemma CertifiedGrows(members: set<NodeId>, h: Past, h': Past, t: nat, u: nat, c: nat)
    requires Grows(members, h, h') && Certified(members, h, t, c) && t <= u
    ensures Certified(members, h', u, c)
  {
    if c > 0 {
      var v: nat, n: nat :| v <= t && c <= n && Committed(members, h, v, n);
      assert LaterReign(h.reigns[v], h'.reigns[v]);
      LargerMajority(members, Holders(members, h, v, n), Holders(members, h', v, n));
      assert v <= u && c <= n && Committed(members, h', v, n);
    }
  }

  lemma CompleteFromThenOn(members: set<NodeId>, run: seq<Action>, j: nat, k: nat, a: NodeId, b: NodeId)
    requires IsRun(members, run) && j <= k <= |run| && a in members && b in members
    requires At(members, run, k, b).role == Leader
    requires At(members, run, j, a).currentTerm <= At(members, run, k, b).currentTerm
    ensures var n := At(members, run, j, a); Agree(n.log, At(members, run, k, b).log, n.commitIndex)
  {
    var s, h := StateAfter(members, run[..j]), PastAt(members, run, j);
    var s', h' := StateAfter(members, run[..k]), PastAt(members, run, k);
    InvAt(members, run, j);
    InvAt(members, run, k);
    GrowsAt(members, run, j, k);
    LeaderInPast(members, run, k, b);
    assert CommitOk(s, h, a);
    var c, u := s.nodes[a].commitIndex, s'.nodes[b].currentTerm;
    CertifiedGrows(members, h, h', s.nodes[a].currentTerm, u, c);
    CertifiedInReign(s', h', u, c);
    AgreePrefix(s.nodes[a].log, h.decided, h'.decided, c);
  }

  /** What an earlier term has committed was in the leader's log of `u` when it was elected. */
  lemma CommittedInStart(s: State, h: Past, t: nat, n: nat, u: nat)
    requires ReignsOk(h) && LeadersComplete(s, h) && Committed(s.nodes.Keys, h, t, n) && t < u && u in h.reigns
    ensures n <= |h.reigns[u].start|
  {
    CommittedIsChoosable(s, h, t, n);
    AgreeAt(h.reigns[t].log, h.reigns[u].log, n, n - 1);
    assert ReignShape(u, h.reigns[u]);
  }

  lemma CertifiedInStart(s: State, h: Past, t: nat, c: nat, u: nat)
    requires ReignsOk(h) && LeadersComplete(s, h) && DecidedOk(s, h) && t < u && u in h.reigns
    requires Certified(s.nodes.Keys, h, t, c) && c <= |h.decided|
    ensures Agree(h.decided, h.reigns[u].start, c)
  {
    if c > 0 {
      var v: nat, n: nat :| v <= t && c <= n && Committed(s.nodes.Keys, h, v, n);
      CommittedInStart(s, h, v, n, u);
      assert v <= u && c <= n && Committed(s.nodes.Keys, h, v, n);
      CertifiedInReign(s, h, u, c);
      assert ReignShape(u, h.reigns[u]);
      assert h.reigns[u].start[..c] == h.reigns[u].log[..c];
    }
  }

  lemma CommitInStart(s: State, h: Past, i: NodeId, u: nat)
    requires ReignsOk(h) && LeadersComplete(s, h) && DecidedOk(s, h) && u in h.reigns
    requires i in s.nodes && CommitOk(s, h, i) && s.nodes[i].currentTerm < u
    ensures Agree(s.nodes[i].log, h.reigns[u].start, s.nodes[i].commitIndex)
  {
    CertifiedInStart(s, h, s.nodes[i].currentTerm, s.nodes[i].commitIndex, u);
  }

  /** A leader that led before the commit was made had the entries too. */
  lemma CompleteEarlier(members: set<NodeId>, run: seq<Action>, j: nat, k: nat, a: NodeId, b: NodeId)
    requires IsRun(members, run) && k <= j <= |run| && a in members && b in members
    requires At(members, run, k, b).role == Leader
    requires At(members, run, j, a).currentTerm < At(members, run, k, b).currentTerm
    ensures var n := At(members, run, j, a); Agree(n.log, At(members, run, k, b).log, n.commitIndex)
  {
    var s, h, h' := StateAfter(members, run[..j]), PastAt(members, run, j), PastAt(members, run, k);
    var u, c := At(members, run, k, b).currentTerm, At(members, run, j, a).commitIndex;
    InvAt(members, run, j);
    LeaderInPast(members, run, k, b);
    GrowsAt(members, run, k, j);
    assert LaterReign(h'.reigns[u], h.reigns[u]);
    InvAt(members, run, k);
    assert ReignShape(u, h'.reigns[u]);
    assert CommitOk(s, h, a);
    CommitInStart(s, h, a, u);
    AgreePrefix(s.nodes[a].log, h.reigns[u].start, h'.reigns[u].log, c);
  }

  /**
   What any node has committed is in the log of every leader of every later term, whenever that leader
   led, and in the log of every leader of the same term from then on.
   */
  lemma LeaderCompleteness(members: set<NodeId>, run: seq<Action>, j: nat, k: nat, a: NodeId, b: NodeId)
    requires IsRun(members, run) && j <= |run| && k <= |run| && a in members && b in members
    requires At(members, run, k, b).role == Leader
    requires var t, u := At(members, run, j, a).currentTerm, At(members, run, k, b).currentTerm; t < u || (t == u && j <= k)
    ensures var n := At(members, run, j, a); Agree(n.log, At(members, run, k, b).log, n.commitIndex)
  {
    if j <= k {
      CompleteFromThenOn(members, run, j, k, a, b);
    } else {
      CompleteEarlier(members, run, j, k, a, b);
    }
  }

  // ----- counters -----

  /** The commit index and the applied entries of one node over one action that is not its own restart. */
  ghost predicate Forward(n: Node, n': Node)
  {
    n.commitIndex <= n'.commitIndex && n.applied <= n'.applied && Agree(n.log, n'.log, n.commitIndex)
  }

  lemma RejectForward(n: Node, r: AppendRequest)
    requires n.commitIndex <= |n.log| && !HandleAppend(n, r).1.success
    ensures Forward(n, HandleAppend(n, r).0)
  {
  }

  /** Between adopting the request's term and deciding on it. */
  lemma AdoptedOk(s: State, h: Past, i: NodeId, r: AppendRequest, s1: State)
    requires i in s.nodes && AppendReq(i, r) in s.net && s1 == State(s.nodes[i := AdoptTerm(s.nodes[i], r.term)], s.net)
    requires Inv(s, h)
    ensures Inv(s1, h) && AppendReqOk(s1, h, i, r)
  {
    AdoptInv(s, h, i, r.term, s1);
    MsgOf(s1, h, AppendReq(i, r));
  }

  lemma AppendReqForward(s: State, h: Past, i: NodeId, r: AppendRequest)
    requires i in s.nodes && AppendReq(i, r) in s.net
    requires Inv(s, h)
    ensures Forward(s.nodes[i], HandleAppend(s.nodes[i], r).0)
  {
    if HandleAppend(s.nodes[i], r).1.success {
      var s1 := State(s.nodes[i := AdoptTerm(s.nodes[i], r.term)], s.net);
      AdoptedOk(s, h, i, r, s1);
      SuccessIsAcceptance(s.nodes[i], r);
      AcceptForward(s1, h, i, r);
    } else {
      CommitInLog(s, h, i);
      RejectForward(s.nodes[i], r);
    }
  }

  lemma AcceptForward(s: State, h: Past, i: NodeId, r: AppendRequest)
    requires Inv(s, h) && AppendReqOk(s, h, i, r) && s.nodes[i].currentTerm == r.term
    requires Check(s.nodes[i].log, r.prevIndex, r.prevTerm) == Accept
    ensures Forward(s.nodes[i], AcceptAppend(s.nodes[i], r))
    ensures AcceptAppend(s.nodes[i], r).log <= h.reigns[r.term].log
    ensures AcceptAppend(s.nodes[i], r).commitIndex <= |AcceptAppend(s.nodes[i], r).log|
  {
    var s', h' := State(s.nodes[i := AcceptAppend(s.nodes[i], r)], s.net), WithAck(h, i, r);
    assert AckOk(s, h, i, r.term);
    AcceptIsWell(s, h, i, r, s', h');
    AcceptCommitOk(s, h, i, r, s', h');
  }

  lemma ReplyForward(n: Node, j: NodeId, prev: nat, count: nat, a: AppendReply, q: nat)
    requires n.commitIndex <= |n.log|
    ensures Forward(n, HandleReply(n, j, prev, count, a, q))
  {
    var m := Max(MatchOf(n, j), prev + count);
    var n1 := n.(matchIndex := n.matchIndex[j := m], nextIndex := n.nextIndex[j := m + 1]);
    CommitSearchFinds(n1, |n.log|, q);
  }

  lemma OtherForward(s: State, a: Action)
    requires Enabled(s, a) && !a.Crash? && !a.DeliverAppendReq? && !a.DeliverAppendResp?
    requires Actor(a) in s.nodes && s.nodes[Actor(a)].commitIndex <= |s.nodes[Actor(a)].log|
    ensures Forward(s.nodes[Actor(a)], After(s, a))
  {
  }

  lemma DoNodes(s: State, a: Action)
    requires Enabled(s, a)
    ensures Actor(a) in s.nodes && Do(s, a).nodes == s.nodes[Actor(a) := After(s, a)]
  {
  }

  lemma CommitInLog(s: State, h: Past, i: NodeId)
    requires Inv(s, h) && i in s.nodes
    ensures s.nodes[i].commitIndex <= |s.nodes[i].log|
  {
  }

  lemma ReplyActionForward(s: State, m: Message)
    requires Enabled(s, DeliverAppendResp(m)) && s.nodes[m.dst].commitIndex <= |s.nodes[m.dst].log|
    ensures Forward(s.nodes[m.dst], After(s, DeliverAppendResp(m)))
  {
    ReplyForward(s.nodes[m.dst], m.src, m.prevIndex, m.count, m.reply, Quorum(s, m.dst));
  }

  lemma ActorForward(s: State, h: Past, a: Action)
    requires Inv(s, h) && Enabled(s, a) && !a.Crash?
    ensures Actor(a) in s.nodes && Forward(s.nodes[Actor(a)], After(s, a))
  {
    DoNodes(s, a);
    if a.DeliverAppendReq? {
      assert a.msg == AppendReq(a.msg.dst, a.msg.appendReq);
      AppendReqForward(s, h, a.msg.dst, a.msg.appendReq);
    } else {
      CommitInLog(s, h, Actor(a));
      if a.DeliverAppendResp? {
        ReplyActionForward(s, a.msg);
      } else {
        OtherForward(s, a);
      }
    }
  }

  lemma ActionForward(s: State, h: Past, a: Action, i: NodeId)
    requires Inv(s, h) && Enabled(s, a) && i in s.nodes && a != Crash(i)
    ensures i in Do(s, a).nodes && Forward(s.nodes[i], Do(s, a).nodes[i])
  {
    DoNodes(s, a);
    CommitInLog(s, h, i);
    if i == Actor(a) {
      ActorForward(s, h, a);
    }
  }

  lemma ForwardTransitive(n1: Node, n2: Node, n3: Node)
    requires Forward(n1, n2) && Forward(n2, n3)
    ensures Forward(n1, n3)
  {
  }

  /** Between restarts of a node neither counter decreases and nothing committed is ever cut from its log. */
  lemma {:induction false} CountersNeverFall(members: set<NodeId>, run: seq<Action>, j: nat, k: nat, i: NodeId)
    requires IsRun(members, run) && j <= k <= |run| && i in members
    requires forall l :: j <= l < k ==> run[l] != Crash(i)
    ensures Forward(At(members, run, j, i), At(members, run, k, i))
    decreases k
  {
    if j == k {
      InvAt(members, run, j);
      CommitInLog(StateAfter(members, run[..j]), PastAt(members, run, j), i);
    } else {
      CountersNeverFall(members, run, j, k - 1, i);
      InvAt(members, run, k - 1);
      StepAt(members, run, k - 1);
      ActionForward(StateAfter(members, run[..k - 1]), PastAt(members, run, k - 1), run[k - 1], i);
      ForwardTransitive(At(members, run, j, i), At(members, run, k - 1, i), At(members, run, k, i));
    }
  }

  // ----- accepted batches -----

  lemma SuccessIsAcceptance(n: Node, r: AppendRequest)
    requires HandleAppend(n, r).1.success
    ensures var n1 := AdoptTerm(n, r.term);
            && n1.currentTerm == r.term && Check(n1.log, r.prevIndex, r.prevTerm) == Accept
            && HandleAppend(n, r).0 == AcceptAppend(n1, r)
  {
  }

  lemma AcceptedInReign(s: State, h: Past, i: NodeId, r: AppendRequest, n': Node)
    requires i in s.nodes && AppendReq(i, r) in s.net
    requires HandleAppend(s.nodes[i], r).1.success && n' == HandleAppend(s.nodes[i], r).0
    requires Inv(s, h)
    ensures r.term in h.reigns && n'.log <= h.reigns[r.term].log && n'.commitIndex <= |n'.log|
  {
    var s1 := State(s.nodes[i := AdoptTerm(s.nodes[i], r.term)], s.net);
    AdoptedOk(s, h, i, r, s1);
    SuccessIsAcceptance(s.nodes[i], r);
    AcceptForward(s1, h, i, r);
  }

  /** Action `j` of the run is the delivery of `m`, and the node accepts it. */
  ghost predicate AcceptedAt(members: set<NodeId>, run: seq<Action>, j: nat, m: Message)
    requires IsRun(members, run)
  {
    && j < |run| && run[j] == DeliverAppendReq(m) && m.AppendReq? && m.dst in members
    && HandleAppend(At(members, run, j, m.dst), m.appendReq).1.success
  }

  lemma AcceptedNode(members: set<NodeId>, run: seq<Action>, j: nat, m: Message)
    requires IsRun(members, run) && AcceptedAt(members, run, j, m)
    ensures m.dst in StateAfter(members, run[..j]).nodes && AppendReq(m.dst, m.appendReq) in StateAfter(members, run[..j]).net
    ensures At(members, run, j + 1, m.dst) == HandleAppend(At(members, run, j, m.dst), m.appendReq).0
  {
    KeysAt(members, run, j);
    StepAt(members, run, j);
    assert m == AppendReq(m.dst, m.appendReq);
  }

  lemma AcceptedWithin(members: set<NodeId>, run: seq<Action>, j: nat, m: Message)
    requires IsRun(members, run) && AcceptedAt(members, run, j, m)
    ensures m.appendReq.term in PastAt(members, run, j).reigns
    ensures var n := At(members, run, j + 1, m.dst);
            n.log <= PastAt(members, run, j).reigns[m.appendReq.term].log && n.commitIndex <= |n.log|
  {
    InvAt(members, run, j);
    AcceptedNode(members, run, j, m);
    AcceptedInReign(StateAfter(members, run[..j]), PastAt(members, run, j), m.dst, m.appendReq, At(members, run, j + 1, m.dst));
  }

  /** The log of the reign of `t` is the log its leader had at moment `k`. */
  ghost predicate HeldAt(members: set<NodeId>, run: seq<Action>, r: Reign, t: nat, k: nat)
    requires IsRun(members, run) && k <= |run|
  {
    r.leader in members && var n := At(members, run, k, r.leader); n.role == Leader && n.currentTerm == t && n.log == r.log
  }

  /** An action changes at most the record of the reign its node then leads. */
  lemma ReignsChange(s: State, h: Past, a: Action, t: nat)
    requires Enabled(s, a) && t in Record(h, s, a).reigns
    requires a.Submit? ==> LeaderOk(s, h, a.node)
    ensures (t in h.reigns && Record(h, s, a).reigns[t] == h.reigns[t])
            || var r := Record(h, s, a).reigns[t];
               r.leader in s.nodes && r.leader == Actor(a)
               && After(s, a).role == Leader && After(s, a).currentTerm == t && After(s, a).log == r.log
  {
    match a
    case Win(_) =>
    case Submit(_, _, _, _, _) =>
    case _ =>
  }

  lemma NoReignsYet(members: set<NodeId>, run: seq<Action>)
    ensures PastAt(members, run, 0).reigns == map[]
  {
    assert run[..0] == [];
  }

  lemma ProposerLeads(members: set<NodeId>, run: seq<Action>, j: nat)
    requires IsRun(members, run) && j < |run| && run[j].Submit?
    ensures run[j].node in StateAfter(members, run[..j]).nodes
    ensures LeaderOk(StateAfter(members, run[..j]), PastAt(members, run, j), run[j].node)
  {
    InvAt(members, run, j);
    StepAt(members, run, j);
  }

  lemma ReignStep(members: set<NodeId>, run: seq<Action>, j: nat, t: nat)
    requires IsRun(members, run) && j < |run| && t in PastAt(members, run, j + 1).reigns
    ensures var r := PastAt(members, run, j + 1).reigns[t];
            (t in PastAt(members, run, j).reigns && PastAt(members, run, j).reigns[t] == r) || HeldAt(members, run, r, t, j + 1)
  {
    var s, h, a := StateAfter(members, run[..j]), PastAt(members, run, j), run[j];
    StepAt(members, run, j);
    if a.Submit? { ProposerLeads(members, run, j); }
    ReignsChange(s, h, a, t);
    DoNodes(s, a);
    KeysAt(members, run, j);
  }

  lemma KeysAt(members: set<NodeId>, run: seq<Action>, j: nat)
    requires IsRun(members, run) && j <= |run|
    ensures StateAfter(members, run[..j]).nodes.Keys == members
  {
    InvAt(members, run, j);
  }

  lemma {:induction false} ReignWasHeld(members: set<NodeId>, run: seq<Action>, j: nat, t: nat)
    requires IsRun(members, run) && j <= |run| && t in PastAt(members, run, j).reigns
    ensures exists k: nat :: k <= j && HeldAt(members, run, PastAt(members, run, j).reigns[t], t, k)
    decreases j
  {
    NoReignsYet(members, run);
    if j > 0 {
      ReignStep(members, run, j - 1, t);
      if !HeldAt(members, run, PastAt(members, run, j).reigns[t], t, j) {
        ReignWasHeld(members, run, j - 1, t);
      }
    }
  }

  lemma SenderOf(members: set<NodeId>, run: seq<Action>, j: nat, m: Message)
    requires IsRun(members, run) && AcceptedAt(members, run, j, m)
    ensures m.appendReq.term in PastAt(members, run, j).reigns
    ensures PastAt(members, run, j).reigns[m.appendReq.term].leader == m.appendReq.leader
  {
    InvAt(members, run, j);
    StepAt(members, run, j);
    assert MsgOk(StateAfter(members, run[..j]), PastAt(members, run, j), m);
  }

  /** At moment `k` node `i` leads term `t` with a log that has `log` as a prefix. */
  ghost predicate LedWith(members: set<NodeId>, run: seq<Action>, k: nat, i: NodeId, t: nat, log: Log)
    requires IsRun(members, run) && k <= |run| && i in members
  {
    var l := At(members, run, k, i);
    l.role == Leader && l.currentTerm == t && log <= l.log
  }

  /** What the delivery `j` of `m` left is a prefix of what the sender had at moment `k` as leader. */
  ghost predicate WithinSender(members: set<NodeId>, run: seq<Action>, j: nat, m: Message, k: nat)
    requires IsRun(members, run) && AcceptedAt(members, run, j, m) && k <= |run| && m.appendReq.leader in members
  {
    LedWith(members, run, k, m.appendReq.leader, m.appendReq.term, At(members, run, j + 1, m.dst).log)
  }

  /**
   Every accepted AppendEntries leaves the follower's log, and so its commit index, within the log its
   sender had at some moment before the delivery as leader of that term.
   */
  lemma AcceptedBatchIsPrefix(members: set<NodeId>, run: seq<Action>, j: nat, m: Message)
    requires IsRun(members, run) && AcceptedAt(members, run, j, m)
    ensures m.appendReq.leader in members
    ensures exists k: nat :: k <= j && WithinSender(members, run, j, m, k)
    ensures At(members, run, j + 1, m.dst).commitIndex <= |At(members, run, j + 1, m.dst).log|
  {
    AcceptedWithin(members, run, j, m);
    SenderOf(members, run, j, m);
    ReignWasHeld(members, run, j, m.appendReq.term);
    var k: nat :| k <= j && HeldAt(members, run, PastAt(members, run, j).reigns[m.appendReq.term], m.appendReq.term, k);
    assert WithinSender(members, run, j, m, k);
  }

  /** And within every log the sender has later while it still leads that term. */
  lemma AcceptedStaysPrefix(members: set<NodeId>, run: seq<Action>, j: nat, m: Message, k: nat)
    requires IsRun(members, run) && AcceptedAt(members, run, j, m) && j <= k <= |run| && m.appendReq.leader in members
    requires var l := At(members, run, k, m.appendReq.leader); l.role == Leader && l.currentTerm == m.appendReq.term
    ensures WithinSender(members, run, j, m, k)
  {
    AcceptedWithin(members, run, j, m);
    LeaderInPast(members, run, k, m.appendReq.leader);
    GrowsAt(members, run, j, k);
    assert LaterReign(PastAt(members, run, j).reigns[m.appendReq.term], PastAt(members, run, k).reigns[m.appendReq.term]);
  }

  // ----- proposals -----

  /** The entry a proposal appended. */
  ghost predicate ProposedAt(members: set<NodeId>, run: seq<Action>, j: nat, i: NodeId, e: Entry)
    requires IsRun(members, run) && j < |run| && i in members
  {
    && run[j].Submit? && run[j].node == i
    && e == Proposed(At(members, run, j, i), run[j])
  }

  lemma SubmitAppends(s: State, a: Action)
    requires Enabled(s, a) && a.Submit?
    ensures a.node in Do(s, a).nodes
    ensures var n', e := Do(s, a).nodes[a.node], Proposed(s.nodes[a.node], a);
            n'.role == Leader && n'.currentTerm == e.term && e.index == |n'.log| && n'.log[|n'.log| - 1] == e
  {
  }

  /** The proposer's log at the proposal, as its term's leader keeps it. */
  lemma ProposalInReign(members: set<NodeId>, run: seq<Action>, j: nat, k: nat, i: NodeId, e: Entry)
    requires IsRun(members, run) && j < k <= |run| && i in members && ProposedAt(members, run, j, i, e)
    ensures e.term in PastAt(members, run, k).reigns && e.index >= 1
    ensures var g := PastAt(members, run, k).reigns[e.term].log; e.index <= |g| && g[e.index - 1] == e
  {
    InvAt(members, run, j);
    InvAt(members, run, j + 1);
    StepAt(members, run, j);
    SubmitAppends(StateAfter(members, run[..j]), run[j]);
    LeaderInPast(members, run, j + 1, i);
    GrowsAt(members, run, j + 1, k);
    assert LaterReign(PastAt(members, run, j + 1).reigns[e.term], PastAt(members, run, k).reigns[e.term]);
  }

  lemma RootedAt(h: Past, log: Log, index: nat, g: Log)
    requires LogOk(h, log) && 1 <= index <= |log| && log[index - 1].term in h.reigns
    requires g == h.reigns[log[index - 1].term].log && index <= |g|
    ensures log[index - 1] == g[index - 1]
  {
    assert Rooted(h, log, index - 1);
    assert log[..index][index - 1] == log[index - 1];
  }

  /**
   The wait in `Propose` ends when its index has been applied, whatever its term. What was applied there
   is the proposal exactly if the log holds the proposal's term at that index.
   */
  lemma OkIsTruthfulIff(members: set<NodeId>, run: seq<Action>, j: nat, k: nat, i: NodeId, e: Entry)
    requires IsRun(members, run) && j < k <= |run| && i in members && ProposedAt(members, run, j, i, e)
    requires At(members, run, k, i).lastApplied >= e.index
    ensures 1 <= e.index <= |At(members, run, k, i).applied|
    ensures At(members, run, k, i).applied[e.index - 1] == e <==> TermAt(At(members, run, k, i).log, e.index) == e.term
  {
    ProposalInReign(members, run, j, k, i, e);
    AppliedIsDecided(members, run, k, i);
    InvAt(members, run, k);
    var n, h := At(members, run, k, i), PastAt(members, run, k);
    assert NodeOk(StateAfter(members, run[..k]), h, i);
    assert n.applied[e.index - 1] == n.log[e.index - 1];
    if TermAt(n.log, e.index) == e.term {
      RootedAt(h, n.log, e.index, h.reigns[e.term].log);
    }
  }

  /** While the proposer still leads the term of its proposal, that condition holds. */
  lemma UnchangedTermIsTruthful(members: set<NodeId>, run: seq<Action>, j: nat, k: nat, i: NodeId, e: Entry)
    requires IsRun(members, run) && j < k <= |run| && i in members && ProposedAt(members, run, j, i, e)
    requires At(members, run, k, i).role == Leader && At(members, run, k, i).currentTerm == e.term
    ensures TermAt(At(members, run, k, i).log, e.index) == e.term
  {
    ProposalInReign(members, run, j, k, i, e);
    LeaderInPast(members, run, k, i);
  }

  /**
   A proposal that has been applied as such stands: at any moment every node that has applied that far
   has applied it there, and every leader of a later term holds it there, as does every leader of the
   same term from then on.
   */
  lemma AcknowledgedProposalStands(members: set<NodeId>, run: seq<Action>, j: nat, k: nat, l: nat, i: NodeId, b: NodeId, e: Entry)
    requires IsRun(members, run) && j < k <= |run| && l <= |run| && i in members && b in members
    requires ProposedAt(members, run, j, i, e)
    requires var n := At(members, run, k, i); n.lastApplied >= e.index && TermAt(n.log, e.index) == e.term
    ensures e.index >= 1
    ensures var n := At(members, run, l, b); n.lastApplied >= e.index ==> |n.applied| >= e.index && n.applied[e.index - 1] == e
    ensures var n, t := At(members, run, l, b), At(members, run, k, i).currentTerm;
            n.role == Leader && (t < n.currentTerm || (t == n.currentTerm && k <= l)) ==> |n.log| >= e.index && n.log[e.index - 1] == e
  {
    OkIsTruthfulIff(members, run, j, k, i, e);
    AppliedIsDecided(members, run, k, i);
    AppliedIsDecided(members, run, l, b);
    var n, n' := At(members, run, k, i), At(members, run, l, b);
    if k <= l {
      StateMachineSafety(members, run, k, l, i, b);
    } else {
      StateMachineSafety(members, run, l, k, b, i);
    }
    if n'.role == Leader && (n.currentTerm < n'.currentTerm || (n.currentTerm == n'.currentTerm && k <= l)) {
      LeaderCompleteness(members, run, k, l, i, b);
      AgreeAt(n.log, n'.log, n.commitIndex, e.index - 1);
    }
  }
}
