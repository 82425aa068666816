/** Further laws of whole runs: where terms and entries come from, and what a leader knows of its peers. */
module RunLaws {
  import opened Types
  import opened Logs
  import opened NodeSpec
  import opened Cluster
  import opened History
  import opened Invariants
  import opened Runs
  import opened Safety
  import opened NodeLaws
  import opened Rounds

  // ----- the commit index of a follower -----

  /** In a run an accepted request, empty or not, raises the commit index to the leader's as far as the log goes, or leaves it. */
  lemma AcceptedRaisesCommit(members: set<NodeId>, run: seq<Action>, j: nat, m: Message)
    requires IsRun(members, run) && AcceptedAt(members, run, j, m)
    ensures var n, n' := At(members, run, j, m.dst), At(members, run, j + 1, m.dst);
            n'.commitIndex == Max(n.commitIndex, Min(m.appendReq.leaderCommit, |n'.log|))
  {
    AcceptedNode(members, run, j, m);
    AppliedIsDecided(members, run, j + 1, m.dst);
    CountersNeverFall(members, run, j, j + 1, m.dst);
    CommitRaised(At(members, run, j, m.dst), m.appendReq);
  }

  lemma CommitRaised(n: Node, r: AppendRequest)
    requires HandleAppend(n, r).1.success
    requires var n' := HandleAppend(n, r).0; n.commitIndex <= n'.commitIndex <= |n'.log|
    ensures var n' := HandleAppend(n, r).0; n'.commitIndex == Max(n.commitIndex, Min(r.leaderCommit, |n'.log|))
  {
    AcceptedCommits(n, r);
  }

  // ----- restarts -----

  /** Term and vote survive a restart at any moment of a run, so no node votes twice in a term. */
  lemma RestartKeepsVote(members: set<NodeId>, run: seq<Action>, k: nat, i: NodeId)
    requires IsRun(members, run) && k <= |run| && i in members
    ensures var n := At(members, run, k, i);
            Restart(n).currentTerm == n.currentTerm && Restart(n).votedFor == n.votedFor && Restart(n).role == Follower
            && Restart(n).lastApplied == 0 && Restart(n).applied == []
  {
    InvAt(members, run, k);
    assert NodeOk(StateAfter(members, run[..k]), PastAt(members, run, k), i);
  }

  // ----- terms -----

  function ElectionsIn(run: seq<Action>): nat
  {
    if run == [] then 0 else ElectionsIn(run[..|run| - 1]) + if run[|run| - 1].Elect? then 1 else 0
  }

  ghost predicate TermsWithin(s: State, t: nat)
  {
    && (forall i :: i in s.nodes ==> s.nodes[i].currentTerm <= t)
    && forall m :: m in s.net ==> TermOf(m) <= t
  }

  lemma ActorWithin(s: State, h: Past, a: Action, t: nat)
    requires NodesOk(s, h) && Enabled(s, a) && TermsWithin(s, t)
    ensures After(s, a).currentTerm <= if a.Elect? then t + 1 else t
  {
    if a.Crash? { assert NodeOk(s, h, a.node); }
    if IsDelivery(a) { LaterTermIsAdopted(s, a); }
  }

  lemma SentWithin(s: State, a: Action, t: nat, m: Message)
    requires Enabled(s, a) && TermsWithin(s, t) && m in Sent(s, a)
    ensures TermOf(m) <= if a.Elect? then t + 1 else t
  {
  }

  lemma StepWithin(s: State, h: Past, a: Action, t: nat)
    requires NodesOk(s, h) && Enabled(s, a) && TermsWithin(s, t)
    ensures TermsWithin(Do(s, a), if a.Elect? then t + 1 else t)
  {
    var t' := if a.Elect? then t + 1 else t;
    ActorWithin(s, h, a, t);
    forall m | m in Sent(s, a) ensures TermOf(m) <= t' { SentWithin(s, a, t, m); }
    UpdateWithin(s, Actor(a), After(s, a), Sent(s, a), t, t');
  }

  lemma UpdateWithin(s: State, i: NodeId, n: Node, sent: set<Message>, t: nat, t': nat)
    requires TermsWithin(s, t) && t <= t' && n.currentTerm <= t' && forall m :: m in sent ==> TermOf(m) <= t'
    ensures TermsWithin(Update(s, i, n, sent), t')
  {
  }

  /** No term, in a node or in a message, is higher than the number of elections started. */
  lemma {:induction false} TermsCountElections(members: set<NodeId>, run: seq<Action>)
    requires IsRun(members, run)
    ensures TermsWithin(StateAfter(members, run), ElectionsIn(run))
  {
    if run != [] {
      var front := run[..|run| - 1];
      TermsCountElections(members, front);
      RunInv(members, front);
      StepWithin(StateAfter(members, front), PastAfter(members, front), run[|run| - 1], ElectionsIn(front));
    }
  }

  // ----- entries -----

  /** `a` is a client's proposal with the contents of `e`. */
  predicate Proposes(a: Action, e: Entry)
  {
    a.Submit? && a.op == e.op && a.key == e.key && a.value == e.value && a.ttlMs == e.ttlMs
  }

  /** A no-op, or something a client has proposed. */
  ghost predicate HasOrigin(run: seq<Action>, e: Entry)
  {
    e.op == NoOp || exists j :: 0 <= j < |run| && Proposes(run[j], e)
  }

  ghost predicate AllHaveOrigin(run: seq<Action>, es: seq<Entry>)
  {
    forall k :: 0 <= k < |es| ==> HasOrigin(run, es[k])
  }

  ghost predicate OriginsKnown(run: seq<Action>, s: State)
  {
    && (forall i :: i in s.nodes ==> AllHaveOrigin(run, s.nodes[i].log))
    && forall m :: m in s.net && m.AppendReq? ==> AllHaveOrigin(run, m.appendReq.entries)
  }

  lemma OriginStays(run: seq<Action>, a: Action, es: seq<Entry>)
    requires AllHaveOrigin(run, es)
    ensures AllHaveOrigin(run + [a], es)
  {
    forall k | 0 <= k < |es| && es[k].op != NoOp ensures HasOrigin(run + [a], es[k]) {
      assert HasOrigin(run, es[k]);
      var j :| 0 <= j < |run| && Proposes(run[j], es[k]);
      assert (run + [a])[j] == run[j];
    }
  }

  lemma OriginsStay(run: seq<Action>, a: Action, s: State)
    requires OriginsKnown(run, s)
    ensures OriginsKnown(run + [a], s)
  {
    forall i | i in s.nodes ensures AllHaveOrigin(run + [a], s.nodes[i].log) { OriginStays(run, a, s.nodes[i].log); }
    forall m | m in s.net && m.AppendReq? ensures AllHaveOrigin(run + [a], m.appendReq.entries) { OriginStays(run, a, m.appendReq.entries); }
  }

  lemma SplicedOrigin(run: seq<Action>, log: Log, prev: nat, batch: seq<Entry>)
    requires prev <= |log| && AllHaveOrigin(run, log) && AllHaveOrigin(run, batch)
    ensures AllHaveOrigin(run, Splice(log, prev, batch))
  {
    SpliceCutsAtFirstConflict(log, prev, batch);
  }

  lemma AcceptedOrigin(run: seq<Action>, n: Node, r: AppendRequest)
    requires AllHaveOrigin(run, n.log) && AllHaveOrigin(run, r.entries)
    ensures AllHaveOrigin(run, HandleAppend(n, r).0.log)
  {
    if r.term >= n.currentTerm && r.prevIndex <= |n.log| { SplicedOrigin(run, n.log, r.prevIndex, r.entries); }
  }

  lemma ProposalOrigin(run: seq<Action>, a: Action, n: Node)
    requires a.Submit? && n.role == Leader && a in run && AllHaveOrigin(run, n.log)
    ensures AllHaveOrigin(run, Propose(n, a.op, a.key, a.value, a.ttlMs).log)
  {
    var j :| 0 <= j < |run| && run[j] == a;
    var es := Propose(n, a.op, a.key, a.value, a.ttlMs).log;
    assert Proposes(run[j], es[|n.log|]);
  }

  lemma ActorOrigin(run: seq<Action>, s: State, a: Action)
    requires Regular(s, a) && a in run && OriginsKnown(run, s)
    ensures AllHaveOrigin(run, After(s, a).log)
  {
    if a.DeliverAppendReq? {
      AcceptedOrigin(run, s.nodes[a.msg.dst], a.msg.appendReq);
    } else if a.Submit? {
      ProposalOrigin(run, a, s.nodes[a.node]);
    }
  }

  lemma SentOrigin(run: seq<Action>, s: State, a: Action, m: Message)
    requires Enabled(s, a) && OriginsKnown(run, s) && m in Sent(s, a) && m.AppendReq?
    ensures AllHaveOrigin(run, m.appendReq.entries)
  {
  }

  lemma StepOrigin(run: seq<Action>, s: State, a: Action)
    requires Regular(s, a) && OriginsKnown(run, s)
    ensures OriginsKnown(run + [a], Do(s, a))
  {
    OriginsStay(run, a, s);
    assert a == (run + [a])[|run|];
    ActorOrigin(run + [a], s, a);
    forall m | m in Do(s, a).net && m.AppendReq? ensures AllHaveOrigin(run + [a], m.appendReq.entries) {
      if m in Sent(s, a) { SentOrigin(run + [a], s, a, m); }
    }
  }

  lemma {:induction false} EntriesHaveOrigin(members: set<NodeId>, run: seq<Action>)
    requires IsRun(members, run)
    ensures OriginsKnown(run, StateAfter(members, run))
  {
    if run != [] {
      var front := run[..|run| - 1];
      EntriesHaveOrigin(members, front);
      StepOrigin(front, StateAfter(members, front), run[|run| - 1]);
      assert run == front + [run[|run| - 1]];
    }
  }

  /** Whatever a node has applied, no-ops aside, a client has proposed before. */
  lemma AppliedWasProposed(members: set<NodeId>, run: seq<Action>, k: nat, i: NodeId, x: nat)
    requires IsRun(members, run) && k <= |run| && i in members && x < |At(members, run, k, i).applied|
    requires At(members, run, k, i).applied[x].op != NoOp
    ensures exists j :: 0 <= j < k && Proposes(run[j], At(members, run, k, i).applied[x])
  {
    AppliedIsDecided(members, run, k, i);
    LogHasOrigin(members, run, k, i, x);
    OriginBefore(run, k, At(members, run, k, i).log[x]);
  }

  lemma LogHasOrigin(members: set<NodeId>, run: seq<Action>, k: nat, i: NodeId, x: nat)
    requires IsRun(members, run) && k <= |run| && i in members && x < |At(members, run, k, i).log|
    ensures HasOrigin(run[..k], At(members, run, k, i).log[x])
  {
    InvAt(members, run, k);
    EntriesHaveOrigin(members, run[..k]);
  }

  lemma OriginBefore(run: seq<Action>, k: nat, e: Entry)
    requires k <= |run| && HasOrigin(run[..k], e) && e.op != NoOp
    ensures exists j :: 0 <= j < k && Proposes(run[j], e)
  {
    var j :| 0 <= j < k && Proposes(run[..k][j], e);
    assert Proposes(run[j], e);
  }

  // ----- what a leader knows of its peers -----

  ghost predicate LeadsTerm(members: set<NodeId>, run: seq<Action>, j: nat, k: nat, l: NodeId, t: nat)
    requires IsRun(members, run) && k <= |run| && l in members
  {
    forall m :: j <= m <= k ==> At(members, run, m, l).role == Leader && At(members, run, m, l).currentTerm == t
  }

  lemma MatchStep(s: State, a: Action, l: NodeId, p: NodeId)
    requires Enabled(s, a) && l in s.nodes && s.nodes[l].role == Leader && Do(s, a).nodes[l].role == Leader
    requires Do(s, a).nodes[l].currentTerm == s.nodes[l].currentTerm
    ensures MatchOf(s.nodes[l], p) <= MatchOf(Do(s, a).nodes[l], p)
  {
  }

  lemma MatchStepAt(members: set<NodeId>, run: seq<Action>, k: nat, l: NodeId, p: NodeId)
    requires IsRun(members, run) && k < |run| && l in members
    requires At(members, run, k, l).role == Leader && At(members, run, k + 1, l).role == Leader
    requires At(members, run, k, l).currentTerm == At(members, run, k + 1, l).currentTerm
    ensures MatchOf(At(members, run, k, l), p) <= MatchOf(At(members, run, k + 1, l), p)
  {
    KeysAt(members, run, k);
    StepAt(members, run, k);
    MatchStep(StateAfter(members, run[..k]), run[k], l, p);
  }

  /** While a node leads a term, what it knows a peer to hold never shrinks. */
  lemma {:induction false} MatchNeverFalls(members: set<NodeId>, run: seq<Action>, j: nat, k: nat, l: NodeId, p: NodeId, t: nat)
    requires IsRun(members, run) && j <= k <= |run| && l in members && LeadsTerm(members, run, j, k, l, t)
    ensures MatchOf(At(members, run, j, l), p) <= MatchOf(At(members, run, k, l), p)
    decreases k
  {
    if j < k {
      MatchNeverFalls(members, run, j, k - 1, l, p, t);
      assert At(members, run, k - 1, l).role == Leader && At(members, run, k, l).role == Leader;
      MatchStepAt(members, run, k - 1, l, p);
    }
  }

  /** And the peer does hold it, as long as it has not gone on to a later term. */
  lemma MatchIsHeld(members: set<NodeId>, run: seq<Action>, k: nat, l: NodeId, p: NodeId)
    requires IsRun(members, run) && k <= |run| && l in members && p in members && p != l && At(members, run, k, l).role == Leader
    requires At(members, run, k, p).currentTerm == At(members, run, k, l).currentTerm
    ensures Agree(At(members, run, k, l).log, At(members, run, k, p).log, MatchOf(At(members, run, k, l), p))
  {
    InvAt(members, run, k);
    PairedTables(StateAfter(members, run[..k]), PastAt(members, run, k), l, p);
  }
}
