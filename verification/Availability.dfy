/**
 Which sets of nodes can go on alone: exactly the majorities of at least two. What a smaller set proposes
 after the others have stopped is never applied by anyone, and a cluster of one commits nothing.
 */
module Availability {
  import opened Types
  import opened Logs
  import opened Cluster
  import opened History
  import opened Invariants
  import opened FollowerSteps
  import opened Runs
  import opened Safety
  import opened Scenarios
  import opened Progress

  // ----- acknowledgements of nodes that stand still -----

  lemma AckOfOthers(s: State, h: Past, a: Action, w: NodeId, t: nat)
    requires Enabled(s, a) && Actor(a) != w
    ensures Ack(Record(h, s, a), w, t) == Ack(h, w, t)
  {
  }

  lemma {:induction false} AckStands(g: Setting, run: seq<Action>, w: NodeId, t: nat)
    requires Continues(g, run) && w !in g.active
    ensures Ack(PastAfter(g.members, run), w, t) == Ack(PastAfter(g.members, g.base), w, t)
  {
    if run != g.base {
      var front := run[..|run| - 1];
      AckStands(g, front, w, t);
      AckOfOthers(StateAfter(g.members, front), PastAfter(g.members, front), run[|run| - 1], w, t);
    }
  }

  // ----- the entry was there before -----

  /** The log of the leader of `u` holds `e`. */
  ghost predicate HeldInReign(h: Past, u: nat, e: Entry)
  {
    u in h.reigns && 1 <= e.index <= |h.reigns[u].log| && h.reigns[u].log[e.index - 1] == e
  }

  /** What a node has applied was committed by some leader. */
  lemma AppliedWasCommitted(s: State, h: Past, p: NodeId, e: Entry) returns (u: nat, n: nat)
    requires LeadersComplete(s, h) && DecidedOk(s, h) && p in s.nodes && CommitOk(s, h, p) && AppliedAs(s.nodes[p], e)
    ensures e.index <= n && Committed(s.nodes.Keys, h, u, n) && HeldInReign(h, u, e)
  {
    var c := s.nodes[p].commitIndex;
    u, n :| u <= s.nodes[p].currentTerm && c <= n && Committed(s.nodes.Keys, h, u, n);
    CommittedAgrees(s, h, u, n, c);
    AgreeAt(h.decided, h.reigns[u].log, c, e.index - 1);
  }

  lemma CommittedAgrees(s: State, h: Past, u: nat, n: nat, c: nat)
    requires LeadersComplete(s, h) && DecidedOk(s, h) && Committed(s.nodes.Keys, h, u, n) && c <= n && c <= |h.decided|
    ensures u in h.reigns && Agree(h.decided, h.reigns[u].log, c)
  {
    assert Certified(s.nodes.Keys, h, u, c);
    CertifiedInReign(s, h, u, c);
  }

  /** A commitment that is not the work of `q` alone has a holder outside it. */
  lemma HolderOutside(members: set<NodeId>, h: Past, u: nat, n: nat, q: set<NodeId>) returns (w: NodeId)
    requires Committed(members, h, u, n) && q <= members && 2 * |q| <= |members|
    ensures w in members && w !in q && Ack(h, w, u) >= n
  {
    var holders := Holders(members, h, u, n);
    if holders <= q { SubsetSmaller(holders, q); }
    w :| w in holders && w !in q;
  }

  /** An acknowledged index was in the leader's log when it was acknowledged, and an entry is in the log of its own term's leader. */
  lemma HeldBefore(s: State, h: Past, h': Past, w: NodeId, u: nat, e: Entry)
    requires ReignsOk(h) && AcksOk(s, h) && Extends(h, h') && w in s.nodes && Ack(h, w, u) >= e.index && HeldInReign(h', u, e)
    ensures HeldInReign(h, e.term, e)
  {
    assert AckOk(s, h, w, u);
    assert LaterReign(h.reigns[u], h'.reigns[u]);
    assert h.reigns[u].log[e.index - 1] == e;
    EntryInReign(h, h.reigns[u].log, e.index - 1);
  }

  /** A new entry was in no leader's log before. */
  lemma NotHeldBefore(members: set<NodeId>, run: seq<Action>, k: nat, j: nat, i: NodeId, e: Entry)
    requires IsRun(members, run) && k <= j < |run| && i in members && ProposedAt(members, run, j, i, e)
    ensures !HeldInReign(PastAt(members, run, k), e.term, e)
  {
    StepAt(members, run, j);
    LeaderInPast(members, run, j, i);
    GrowsAt(members, run, k, j);
    var h, h' := PastAt(members, run, k), PastAt(members, run, j);
    if e.term in h.reigns { assert LaterReign(h.reigns[e.term], h'.reigns[e.term]); }
  }

  /** What is proposed after all but half of the nodes have stopped is applied by none. */
  lemma MinorityNeverCommits(members: set<NodeId>, run: seq<Action>, q: set<NodeId>, run': seq<Action>, j: nat, i: NodeId, p: NodeId, e: Entry)
    requires IsRun(members, run') && Continues(Setting(members, run, q), run') && q <= members && 2 * |q| <= |members|
    requires |run| <= j < |run'| && i in members && ProposedAt(members, run', j, i, e) && p in members
    ensures !AppliedAs(At(members, run', |run'|, p), e)
  {
    if AppliedAs(At(members, run', |run'|, p), e) {
      ContinuesFrom(Setting(members, run, q), run');
      assert run'[..|run|] == run && run'[..|run'|] == run';
      InvAt(members, run', |run|);
      InvAt(members, run', |run'|);
      GrowsAt(members, run', |run|, |run'|);
      var s, h, s', h' := StateAfter(members, run), PastAfter(members, run), StateAfter(members, run'), PastAfter(members, run');
      assert CommitOk(s', h', p);
      var u, n := AppliedWasCommitted(s', h', p, e);
      var w := HolderOutside(members, h', u, n, q);
      AckStands(Setting(members, run, q), run', w, u);
      HeldBefore(s, h, h', w, u, e);
      NotHeldBefore(members, run', |run|, j, i, e);
    }
  }

  lemma LoneMember(members: set<NodeId>, q: set<NodeId>, p: NodeId)
    requires p in q && q <= members && |q| < 2 && 2 * |q| > |members|
    ensures members == {p}
  {
    SubsetSmaller(q, members);
    assert |members - {p}| == |members| - 1;
  }

  lemma LoneServesNot(p: NodeId, run: seq<Action>, e: Entry)
    requires IsRun({p}, run)
    ensures !AppliedAs(At({p}, run, |run|, p), e)
  {
    AloneNeverCommits(p, run);
    AppliedIsDecided({p}, run, |run|, p);
    assert run[..|run|] == run;
  }

  lemma ServersAreMajority(members: set<NodeId>, run: seq<Action>, q: set<NodeId>, op: OpType, key: string, value: string, ttlMs: int, run': seq<Action>)
    requires q <= members && q != {} && Serves(members, run, q, op, key, value, ttlMs, run')
    ensures 2 * |q| > |members| && |q| >= 2
  {
    var j: nat, i: NodeId, e: Entry :| |run| <= j < |run'| && ServedAt(members, q, op, key, value, ttlMs, run', j, i, e);
    var p :| p in q;
    assert AppliedAs(At(members, run', |run'|, p), e);
    if 2 * |q| <= |members| {
      MinorityNeverCommits(members, run, q, run', j, i, p, e);
    } else if |q| < 2 {
      LoneMember(members, q, p);
      LoneServesNot(p, run', e);
    }
  }

  /** After any run, a set of nodes can alone take, commit and apply a proposal if and only if it is a majority of at least two. */
  lemma ServesIffMajority(members: set<NodeId>, run: seq<Action>, q: set<NodeId>, op: OpType, key: string, value: string, ttlMs: int)
    requires IsRun(members, run) && q <= members && q != {}
    ensures (exists run' :: Serves(members, run, q, op, key, value, ttlMs, run')) <==> 2 * |q| > |members| && |q| >= 2
  {
    if 2 * |q| > |members| && |q| >= 2 {
      MajorityCanServe(members, run, q, op, key, value, ttlMs);
    }
    forall run' | Serves(members, run, q, op, key, value, ttlMs, run') ensures 2 * |q| > |members| && |q| >= 2 {
      ServersAreMajority(members, run, q, op, key, value, ttlMs, run');
    }
  }
}
