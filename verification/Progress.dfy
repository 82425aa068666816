/**
 The protocol never paints itself into a corner: from every reachable state any majority of at least two
 nodes can alone take a proposal, commit it and apply it. A cluster of one commits nothing.
 */
module Progress {
  import opened Types
  import opened Logs
  import opened Backtracking
  import opened NodeSpec
  import opened Cluster
  import opened History
  import opened Invariants
  import opened Runs
  import opened Safety
  import opened Scenarios
  import opened NodeLaws
  import opened Rounds
  import opened Elections

  // ----- every peer holds the leader's log -----

  ghost predicate AllCaughtUp(s: State, l: NodeId, among: set<NodeId>)
  {
    forall p :: p in among ==> CaughtUp(s, l, p)
  }

  lemma OthersStayCaughtUp(s: State, s': State, l: NodeId, p: NodeId, among: set<NodeId>)
    requires OnlyPair(s, s', l, p) && l !in among && AllCaughtUp(s, l, among) && (p in among ==> CaughtUp(s', l, p))
    ensures AllCaughtUp(s', l, among)
  {
    forall o | o in among ensures CaughtUp(s', l, o) { assert CaughtUp(s, l, o); }
  }

  /** The leader's log and term are as they were. */
  ghost predicate SameReign(s: State, s': State, l: NodeId)
  {
    && l in s.nodes && s'.nodes.Keys == s.nodes.Keys
    && s'.nodes[l].log == s.nodes[l].log && s'.nodes[l].currentTerm == s.nodes[l].currentTerm
  }

  lemma SameReignTwice(s: State, s1: State, s': State, l: NodeId)
    requires SameReign(s, s1, l) && SameReign(s1, s', l)
    ensures SameReign(s, s', l)
  {
  }

  lemma CatchUpOne(g: Setting, run: seq<Action>, s: State, l: NodeId, p: NodeId, done: set<NodeId>) returns (run': seq<Action>, s': State)
    requires Led(g, run, s, l) && s.nodes[l].log != [] && p in g.active && p != l && l !in done && AllCaughtUp(s, l, done)
    ensures Led(g, run', s', l) && SameReign(s, s', l) && AllCaughtUp(s', l, done + {p})
  {
    run', s' := CatchUp(g, run, s, l, p);
    OthersStayCaughtUp(s, s', l, p, done);
  }

  lemma {:induction false} CatchUpAll(g: Setting, run: seq<Action>, s: State, l: NodeId, todo: set<NodeId>, done: set<NodeId>, all: set<NodeId>)
    returns (run': seq<Action>, s': State)
    requires Led(g, run, s, l) && s.nodes[l].log != [] && todo <= g.active - {l} && l !in done && AllCaughtUp(s, l, done)
    requires done + todo == all
    ensures Led(g, run', s', l) && SameReign(s, s', l) && AllCaughtUp(s', l, all)
    decreases |todo|
  {
    if todo == {} {
      run', s' := run, s;
      assert done == all;
    } else {
      var p :| p in todo;
      var run1, s1 := CatchUpOne(g, run, s, l, p, done);
      run', s' := CatchUpAll(g, run1, s1, l, todo - {p}, done + {p}, all);
      SameReignTwice(s, s1, s', l);
    }
  }

  // ----- the leader commits, and tells the others -----

  /** All active nodes hold the same log, whose last entry is of the current term. */
  ghost predicate Equal(g: Setting, run: seq<Action>, s: State, l: NodeId)
  {
    Led(g, run, s, l) && AllCaughtUp(s, l, g.active - {l}) && s.nodes[l].log != [] && LastTerm(s.nodes[l].log) == s.nodes[l].currentTerm
  }

  lemma EqualLogsProbe(log: Log, next: nat)
    requires 1 <= next <= |log| + 1
    ensures Probe(log, log, next) == Accept
  {
    MatchedProbe(log, log, next);
  }

  /** A round with one of the peers. */
  lemma Heartbeat(g: Setting, run: seq<Action>, s: State, l: NodeId, p: NodeId) returns (run': seq<Action>, s': State)
    requires Equal(g, run, s, l) && p in g.active && p != l
    ensures NextFor(s.nodes[l], p) >= 1 && Equal(g, run', s', l) && SameReign(s, s', l) && Searched(s, s', l, p)
    ensures s'.nodes[l] == Heard(s, l, p) && s'.nodes[p].commitIndex >= Min(s.nodes[l].commitIndex, |s.nodes[l].log|)
  {
    assert CaughtUp(s, l, p);
    PairedAt(g, run, s, l, p);
    EqualLogsProbe(s.nodes[l].log, NextFor(s.nodes[l], p));
    run', s' := AcceptedRound(g, run, s, l, p);
    MatchedIsCaughtUp(g, run', s', l, p);
    OthersStayCaughtUp(s, s', l, p, g.active - {l});
  }

  lemma QuorumHolds(n: Node, peers: set<NodeId>, q: nat)
    requires 1 + |peers| >= q && n.log != [] && LastTerm(n.log) == n.currentTerm
    requires forall p :: p in peers ==> p in n.matchIndex && n.matchIndex[p] >= |n.log|
    ensures HeldByQuorum(n, |n.log|, q)
  {
    SubsetSmaller(peers, Holding(n, |n.log|));
  }

  lemma MajorityIsQuorum(s: State, l: NodeId, q: set<NodeId>)
    requires l in q && q <= s.nodes.Keys && 2 * |q| > |s.nodes.Keys|
    ensures 1 + |q - {l}| >= Quorum(s, l)
  {
    assert s.nodes.Keys == Peers(s, l) + {l} && q == (q - {l}) + {l};
  }

  lemma PeersHold(g: Setting, run: seq<Action>, s: State, l: NodeId)
    requires Equal(g, run, s, l) && 2 * |g.active| > |s.nodes.Keys|
    ensures HeldByQuorum(s.nodes[l], |s.nodes[l].log|, Quorum(s, l))
  {
    forall p | p in g.active - {l} ensures p in s.nodes[l].matchIndex && s.nodes[l].matchIndex[p] >= |s.nodes[l].log| {
      assert CaughtUp(s, l, p);
      PairedAt(g, run, s, l, p);
    }
    MajorityIsQuorum(s, l, g.active);
    QuorumHolds(s.nodes[l], g.active - {l}, Quorum(s, l));
  }

  lemma HeardCommits(s: State, l: NodeId, p: NodeId)
    requires l in s.nodes && p in s.nodes && NextFor(s.nodes[l], p) >= 1 && s.nodes[l].role == Leader
    requires s.nodes[p].currentTerm == s.nodes[l].currentTerm && Probe(s.nodes[l].log, s.nodes[p].log, NextFor(s.nodes[l], p)) == Accept
    ensures forall k :: k > Heard(s, l, p).commitIndex ==> !HeldByQuorum(Heard(s, l, p), k, Quorum(s, l))
  {
    var r := MakeAppend(s.nodes[l], l, p);
    HeartbeatCommits(s.nodes[l], l, p, s.nodes[p]);
    AcceptanceCommits(s.nodes[l], p, r.prevIndex, |r.entries|, HandleAppend(s.nodes[p], r).1, Quorum(s, l));
  }

  lemma AnotherNode(nodes: set<NodeId>, l: NodeId) returns (p: NodeId)
    requires |nodes| >= 2 && l in nodes
    ensures p in nodes && p != l
  {
    assert |nodes - {l}| >= 1;
    p :| p in nodes - {l};
  }

  /** One more answer, and the leader has committed its whole log. */
  lemma CommitAll(g: Setting, run: seq<Action>, s: State, l: NodeId) returns (run': seq<Action>, s': State)
    requires Equal(g, run, s, l) && |g.active| >= 2 && 2 * |g.active| > |s.nodes.Keys|
    ensures Equal(g, run', s', l) && SameReign(s, s', l) && s'.nodes[l].commitIndex >= |s.nodes[l].log|
  {
    var p := AnotherNode(g.active, l);
    assert CaughtUp(s, l, p);
    run', s' := Heartbeat(g, run, s, l, p);
    PairedAt(g, run, s, l, p);
    EqualLogsProbe(s.nodes[l].log, NextFor(s.nodes[l], p));
    HeardCommits(s, l, p);
    PeersHold(g, run', s', l);
    assert Quorum(s', l) == Quorum(s, l);
  }

  ghost predicate Informed(s: State, l: NodeId, among: set<NodeId>)
    requires l in s.nodes
  {
    forall p :: p in among ==> p in s.nodes && s.nodes[p].commitIndex >= |s.nodes[l].log|
  }

  lemma InformOne(g: Setting, run: seq<Action>, s: State, l: NodeId, p: NodeId, done: set<NodeId>) returns (run': seq<Action>, s': State)
    requires Equal(g, run, s, l) && p in g.active && p != l && l in done && Informed(s, l, done)
    ensures Equal(g, run', s', l) && SameReign(s, s', l) && Informed(s', l, done + {p})
  {
    run', s' := Heartbeat(g, run, s, l, p);
  }

  lemma {:induction false} InformAll(g: Setting, run: seq<Action>, s: State, l: NodeId, todo: set<NodeId>, done: set<NodeId>, all: set<NodeId>)
    returns (run': seq<Action>, s': State)
    requires Equal(g, run, s, l) && todo <= g.active - {l} && l in done && Informed(s, l, done) && done + todo == all
    ensures Equal(g, run', s', l) && SameReign(s, s', l) && Informed(s', l, all)
    decreases |todo|
  {
    if todo == {} {
      run', s' := run, s;
      assert done == all;
    } else {
      var p :| p in todo;
      var run1, s1 := InformOne(g, run, s, l, p, done);
      run', s' := InformAll(g, run1, s1, l, todo - {p}, done + {p}, all);
      SameReignTwice(s, s1, s', l);
    }
  }

  // ----- every node applies what it has committed -----

  /** Only what has been applied has changed. */
  ghost predicate OnlyApplied(s: State, s': State)
  {
    && s'.nodes.Keys == s.nodes.Keys
    && forall i :: i in s.nodes ==> s'.nodes[i].log == s.nodes[i].log && s'.nodes[i].commitIndex == s.nodes[i].commitIndex
                                    && s'.nodes[i].lastApplied >= s.nodes[i].lastApplied
  }

  lemma {:induction false} ApplyUp(g: Setting, run: seq<Action>, s: State, i: NodeId) returns (run': seq<Action>, s': State)
    requires Reached(g, run, s) && i in g.active && i in s.nodes && s.nodes[i].lastApplied <= s.nodes[i].commitIndex <= |s.nodes[i].log|
    ensures Reached(g, run', s') && OnlyApplied(s, s') && s'.nodes[i].lastApplied >= s.nodes[i].commitIndex
    decreases s.nodes[i].commitIndex - s.nodes[i].lastApplied
  {
    if s.nodes[i].lastApplied == s.nodes[i].commitIndex {
      run', s' := run, s;
    } else {
      var s1 := Do(s, Apply(i));
      Step(g, run, s, Apply(i));
      run', s' := ApplyUp(g, run + [Apply(i)], s1, i);
    }
  }

  ghost predicate Drained(s: State, among: set<NodeId>)
  {
    forall i :: i in among ==> i in s.nodes && s.nodes[i].lastApplied >= s.nodes[i].commitIndex
  }

  lemma CountersOf(g: Setting, run: seq<Action>, s: State, i: NodeId)
    requires Sound(g) && Reached(g, run, s) && i in s.nodes
    ensures var n := s.nodes[i]; n.lastApplied <= n.commitIndex <= |n.log| && n.applied == n.log[..n.lastApplied]
  {
    InvOf(g, run, s);
    CommitOkApplied(s, PastAfter(g.members, run), i);
  }

  lemma DrainedOneMore(s: State, s': State, i: NodeId, done: set<NodeId>)
    requires Drained(s, done) && OnlyApplied(s, s') && i in s'.nodes && s'.nodes[i].lastApplied >= s'.nodes[i].commitIndex
    ensures Drained(s', done + {i})
  {
  }

  lemma AppliedTwice(s: State, s1: State, s': State)
    requires OnlyApplied(s, s1) && OnlyApplied(s1, s')
    ensures OnlyApplied(s, s')
  {
  }

  lemma DrainOne(g: Setting, run: seq<Action>, s: State, i: NodeId, done: set<NodeId>) returns (run': seq<Action>, s': State)
    requires Sound(g) && Reached(g, run, s) && i in g.active && i in s.nodes && Drained(s, done)
    ensures Reached(g, run', s') && OnlyApplied(s, s') && Drained(s', done + {i})
  {
    CountersOf(g, run, s, i);
    run', s' := ApplyUp(g, run, s, i);
    DrainedOneMore(s, s', i, done);
  }

  lemma {:induction false} DrainAll(g: Setting, run: seq<Action>, s: State, todo: set<NodeId>, done: set<NodeId>, all: set<NodeId>)
    returns (run': seq<Action>, s': State)
    requires Sound(g) && Reached(g, run, s) && todo <= g.active && g.active <= s.nodes.Keys && Drained(s, done) && done + todo == all
    ensures Reached(g, run', s') && OnlyApplied(s, s') && Drained(s', all)
    decreases |todo|
  {
    if todo == {} {
      run', s' := run, s;
      assert done == all;
    } else {
      var i :| i in todo;
      var run1, s1 := DrainOne(g, run, s, i, done);
      run', s' := DrainAll(g, run1, s1, todo - {i}, done + {i}, all);
      AppliedTwice(s, s1, s');
    }
  }

  // ----- the theorem -----

  /** Every node of `q` has this log, all of it committed and applied. */
  ghost predicate AppliedBy(q: set<NodeId>, s: State, log: Log)
  {
    q <= s.nodes.Keys && forall i :: i in q ==> s.nodes[i].log == log && s.nodes[i].commitIndex == |log| && s.nodes[i].applied == log
  }

  ghost predicate CommittedBy(q: set<NodeId>, s: State, log: Log)
  {
    q <= s.nodes.Keys && forall i :: i in q ==> s.nodes[i].log == log && s.nodes[i].commitIndex >= |log|
  }

  lemma DrainedIsApplied(g: Setting, run: seq<Action>, s: State, log: Log)
    requires Sound(g) && Reached(g, run, s) && Drained(s, g.active) && CommittedBy(g.active, s, log)
    ensures AppliedBy(g.active, s, log)
  {
    forall i | i in g.active ensures s.nodes[i].commitIndex == |log| && s.nodes[i].applied == log {
      CountersOf(g, run, s, i);
      assert log[..|log|] == log;
    }
  }

  lemma LogsAreEqual(q: set<NodeId>, s: State, l: NodeId)
    requires q <= s.nodes.Keys && l in q && AllCaughtUp(s, l, q - {l}) && Informed(s, l, q)
    ensures CommittedBy(q, s, s.nodes[l].log)
  {
    forall i | i in q ensures s.nodes[i].log == s.nodes[l].log { if i != l { assert CaughtUp(s, l, i); } }
  }

  lemma Drain(g: Setting, run: seq<Action>, s: State, log: Log) returns (run': seq<Action>, s': State)
    requires Sound(g) && Reached(g, run, s) && CommittedBy(g.active, s, log)
    ensures Reached(g, run', s') && AppliedBy(g.active, s', log)
  {
    run', s' := DrainAll(g, run, s, g.active, {}, g.active);
    DrainedIsApplied(g, run', s', log);
  }

  /** Every active node gets the leader's log and the leader commits it. */
  lemma Level(g: Setting, run: seq<Action>, s: State, l: NodeId) returns (run': seq<Action>, s': State)
    requires Led(g, run, s, l) && |g.active| >= 2 && 2 * |g.active| > |s.nodes.Keys|
    requires s.nodes[l].log != [] && LastTerm(s.nodes[l].log) == s.nodes[l].currentTerm
    ensures Equal(g, run', s', l) && SameReign(s, s', l) && s'.nodes[l].commitIndex >= |s.nodes[l].log|
  {
    var peers := g.active - {l};
    var run1, s1 := CatchUpAll(g, run, s, l, peers, {}, peers);
    run', s' := CommitAll(g, run1, s1, l);
    SameReignTwice(s, s1, s', l);
  }

  /** A leader that has just written an entry of its term can get its whole log applied by a majority. */
  lemma Spread(g: Setting, run: seq<Action>, s: State, l: NodeId) returns (run': seq<Action>, s': State)
    requires Led(g, run, s, l) && |g.active| >= 2 && 2 * |g.active| > |s.nodes.Keys|
    requires s.nodes[l].log != [] && LastTerm(s.nodes[l].log) == s.nodes[l].currentTerm
    ensures Reached(g, run', s') && AppliedBy(g.active, s', s.nodes[l].log)
  {
    var run1, s1 := Level(g, run, s, l);
    var run2, s2 := InformAll(g, run1, s1, l, g.active - {l}, {l}, g.active);
    LogsAreEqual(g.active, s2, l);
    run', s' := Drain(g, run2, s2, s.nodes[l].log);
  }

  /** The client's proposal, and the cluster continued from right behind it. */
  lemma TakeProposal(g: Setting, run: seq<Action>, s: State, l: NodeId, a: Action) returns (g': Setting, s': State)
    requires Led(g, run, s, l) && a.Submit? && a.node == l
    ensures g' == g.(base := run + [a]) && Continues(g, run + [a])
    ensures Led(g', run + [a], s', l) && s'.nodes.Keys == s.nodes.Keys
    ensures s'.nodes[l].log == s.nodes[l].log + [Proposed(s.nodes[l], a)] && s'.nodes[l].currentTerm == s.nodes[l].currentTerm
  {
    s' := Do(s, a);
    Step(g, run, s, a);
    ContinuesIsRun(g, run + [a]);
    g' := g.(base := run + [a]);
  }

  /** After `run`, the nodes of `q` have alone taken the proposal `op`, `key`, `value`, `ttlMs` and all applied it. */
  ghost predicate Serves(members: set<NodeId>, run: seq<Action>, q: set<NodeId>, op: OpType, key: string, value: string, ttlMs: int, run': seq<Action>)
  {
    && IsRun(members, run') && Continues(Setting(members, run, q), run')
    && exists j: nat, i: NodeId, e: Entry :: |run| <= j < |run'| && ServedAt(members, q, op, key, value, ttlMs, run', j, i, e)
  }

  ghost predicate ServedAt(members: set<NodeId>, q: set<NodeId>, op: OpType, key: string, value: string, ttlMs: int, run': seq<Action>, j: nat, i: NodeId, e: Entry)
    requires IsRun(members, run')
  {
    && j < |run'| && i in members && run'[j] == Submit(i, op, key, value, ttlMs) && ProposedAt(members, run', j, i, e)
    && forall p :: p in q && p in members ==> AppliedAs(At(members, run', |run'|, p), e)
  }

  ghost predicate AppliedAs(n: Node, e: Entry)
  {
    1 <= e.index <= |n.applied| && n.applied[e.index - 1] == e
  }

  lemma AppliedIsServed(g: Setting, run: seq<Action>, s: State, l: NodeId, a: Action, run': seq<Action>, s': State)
    requires Led(g, run, s, l) && IsRun(g.members, run) && IsRun(g.members, run') && g.members == s.nodes.Keys
    requires a.Submit? && a.node == l && run + [a] <= run'
    requires StateAfter(g.members, run') == s' && AppliedBy(g.active, s', s.nodes[l].log + [Proposed(s.nodes[l], a)])
    ensures ServedAt(g.members, g.active, a.op, a.key, a.value, a.ttlMs, run', |run|, l, Proposed(s.nodes[l], a))
  {
    assert run'[|run|] == (run + [a])[|run|] == a;
    assert run'[..|run|] == (run + [a])[..|run|] == run;
    assert run'[..|run'|] == run';
  }

  /** From a leader on. */
  lemma ServeFrom(g: Setting, run: seq<Action>, s: State, l: NodeId, a: Action) returns (run': seq<Action>)
    requires Led(g, run, s, l) && |g.active| >= 2 && 2 * |g.active| > |s.nodes.Keys| && a.Submit? && a.node == l
    ensures Continues(g, run') && |run| < |run'| && IsRun(g.members, run') && l in g.members
    ensures ServedAt(g.members, g.active, a.op, a.key, a.value, a.ttlMs, run', |run|, l, Proposed(s.nodes[l], a))
  {
    var g2, s2 := TakeProposal(g, run, s, l, a);
    var s3;
    run', s3 := Spread(g2, run + [a], s2, l);
    Spliced(g, run, a, run');
    InvOf(g, run, s);
    AppliedIsServed(g, run, s, l, a, run', s3);
  }

  lemma Spliced(g: Setting, run: seq<Action>, a: Action, run': seq<Action>)
    requires Sound(g) && Continues(g, run) && Continues(g, run + [a]) && Continues(g.(base := run + [a]), run')
    ensures Continues(g, run') && run + [a] <= run' && IsRun(g.members, run) && IsRun(g.members, run')
  {
    ContinuesTwice(g, run + [a], run');
    ContinuesFrom(g.(base := run + [a]), run');
    ContinuesIsRun(g, run);
    ContinuesIsRun(g, run');
  }

  lemma Serve(g: Setting, op: OpType, key: string, value: string, ttlMs: int) returns (run': seq<Action>)
    requires Sound(g) && |g.active| >= 2 && 2 * |g.active| > |g.members|
    ensures Serves(g.members, g.base, g.active, op, key, value, ttlMs, run')
  {
    var s := StateAfter(g.members, g.base);
    InvOf(g, g.base, s);
    var run1, s1, l := LeaderCanBeFound(g, g.base, s);
    ContinuesFrom(g, run1);
    run' := ServeFrom(g, run1, s1, l, Submit(l, op, key, value, ttlMs));
  }

  /** After every run, any majority of at least two nodes can alone take any proposal, commit it and apply it. */
  lemma MajorityCanServe(members: set<NodeId>, run: seq<Action>, q: set<NodeId>, op: OpType, key: string, value: string, ttlMs: int)
    requires IsRun(members, run) && q <= members && 2 * |q| > |members| && |q| >= 2
    ensures exists run' :: Serves(members, run, q, op, key, value, ttlMs, run')
  {
    var run' := Serve(Setting(members, run, q), op, key, value, ttlMs);
  }

  // ----- a cluster of one -----

  /** Requests and answers about logs go from one member to another. */
  lemma SentToAnother(s: State, h: Past, m: Message)
    requires ElectedOk(s, h) && NetOk(s, h) && m in s.net
    ensures m.AppendReq? ==> m.dst in s.nodes && m.appendReq.leader in s.nodes && m.dst != m.appendReq.leader
    ensures m.AppendResp? ==> m.dst in s.nodes && m.src in s.nodes && m.dst != m.src
  {
    MsgOf(s, h, m);
  }

  lemma AloneStep(s: State, h: Past, i: NodeId, a: Action)
    requires NodesOk(s, h) && ElectedOk(s, h) && NetOk(s, h) && s.nodes.Keys == {i} && Enabled(s, a) && s.nodes[i].commitIndex == 0
    ensures Do(s, a).nodes.Keys == {i} && Do(s, a).nodes[i].commitIndex == 0
  {
    DoNodes(s, a);
    if a.DeliverAppendReq? || a.DeliverAppendResp? {
      SentToAnother(s, h, a.msg);
    } else if a.Crash? {
      assert NodeOk(s, h, i);
    } else {
      OtherKeepsCommit(s, a);
    }
  }

  lemma OtherKeepsCommit(s: State, a: Action)
    requires Enabled(s, a) && !a.DeliverAppendReq? && !a.DeliverAppendResp? && !a.Crash?
    ensures Actor(a) in s.nodes && After(s, a).commitIndex == s.nodes[Actor(a)].commitIndex
  {
  }

  /** The commit index moves only on a peer's answer, so a lone node leads but never commits. */
  lemma {:induction false} AloneNeverCommits(i: NodeId, run: seq<Action>)
    requires IsRun({i}, run)
    ensures StateAfter({i}, run).nodes.Keys == {i} && StateAfter({i}, run).nodes[i].commitIndex == 0
  {
    if run != [] {
      var front := run[..|run| - 1];
      AloneNeverCommits(i, front);
      RunInv({i}, front);
      AloneStep(StateAfter({i}, front), PastAfter({i}, front), i, run[|run| - 1]);
    }
  }
}
