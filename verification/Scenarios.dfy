/** Building blocks for continuing a run: an election, a delivery, a series of proposals or applications. */
module Scenarios {
  import opened Types
  import opened Logs
  import opened NodeSpec
  import opened Cluster

  /** A cluster, what it has done so far, and the nodes that go on from there while the others stand still. */
  datatype Setting = Setting(members: set<NodeId>, base: seq<Action>, active: set<NodeId>)

  /** `run` is what has been done so far, followed by regular actions of the active nodes and no restarts. */
  ghost predicate Continues(g: Setting, run: seq<Action>)
  {
    run == g.base
    || (run != [] && Continues(g, run[..|run| - 1])
        && Regular(StateAfter(g.members, run[..|run| - 1]), run[|run| - 1])
        && Actor(run[|run| - 1]) in g.active && !run[|run| - 1].Crash?)
  }

  /** Such a continuation ends in `s`. */
  ghost predicate Reached(g: Setting, run: seq<Action>, s: State)
  {
    Continues(g, run) && StateAfter(g.members, run) == s
  }

  lemma Step(g: Setting, run: seq<Action>, s: State, a: Action)
    requires Reached(g, run, s) && Regular(s, a) && Actor(a) in g.active && !a.Crash?
    ensures Reached(g, run + [a], Do(s, a))
  {
    assert (run + [a])[..|run|] == run;
  }

  /** A run so continued is a run. */
  lemma {:induction false} ContinuesIsRun(g: Setting, run: seq<Action>)
    requires IsRun(g.members, g.base) && Continues(g, run)
    ensures IsRun(g.members, run)
  {
    if run != g.base { ContinuesIsRun(g, run[..|run| - 1]); }
  }

  lemma {:induction false} ContinuesFrom(g: Setting, run: seq<Action>)
    requires Continues(g, run)
    ensures g.base <= run
    ensures forall k :: |g.base| <= k < |run| ==> Actor(run[k]) in g.active && !run[k].Crash?
  {
    if run != g.base { ContinuesFrom(g, run[..|run| - 1]); }
  }

  lemma {:induction false} ContinuesTwice(g: Setting, run: seq<Action>, run': seq<Action>)
    requires Continues(g, run) && Continues(g.(base := run), run')
    ensures Continues(g, run')
    decreases |run'|
  {
    if run' != run { ContinuesTwice(g, run, run'[..|run'| - 1]); }
  }

  // ----- three nodes, and one action that breaks a rule -----

  const THREE: set<NodeId> := {0, 1, 2}

  lemma Size()
    ensures |THREE| == 3
  {
  }

  const START: Setting := Setting(THREE, [], THREE)

  lemma Start()
    ensures Reached(START, [], Init(THREE))
  {
  }

  /** What follows `run` and the action `a`. */
  function Beyond(run: seq<Action>, a: Action): Setting
  {
    Setting(THREE, run + [a], THREE)
  }

  /** One action that need not be regular. */
  lemma AnyStep(run: seq<Action>, s: State, a: Action, s': State)
    requires Reached(START, run, s) && Enabled(s, a) && s' == Do(s, a)
    ensures Reached(Beyond(run, a), run + [a], s')
  {
    assert (run + [a])[..|run|] == run;
  }

  /** Two nodes have applied different entries at the same index. */
  ghost predicate Diverged(s: State)
  {
    0 in s.nodes && 1 in s.nodes && !(s.nodes[0].applied <= s.nodes[1].applied) && !(s.nodes[1].applied <= s.nodes[0].applied)
  }

  /** Action `k` is possible but not regular, all others are regular, and yet two nodes end up with different entries. */
  ghost predicate BrokenBy(run: seq<Action>, k: nat)
  {
    && k < |run| && IsRun(THREE, run[..k])
    && Enabled(StateAfter(THREE, run[..k]), run[k]) && !Regular(StateAfter(THREE, run[..k]), run[k])
    && Continues(Beyond(run[..k], run[k]), run) && Diverged(StateAfter(THREE, run))
  }

  lemma Breaks(run: seq<Action>, s: State, a: Action, run': seq<Action>, s': State)
    requires Reached(START, run, s) && Enabled(s, a) && !Regular(s, a)
    requires Reached(Beyond(run, a), run', s') && Diverged(s')
    ensures |run| < |run'| && BrokenBy(run', |run|) && run'[|run|] == a
  {
    ContinuesIsRun(START, run);
    ContinuesFrom(Beyond(run, a), run');
    assert run'[..|run|] == (run + [a])[..|run|] == run;
    assert run'[|run|] == (run + [a])[|run|];
  }

  // ----- an election -----

  function Ballot(n: Node, i: NodeId): VoteRequest
  {
    MakeVoteRequest(StartElection(n, i), i)
  }

  function Voter(n: Node, r: VoteRequest): Node
  {
    HandleVote(n, r).0
  }

  function Winner(n: Node, i: NodeId, v: NodeId, peers: set<NodeId>): Node
  {
    BecomeLeader(StartElection(n, i).(votes := {i} + {v}), peers)
  }

  /** `v` has not reached the term for which `i` stands, and the log of `i` is good enough for it. */
  predicate WillVote(n: Node, v: Node)
  {
    n.role != Leader && v.currentTerm <= n.currentTerm && UpToDate(v.log, |n.log|, LastTerm(n.log))
  }

  lemma VoteGranted(n: Node, v: Node, i: NodeId)
    requires WillVote(n, v)
    ensures HandleVote(v, Ballot(n, i)).1 == VoteReply(v.currentTerm, true)
    ensures var v' := Voter(v, Ballot(n, i));
            v'.currentTerm == n.currentTerm + 1 && v'.role == Follower && v'.log == v.log && v'.commitIndex == v.commitIndex
            && v'.lastApplied == v.lastApplied && v'.applied == v.applied
  {
  }

  lemma WinnerIs(n: Node, i: NodeId, v: NodeId, peers: set<NodeId>)
    ensures var w := Winner(n, i, v, peers);
            && w.role == Leader && w.currentTerm == n.currentTerm + 1
            && w.log == n.log + [NoOpEntry(n.currentTerm + 1, |n.log| + 1)]
            && w.commitIndex == n.commitIndex && w.lastApplied == n.lastApplied && w.applied == n.applied
            && forall p :: p in peers ==> p in w.nextIndex && w.nextIndex[p] == |n.log| + 1 && p in w.matchIndex && w.matchIndex[p] == 0
  {
  }

  lemma Stand(g: Setting, run: seq<Action>, s: State, i: NodeId, s': State)
    requires Reached(g, run, s) && i in g.active && i in s.nodes && s.nodes[i].role != Leader && s' == Do(s, Elect(i))
    ensures Reached(g, run + [Elect(i)], s')
    ensures s'.nodes == s.nodes[i := StartElection(s.nodes[i], i)] && s.net <= s'.net
    ensures forall j :: j in s.nodes && j != i ==> VoteReq(j, Ballot(s.nodes[i], i)) in s'.net
  {
    Step(g, run, s, Elect(i));
    forall j | j in s.nodes && j != i ensures VoteReq(j, Ballot(s.nodes[i], i)) in s'.net { assert j in Peers(s, i); }
  }

  lemma Vote(g: Setting, run: seq<Action>, s: State, v: NodeId, r: VoteRequest, s': State)
    requires Reached(g, run, s) && v in g.active && v in s.nodes && VoteReq(v, r) in s.net && s' == Do(s, DeliverVoteReq(VoteReq(v, r)))
    ensures Reached(g, run + [DeliverVoteReq(VoteReq(v, r))], s')
    ensures s'.nodes == s.nodes[v := Voter(s.nodes[v], r)] && s.net <= s'.net
    ensures VoteResp(v, r.candidate, r.term, HandleVote(s.nodes[v], r).1) in s'.net
  {
    Step(g, run, s, DeliverVoteReq(VoteReq(v, r)));
  }

  lemma Count(g: Setting, run: seq<Action>, s: State, i: NodeId, v: NodeId, t: nat, reply: VoteReply, s': State)
    requires Reached(g, run, s) && i in g.active && i in s.nodes && VoteResp(v, i, t, reply) in s.net
    requires s' == Do(s, DeliverVoteResp(VoteResp(v, i, t, reply)))
    ensures Reached(g, run + [DeliverVoteResp(VoteResp(v, i, t, reply))], s')
    ensures s'.nodes == s.nodes[i := CountVote(s.nodes[i], v, t, reply)] && s.net <= s'.net
  {
    Step(g, run, s, DeliverVoteResp(VoteResp(v, i, t, reply)));
  }

  lemma Crown(g: Setting, run: seq<Action>, s: State, i: NodeId, s': State)
    requires Reached(g, run, s) && i in g.active && i in s.nodes && HasWon(s.nodes[i], Peers(s, i)) && s' == Do(s, Win(i))
    ensures Reached(g, run + [Win(i)], s')
    ensures s'.nodes == s.nodes[i := BecomeLeader(s.nodes[i], Peers(s, i))] && s.net <= s'.net
  {
    Step(g, run, s, Win(i));
  }

  lemma TwoOfThree(s: State, i: NodeId, v: NodeId, n: Node)
    requires i in s.nodes && v in s.nodes && i != v && |s.nodes.Keys| == 3
    requires n.role == Candidate && n.votes == {i} + {v}
    ensures HasWon(n, Peers(s, i))
  {
    assert |s.nodes.Keys - {i}| == 2;
  }

  /** `i` stands and `v` votes for it. */
  lemma Campaign(g: Setting, run: seq<Action>, s: State, i: NodeId, v: NodeId) returns (run': seq<Action>, s': State)
    requires Reached(g, run, s) && i in g.active && v in g.active && i in s.nodes && v in s.nodes && i != v && WillVote(s.nodes[i], s.nodes[v])
    ensures Reached(g, run', s') && run <= run' && s.net <= s'.net
    ensures s'.nodes == s.nodes[i := StartElection(s.nodes[i], i)][v := Voter(s.nodes[v], Ballot(s.nodes[i], i))]
    ensures VoteResp(v, i, s.nodes[i].currentTerm + 1, VoteReply(s.nodes[v].currentTerm, true)) in s'.net
    ensures forall j :: j in s.nodes && j != i ==> VoteReq(j, Ballot(s.nodes[i], i)) in s'.net
  {
    var r := Ballot(s.nodes[i], i);
    var s1 := Do(s, Elect(i));
    Stand(g, run, s, i, s1);
    VoteGranted(s.nodes[i], s.nodes[v], i);
    s' := Do(s1, DeliverVoteReq(VoteReq(v, r)));
    Vote(g, run + [Elect(i)], s1, v, r, s');
    run' := run + [Elect(i)] + [DeliverVoteReq(VoteReq(v, r))];
  }

  lemma CountedVote(n: Node, i: NodeId, v: NodeId, vt: nat)
    requires vt <= n.currentTerm
    ensures CountVote(StartElection(n, i), v, n.currentTerm + 1, VoteReply(vt, true)) == StartElection(n, i).(votes := {i} + {v})
  {
  }

  lemma Conclude(g: Setting, run: seq<Action>, s: State, i: NodeId, v: NodeId, n: Node, vt: nat) returns (run': seq<Action>, s': State)
    requires Reached(g, run, s) && i in g.active && i in s.nodes && v in s.nodes && i != v && |s.nodes.Keys| == 3
    requires s.nodes[i] == StartElection(n, i) && vt <= n.currentTerm
    requires VoteResp(v, i, n.currentTerm + 1, VoteReply(vt, true)) in s.net
    ensures Reached(g, run', s') && run <= run' && s.net <= s'.net
    ensures s'.nodes == s.nodes[i := Winner(n, i, v, s.nodes.Keys - {i})]
  {
    var a := DeliverVoteResp(VoteResp(v, i, n.currentTerm + 1, VoteReply(vt, true)));
    var s1 := Do(s, a);
    Count(g, run, s, i, v, n.currentTerm + 1, VoteReply(vt, true), s1);
    CountedVote(n, i, v, vt);
    TwoOfThree(s1, i, v, s1.nodes[i]);
    s' := Do(s1, Win(i));
    Crown(g, run + [a], s1, i, s');
    run' := run + [a] + [Win(i)];
    UpdateTwice(s.nodes, i, s1.nodes[i], s'.nodes[i]);
  }

  lemma UpdateTwice(m: map<NodeId, Node>, i: NodeId, x: Node, y: Node)
    requires i in m
    ensures m[i := x][i := y] == m[i := y] && m[i := x].Keys == m.Keys
  {
  }

  lemma UpdateAround(m: map<NodeId, Node>, i: NodeId, v: NodeId, x: Node, y: Node, z: Node)
    requires i in m && v in m && i != v
    ensures m[i := x][v := y][i := z] == m[v := y][i := z] && m[i := x][v := y].Keys == m.Keys
  {
  }

  /** `v` votes for `i` in its next term and `i` wins. */
  lemma Election(g: Setting, run: seq<Action>, s: State, i: NodeId, v: NodeId) returns (run': seq<Action>, s': State)
    requires Reached(g, run, s) && i in g.active && v in g.active && i in s.nodes && v in s.nodes && i != v && |s.nodes.Keys| == 3
    requires WillVote(s.nodes[i], s.nodes[v])
    ensures Reached(g, run', s') && run <= run' && s.net <= s'.net
    ensures s'.nodes == s.nodes[v := Voter(s.nodes[v], Ballot(s.nodes[i], i))][i := Winner(s.nodes[i], i, v, s.nodes.Keys - {i})]
    ensures forall j :: j in s.nodes && j != i ==> VoteReq(j, Ballot(s.nodes[i], i)) in s'.net
  {
    var n, y := s.nodes[i], Voter(s.nodes[v], Ballot(s.nodes[i], i));
    var run1, s1 := Campaign(g, run, s, i, v);
    UpdateAround(s.nodes, i, v, StartElection(n, i), y, Winner(n, i, v, s.nodes.Keys - {i}));
    run', s' := Conclude(g, run1, s1, i, v, n, s.nodes[v].currentTerm);
  }

  // ----- replication -----

  /** The leader sends `r` to `f`, which becomes `f'` by it. */
  lemma Delivery(g: Setting, run: seq<Action>, s: State, l: NodeId, f: NodeId, r: AppendRequest, f': Node, reply: AppendReply)
    returns (run': seq<Action>, s': State)
    requires Reached(g, run, s) && l in g.active && f in g.active && l in s.nodes && f in s.nodes && l != f
    requires s.nodes[l].role == Leader && NextFor(s.nodes[l], f) >= 1 && r == MakeAppend(s.nodes[l], l, f)
    requires HandleAppend(s.nodes[f], r) == (f', reply)
    ensures Reached(g, run', s') && run' == run + [Replicate(l, f)] + [DeliverAppendReq(AppendReq(f, r))] && s.net <= s'.net
    ensures s'.nodes == s.nodes[f := f']
    ensures AppendResp(f, l, r.term, r.prevIndex, |r.entries|, reply) in s'.net
  {
    var s1 := Do(s, Replicate(l, f));
    Send(g, run, s, l, f, s1);
    s' := Do(s1, DeliverAppendReq(AppendReq(f, r)));
    Handle(g, run + [Replicate(l, f)], s1, f, r, s');
    run' := run + [Replicate(l, f)] + [DeliverAppendReq(AppendReq(f, r))];
  }

  lemma Send(g: Setting, run: seq<Action>, s: State, l: NodeId, f: NodeId, s': State)
    requires Reached(g, run, s) && l in g.active && l in s.nodes && f in s.nodes && l != f
    requires s.nodes[l].role == Leader && NextFor(s.nodes[l], f) >= 1 && s' == Do(s, Replicate(l, f))
    ensures Reached(g, run + [Replicate(l, f)], s')
    ensures s'.nodes == s.nodes && s.net <= s'.net && AppendReq(f, MakeAppend(s.nodes[l], l, f)) in s'.net
  {
    Step(g, run, s, Replicate(l, f));
    SendEffect(s, l, f);
  }

  lemma SendEffect(s: State, l: NodeId, f: NodeId)
    requires Enabled(s, Replicate(l, f))
    ensures Do(s, Replicate(l, f)) == State(s.nodes, s.net + {AppendReq(f, MakeAppend(s.nodes[l], l, f))})
  {
    assert s.nodes[l := s.nodes[l]] == s.nodes;
  }

  lemma Handle(g: Setting, run: seq<Action>, s: State, f: NodeId, r: AppendRequest, s': State)
    requires Reached(g, run, s) && f in g.active && f in s.nodes && AppendReq(f, r) in s.net
    requires s' == Do(s, DeliverAppendReq(AppendReq(f, r)))
    ensures Reached(g, run + [DeliverAppendReq(AppendReq(f, r))], s')
    ensures s'.nodes == s.nodes[f := HandleAppend(s.nodes[f], r).0] && s.net <= s'.net
    ensures AppendResp(f, r.leader, r.term, r.prevIndex, |r.entries|, HandleAppend(s.nodes[f], r).1) in s'.net
  {
    Step(g, run, s, DeliverAppendReq(AppendReq(f, r)));
  }

  /** The leader handles a reply of its own term. */
  lemma Answer(g: Setting, run: seq<Action>, s: State, l: NodeId, f: NodeId, t: nat, prev: nat, count: nat, reply: AppendReply, s': State)
    requires Reached(g, run, s) && l in g.active && l in s.nodes && AppendResp(f, l, t, prev, count, reply) in s.net
    requires s.nodes[l].currentTerm == t && s' == Do(s, DeliverAppendResp(AppendResp(f, l, t, prev, count, reply)))
    ensures Reached(g, run + [DeliverAppendResp(AppendResp(f, l, t, prev, count, reply))], s')
    ensures s'.nodes == s.nodes[l := HandleReply(s.nodes[l], f, prev, count, reply, Quorum(s, l))] && s.net <= s'.net
  {
    Step(g, run, s, DeliverAppendResp(AppendResp(f, l, t, prev, count, reply)));
  }

  lemma QuorumOfThree(s: State, l: NodeId)
    requires l in s.nodes && |s.nodes.Keys| == 3
    ensures Quorum(s, l) == 2
  {
    assert |s.nodes.Keys - {l}| == 2;
  }

  /** `n'` is the leader `n` with its whole log committed on the word of `f`. */
  ghost predicate CommittedOn(n: Node, f: NodeId, n': Node)
  {
    && n'.commitIndex == |n.log| && n'.log == n.log && n'.role == Leader && n'.currentTerm == n.currentTerm
    && n'.nextIndex == n.nextIndex[f := |n.log| + 1] && n'.lastApplied == n.lastApplied && n'.applied == n.applied
  }

  /** `n` leads, has something to commit, and knows nothing of `f` yet. */
  ghost predicate Uncommitted(n: Node, f: NodeId)
  {
    n.role == Leader && |n.log| > n.commitIndex && LastTerm(n.log) == n.currentTerm && MatchOf(n, f) == 0
  }

  /** A follower that holds the last index of the leader's term makes the leader commit it. */
  lemma ReplyCommits(n: Node, f: NodeId, prev: nat, count: nat, reply: AppendReply)
    requires Uncommitted(n, f) && prev + count == |n.log| && reply.success && reply.term == n.currentTerm
    ensures CommittedOn(n, f, HandleReply(n, f, prev, count, reply, 2))
  {
    var m := n.matchIndex[f := |n.log|];
    assert f in MatchedPeers(m, |n.log|);
    assert {f} <= MatchedPeers(m, |n.log|);
    assert MatchedPeers(m, |n.log|) == {f} + (MatchedPeers(m, |n.log|) - {f});
  }

  lemma Acknowledge(g: Setting, run: seq<Action>, s: State, l: NodeId, f: NodeId, prev: nat, count: nat, reply: AppendReply) returns (run': seq<Action>, s': State, l': Node)
    requires Reached(g, run, s) && l in g.active && l in s.nodes && |s.nodes.Keys| == 3
    requires Uncommitted(s.nodes[l], f) && prev + count == |s.nodes[l].log| && reply.success && reply.term == s.nodes[l].currentTerm
    requires AppendResp(f, l, reply.term, prev, count, reply) in s.net
    ensures Reached(g, run', s') && run <= run' && s.net <= s'.net && s'.nodes == s.nodes[l := l'] && CommittedOn(s.nodes[l], f, l')
  {
    s' := Do(s, DeliverAppendResp(AppendResp(f, l, reply.term, prev, count, reply)));
    Answer(g, run, s, l, f, reply.term, prev, count, reply, s');
    run' := run + [DeliverAppendResp(AppendResp(f, l, reply.term, prev, count, reply))];
    QuorumOfThree(s, l);
    l' := HandleReply(s.nodes[l], f, prev, count, reply, 2);
    ReplyCommits(s.nodes[l], f, prev, count, reply);
  }

  /** The leader sends the end of its log to a follower that accepts it, and commits it on the reply. */
  lemma Replication(g: Setting, run: seq<Action>, s: State, l: NodeId, f: NodeId, r: AppendRequest, f': Node) returns (run': seq<Action>, s': State, l': Node)
    requires Reached(g, run, s) && l in g.active && f in g.active && l in s.nodes && f in s.nodes && l != f && |s.nodes.Keys| == 3
    requires Uncommitted(s.nodes[l], f) && NextFor(s.nodes[l], f) >= 1
    requires r == MakeAppend(s.nodes[l], l, f) && r.prevIndex + |r.entries| == |s.nodes[l].log|
    requires HandleAppend(s.nodes[f], r) == (f', AppendReply(r.term, true, 0, 0))
    ensures Reached(g, run', s') && run <= run' && s.net <= s'.net && s'.nodes == s.nodes[f := f'][l := l']
    ensures CommittedOn(s.nodes[l], f, l')
  {
    var run1, s1 := Delivery(g, run, s, l, f, r, f', AppendReply(r.term, true, 0, 0));
    assert s1.nodes.Keys == s.nodes.Keys && s1.nodes[l] == s.nodes[l];
    run', s', l' := Acknowledge(g, run1, s1, l, f, r.prevIndex, |r.entries|, AppendReply(r.term, true, 0, 0));
  }

  // ----- series -----

  function PutEntry(t: nat, i: nat): Entry
  {
    Entry(t, i, Put, "k", "v", -1)
  }

  /** `n` proposals of one leader, from index `from` on. */
  function Puts(t: nat, from: nat, n: nat): (es: seq<Entry>)
    ensures |es| == n && forall k :: 0 <= k < n ==> es[k] == PutEntry(t, from + k)
  {
    seq(n, k requires 0 <= k < n => PutEntry(t, from + k))
  }

  lemma SubmitOne(g: Setting, run: seq<Action>, s: State, i: NodeId, s': State)
    requires Reached(g, run, s) && i in g.active && i in s.nodes && s.nodes[i].role == Leader && s' == Do(s, Submit(i, Put, "k", "v", -1))
    ensures Reached(g, run + [Submit(i, Put, "k", "v", -1)], s')
    ensures s'.nodes == s.nodes[i := Propose(s.nodes[i], Put, "k", "v", -1)] && s'.net == s.net
  {
    Step(g, run, s, Submit(i, Put, "k", "v", -1));
  }

  /** Only log and write-ahead log of `n` have grown. */
  ghost predicate Grown(n: Node, n': Node, es: seq<Entry>)
  {
    n' == n.(log := n.log + es, wal := n'.wal)
  }

  lemma GrownOne(n: Node, n1: Node, k: nat)
    requires n.role == Leader && Grown(n, n1, Puts(n.currentTerm, |n.log| + 1, k))
    ensures Grown(n, Propose(n1, Put, "k", "v", -1), Puts(n.currentTerm, |n.log| + 1, k + 1))
  {
    var t, from := n.currentTerm, |n.log| + 1;
    assert Puts(t, from, k + 1) == Puts(t, from, k) + [PutEntry(t, from + k)];
    assert n.log + Puts(t, from, k + 1) == (n.log + Puts(t, from, k)) + [PutEntry(t, from + k)];
  }

  lemma {:induction false} SubmitMany(g: Setting, run: seq<Action>, s: State, i: NodeId, n: nat) returns (run': seq<Action>, s': State)
    requires Reached(g, run, s) && i in g.active && i in s.nodes && s.nodes[i].role == Leader
    ensures Reached(g, run', s') && run <= run' && s'.net == s.net && i in s'.nodes
    ensures s'.nodes == s.nodes[i := s'.nodes[i]]
    ensures Grown(s.nodes[i], s'.nodes[i], Puts(s.nodes[i].currentTerm, |s.nodes[i].log| + 1, n))
    decreases n
  {
    if n == 0 {
      run', s' := run, s;
      assert s.nodes[i].log + Puts(s.nodes[i].currentTerm, |s.nodes[i].log| + 1, 0) == s.nodes[i].log;
    } else {
      var run1, s1 := SubmitMany(g, run, s, i, n - 1);
      s' := Do(s1, Submit(i, Put, "k", "v", -1));
      SubmitOne(g, run1, s1, i, s');
      run' := run1 + [Submit(i, Put, "k", "v", -1)];
      GrownOne(s.nodes[i], s1.nodes[i], n - 1);
      UpdateTwice(s.nodes, i, s1.nodes[i], s'.nodes[i]);
    }
  }

  lemma ApplyNextOne(n: Node, k: nat)
    requires n.lastApplied == k < n.commitIndex <= |n.log| && n.applied == n.log[..k]
    ensures ApplyNext(n) == n.(lastApplied := k + 1, applied := n.log[..k + 1])
  {
    assert n.log[..k + 1] == n.log[..k] + [n.log[k]];
  }

  /** Node `i` applies its first `n` committed entries. */
  lemma {:induction false} ApplyMany(g: Setting, run: seq<Action>, s: State, i: NodeId, n: nat) returns (run': seq<Action>, s': State)
    requires Reached(g, run, s) && i in g.active && i in s.nodes && s.nodes[i].lastApplied == 0 && s.nodes[i].applied == []
    requires n <= s.nodes[i].commitIndex <= |s.nodes[i].log|
    ensures Reached(g, run', s') && run <= run' && s'.net == s.net
    ensures s'.nodes == s.nodes[i := s.nodes[i].(lastApplied := n, applied := s.nodes[i].log[..n])]
    decreases n
  {
    if n == 0 {
      run', s' := run, s;
      assert s.nodes[i] == s.nodes[i].(lastApplied := 0, applied := s.nodes[i].log[..0]);
      assert s.nodes[i := s.nodes[i]] == s.nodes;
    } else {
      var run1, s1 := ApplyMany(g, run, s, i, n - 1);
      s' := Do(s1, Apply(i));
      Step(g, run1, s1, Apply(i));
      run' := run1 + [Apply(i)];
      ApplyNextOne(s1.nodes[i], n - 1);
      UpdateTwice(s.nodes, i, s1.nodes[i], s'.nodes[i]);
    }
  }

  // ----- three nodes -----

  /** What the leader of term `t` writes into an empty log. */
  function TermLog(t: nat): Log
  {
    [NoOpEntry(t, 1), PutEntry(t, 2)]
  }

  ghost predicate Looks(n: Node, role: Role, term: nat, log: Log, commit: nat, applied: nat)
  {
    n.role == role && n.currentTerm == term && n.log == log && n.commitIndex == commit && n.lastApplied == applied
    && n.applied == if applied <= |log| then log[..applied] else []
  }

  /** Node 0 has won term 1 with the vote of node 2. */
  lemma FirstElection() returns (run: seq<Action>, s: State)
    ensures Reached(START, run, s) && s.nodes.Keys == THREE
    ensures Looks(s.nodes[0], Leader, 1, [NoOpEntry(1, 1)], 0, 0) && s.nodes[1] == FRESH && Looks(s.nodes[2], Follower, 1, [], 0, 0)
    ensures NextFor(s.nodes[0], 1) == NextFor(s.nodes[0], 2) == 1 && MatchOf(s.nodes[0], 1) == MatchOf(s.nodes[0], 2) == 0
    ensures VoteReq(1, Ballot(FRESH, 0)) in s.net
  {
    Start();
    Size();
    var s0 := Init(THREE);
    assert s0.nodes.Keys == THREE;
    run, s := Election(START, [], s0, 0, 2);
    FirstWinner(s0, s);
  }

  lemma FirstWinner(s0: State, s: State)
    requires s0 == Init(THREE)
    requires s.nodes == s0.nodes[2 := Voter(FRESH, Ballot(FRESH, 0))][0 := Winner(FRESH, 0, 2, THREE - {0})]
    ensures s.nodes.Keys == THREE && s.nodes[1] == FRESH
    ensures Looks(s.nodes[0], Leader, 1, [NoOpEntry(1, 1)], 0, 0) && Looks(s.nodes[2], Follower, 1, [], 0, 0)
    ensures NextFor(s.nodes[0], 1) == NextFor(s.nodes[0], 2) == 1 && MatchOf(s.nodes[0], 1) == MatchOf(s.nodes[0], 2) == 0
  {
    WinnerIs(FRESH, 0, 2, THREE - {0});
    VoteGranted(FRESH, FRESH, 0);
    assert 1 in THREE - {0} && 2 in THREE - {0};
  }

  /** A batch from the beginning that conflicts with all of the log replaces it. */
  lemma Replaced(n: Node, r: AppendRequest)
    requires n.currentTerm <= r.term && r.prevIndex == 0 && r.entries != [] && (n.log == [] || n.log[0].term != r.entries[0].term)
    requires r.leaderCommit <= |r.entries| && n.commitIndex == 0
    ensures var (n', reply) := HandleAppend(n, r);
            && reply == AppendReply(n.currentTerm, true, 0, 0)
            && n'.currentTerm == r.term && n'.log == r.entries && n'.commitIndex == r.leaderCommit
            && n'.lastApplied == n.lastApplied && n'.applied == n.applied
            && n'.role == (if n.currentTerm < r.term then Follower else n.role)
  {
    assert n.log[..0] + r.entries == r.entries;
  }

  /** What a leader with a short log sends to a peer it starts over with. */
  lemma WholeLogSent(l: Node, i: NodeId, f: NodeId)
    requires NextFor(l, f) == 1 && |l.log| <= MAX_BATCH
    ensures MakeAppend(l, i, f) == AppendRequest(l.currentTerm, i, 0, 0, l.log, l.commitIndex)
  {
  }

  /** The request of term 1 that node 1 is to receive much later. */
  const DELAYED: AppendRequest := AppendRequest(1, 0, 0, 0, [NoOpEntry(1, 1)], 0)

  ghost predicate Pending(s: State)
  {
    s.nodes.Keys == THREE && AppendReq(1, DELAYED) in s.net
  }

  lemma SendDelayed() returns (run: seq<Action>, s: State)
    ensures Reached(START, run, s) && Pending(s)
    ensures Looks(s.nodes[0], Leader, 1, [NoOpEntry(1, 1)], 0, 0) && NextFor(s.nodes[0], 1) == NextFor(s.nodes[0], 2) == 1 && MatchOf(s.nodes[0], 1) == MatchOf(s.nodes[0], 2) == 0
    ensures s.nodes[1] == FRESH && Looks(s.nodes[2], Follower, 1, [], 0, 0)
    ensures VoteReq(1, Ballot(FRESH, 0)) in s.net
  {
    var run0, s0 := FirstElection();
    WholeLogSent(s0.nodes[0], 0, 1);
    s := Do(s0, Replicate(0, 1));
    Send(START, run0, s0, 0, 1, s);
    run := run0 + [Replicate(0, 1)];
  }
}
