/**
 An execution in which the leader takes one stale reply at face value, and two nodes apply different
 entries at the same index. Everything before and after that one action is regular.
 */
module StaleReply {
  import opened Types
  import opened Logs
  import opened NodeSpec
  import opened Cluster
  import opened Scenarios

  /** A full batch of entries that all three nodes hold. */
  function Common(): (log: Log)
    ensures |log| == MAX_BATCH && LastTerm(log) == 1 && log[0] == NoOpEntry(1, 1)
  {
    [NoOpEntry(1, 1)] + Puts(1, 2, MAX_BATCH - 1)
  }

  function Led(t: nat): (log: Log)
    ensures |log| == MAX_BATCH + 1 && log[..MAX_BATCH] == Common() && log[MAX_BATCH] == NoOpEntry(t, MAX_BATCH + 1) && LastTerm(log) == t
  {
    Common() + [NoOpEntry(t, MAX_BATCH + 1)]
  }

  // ----- term 1: all three nodes hold the common entries -----

  lemma Fill(run: seq<Action>, s: State) returns (run': seq<Action>, s': State)
    requires Reached(START, run, s) && Pending(s)
    requires Looks(s.nodes[0], Leader, 1, [NoOpEntry(1, 1)], 0, 0) && NextFor(s.nodes[0], 1) == NextFor(s.nodes[0], 2) == 1
    ensures Reached(START, run', s') && Pending(s')
    ensures Looks(s'.nodes[0], Leader, 1, Common(), 0, 0) && NextFor(s'.nodes[0], 1) == NextFor(s'.nodes[0], 2) == 1
    ensures s'.nodes[1] == s.nodes[1] && s'.nodes[2] == s.nodes[2]
  {
    run', s' := SubmitMany(START, run, s, 0, MAX_BATCH - 1);
  }

  lemma Copied(n: Node) returns (n': Node, reply: AppendReply)
    requires n.log == [] && n.currentTerm <= 1 && n.commitIndex == 0 && n.lastApplied == 0 && n.applied == [] && n.role == Follower
    ensures HandleAppend(n, AppendRequest(1, 0, 0, 0, Common(), 0)) == (n', reply) && Looks(n', Follower, 1, Common(), 0, 0)
  {
    var r := AppendRequest(1, 0, 0, 0, Common(), 0);
    Replaced(n, r);
    n', reply := HandleAppend(n, r).0, HandleAppend(n, r).1;
  }

  lemma CopyTo(run: seq<Action>, s: State, f: NodeId) returns (run': seq<Action>, s': State)
    requires Reached(START, run, s) && Pending(s) && f in THREE && f != 0
    requires Looks(s.nodes[0], Leader, 1, Common(), 0, 0) && NextFor(s.nodes[0], f) == 1
    requires s.nodes[f].log == [] && s.nodes[f].currentTerm <= 1 && s.nodes[f].commitIndex == 0
             && s.nodes[f].lastApplied == 0 && s.nodes[f].applied == [] && s.nodes[f].role == Follower
    ensures Reached(START, run', s') && Pending(s') && s'.nodes == s.nodes[f := s'.nodes[f]]
    ensures Looks(s'.nodes[f], Follower, 1, Common(), 0, 0)
  {
    WholeLogSent(s.nodes[0], 0, f);
    var n', reply := Copied(s.nodes[f]);
    run', s' := Delivery(START, run, s, 0, f, AppendRequest(1, 0, 0, 0, Common(), 0), n', reply);
  }

  ghost predicate Even(s: State)
  {
    && Pending(s)
    && Looks(s.nodes[0], Leader, 1, Common(), 0, 0)
    && Looks(s.nodes[1], Follower, 1, Common(), 0, 0) && Looks(s.nodes[2], Follower, 1, Common(), 0, 0)
  }

  lemma TermOne() returns (run: seq<Action>, s: State)
    ensures Reached(START, run, s) && Even(s)
  {
    var run1, s1 := SendDelayed();
    var run2, s2 := Fill(run1, s1);
    var run3, s3 := CopyTo(run2, s2, 1);
    run, s := CopyTo(run3, s3, 2);
  }

  // ----- terms 2 and 3: node 1 leads and is overthrown by node 0, which commits -----

  ghost predicate Split(s: State)
  {
    && Pending(s)
    && Looks(s.nodes[0], Follower, 2, Common(), 0, 0)
    && Looks(s.nodes[1], Leader, 2, Led(2), 0, 0) && Looks(s.nodes[2], Follower, 1, Common(), 0, 0)
  }

  lemma ToSplit(s: State, s': State, v: Node, w: Node)
    requires Even(s) && s'.nodes == s.nodes[0 := v][1 := w] && s.net <= s'.net
    requires Looks(v, Follower, 2, Common(), 0, 0) && Looks(w, Leader, 2, Led(2), 0, 0)
    ensures Split(s')
  {
  }

  lemma TermTwo(run: seq<Action>, s: State) returns (run': seq<Action>, s': State)
    requires Reached(START, run, s) && Even(s)
    ensures Reached(START, run', s') && Split(s')
  {
    Size();
    WinnerIs(s.nodes[1], 1, 0, s.nodes.Keys - {1});
    VoteGranted(s.nodes[1], s.nodes[0], 1);
    run', s' := Election(START, run, s, 1, 0);
    ToSplit(s, s', Voter(s.nodes[0], Ballot(s.nodes[1], 1)), Winner(s.nodes[1], 1, 0, s.nodes.Keys - {1}));
  }

  ghost predicate Overthrown(s: State)
  {
    && Pending(s)
    && Looks(s.nodes[0], Leader, 3, Led(3), 0, 0) && NextFor(s.nodes[0], 2) == MAX_BATCH + 1 && MatchOf(s.nodes[0], 2) == 0
    && Looks(s.nodes[1], Leader, 2, Led(2), 0, 0) && Looks(s.nodes[2], Follower, 3, Common(), 0, 0)
    && VoteReq(1, VoteRequest(3, 0, MAX_BATCH, 1)) in s.net
  }

  lemma ToOverthrown(s: State, s': State, v: Node, w: Node)
    requires Split(s) && s'.nodes == s.nodes[2 := v][0 := w] && s.net <= s'.net && VoteReq(1, VoteRequest(3, 0, MAX_BATCH, 1)) in s'.net
    requires Looks(v, Follower, 3, Common(), 0, 0) && Looks(w, Leader, 3, Led(3), 0, 0)
    requires forall p :: p in THREE - {0} ==> p in w.nextIndex && w.nextIndex[p] == MAX_BATCH + 1 && p in w.matchIndex && w.matchIndex[p] == 0
    ensures Overthrown(s')
  {
    assert 2 in THREE - {0};
  }

  lemma TermThree(run: seq<Action>, s: State) returns (run': seq<Action>, s': State)
    requires Reached(START, run, s) && Split(s)
    ensures Reached(START, run', s') && Overthrown(s')
  {
    Size();
    WinnerIs(s.nodes[0], 0, 2, s.nodes.Keys - {0});
    VoteGranted(s.nodes[0], s.nodes[2], 0);
    assert Ballot(s.nodes[0], 0) == VoteRequest(3, 0, MAX_BATCH, 1);
    run', s' := Election(START, run, s, 0, 2);
    assert VoteReq(1, Ballot(s.nodes[0], 0)) in s'.net;
    ToOverthrown(s, s', Voter(s.nodes[2], Ballot(s.nodes[0], 0)), Winner(s.nodes[0], 0, 2, s.nodes.Keys - {0}));
  }

  /** Node 1 learns of term 3 and refuses its vote, since its log is further on. */
  lemma Refused(n: Node)
    requires Looks(n, Leader, 2, Led(2), 0, 0)
    ensures Looks(Voter(n, VoteRequest(3, 0, MAX_BATCH, 1)), Follower, 3, Led(2), 0, 0)
  {
  }

  /** One new entry behind the common ones is accepted. */
  lemma Extended(n: Node) returns (n': Node)
    requires Looks(n, Follower, 3, Common(), 0, 0)
    ensures HandleAppend(n, AppendRequest(3, 0, MAX_BATCH, 1, [NoOpEntry(3, MAX_BATCH + 1)], 0)) == (n', AppendReply(3, true, 0, 0))
    ensures Looks(n', Follower, 3, Led(3), 0, 0)
  {
    var r := AppendRequest(3, 0, MAX_BATCH, 1, [NoOpEntry(3, MAX_BATCH + 1)], 0);
    assert Common()[..MAX_BATCH] == Common();
    n' := HandleAppend(n, r).0;
  }

  lemma LastSent(l: Node)
    requires Looks(l, Leader, 3, Led(3), 0, 0) && NextFor(l, 2) == MAX_BATCH + 1
    ensures MakeAppend(l, 0, 2) == AppendRequest(3, 0, MAX_BATCH, 1, [NoOpEntry(3, MAX_BATCH + 1)], 0)
  {
    assert Led(3)[MAX_BATCH - 1] == Led(3)[..MAX_BATCH][MAX_BATCH - 1];
    assert Led(3)[MAX_BATCH..MAX_BATCH + 1] == [NoOpEntry(3, MAX_BATCH + 1)];
  }

  ghost predicate Armed(s: State, commit: nat)
  {
    && Pending(s)
    && Looks(s.nodes[0], Leader, 3, Led(3), commit, 0) && Looks(s.nodes[1], Follower, 3, Led(2), 0, 0)
  }

  lemma Demote(run: seq<Action>, s: State) returns (run': seq<Action>, s': State)
    requires Reached(START, run, s) && Overthrown(s)
    ensures Reached(START, run', s') && Armed(s', 0) && s'.nodes[0] == s.nodes[0] && s'.nodes[2] == s.nodes[2]
  {
    var r := VoteRequest(3, 0, MAX_BATCH, 1);
    s' := Do(s, DeliverVoteReq(VoteReq(1, r)));
    Vote(START, run, s, 1, r, s');
    Refused(s.nodes[1]);
    run' := run + [DeliverVoteReq(VoteReq(1, r))];
  }

  lemma Commit(run: seq<Action>, s: State) returns (run': seq<Action>, s': State)
    requires Reached(START, run, s) && Armed(s, 0) && Looks(s.nodes[2], Follower, 3, Common(), 0, 0)
    requires NextFor(s.nodes[0], 2) == MAX_BATCH + 1 && MatchOf(s.nodes[0], 2) == 0
    ensures Reached(START, run', s') && Armed(s', MAX_BATCH + 1)
  {
    Size();
    LastSent(s.nodes[0]);
    var n' := Extended(s.nodes[2]);
    var l';
    run', s', l' := Replication(START, run, s, 0, 2, AppendRequest(3, 0, MAX_BATCH, 1, [NoOpEntry(3, MAX_BATCH + 1)], 0), n');
  }

  // ----- the stale reply -----

  const STALE: Message := AppendResp(1, 0, 1, 0, 1, AppendReply(3, false, 0, 0))

  lemma Bounce(run: seq<Action>, s: State) returns (run': seq<Action>, s': State)
    requires Reached(START, run, s) && Armed(s, MAX_BATCH + 1)
    ensures Reached(START, run', s') && Armed(s', MAX_BATCH + 1) && STALE in s'.net
  {
    s' := Do(s, DeliverAppendReq(AppendReq(1, DELAYED)));
    Handle(START, run, s, 1, DELAYED, s');
    run' := run + [DeliverAppendReq(AppendReq(1, DELAYED))];
  }

  /** A run that ends with a stale reply under way to node 0. */
  lemma StaleReplyReached() returns (run: seq<Action>, s: State)
    ensures Reached(START, run, s) && Armed(s, MAX_BATCH + 1) && STALE in s.net
  {
    var run1, s1 := TermOne();
    var run2, s2 := TermTwo(run1, s1);
    var run3, s3 := TermThree(run2, s2);
    var run4, s4 := Demote(run3, s3);
    var run5, s5 := Commit(run4, s4);
    run, s := Bounce(run5, s5);
  }

  // ----- what follows when node 0 takes it at face value -----

  ghost predicate Rewound(s: State, commit: nat)
  {
    && s.nodes.Keys == THREE
    && Looks(s.nodes[0], Leader, 3, Led(3), MAX_BATCH + 1, 0) && NextFor(s.nodes[0], 1) == 1
    && Looks(s.nodes[1], Follower, 3, Led(2), commit, 0)
  }

  lemma RewindsNext(n: Node, q: nat)
    requires n.role == Leader && n.currentTerm == 3
    ensures HandleReply(n, 1, 0, 1, AppendReply(3, false, 0, 0), q) == n.(nextIndex := n.nextIndex[1 := 1])
  {
  }

  lemma Rewind(run: seq<Action>, s: State) returns (s': State)
    requires Reached(START, run, s) && Armed(s, MAX_BATCH + 1) && STALE in s.net
    ensures Enabled(s, DeliverAppendResp(STALE)) && !Regular(s, DeliverAppendResp(STALE))
    ensures Reached(Beyond(run, DeliverAppendResp(STALE)), run + [DeliverAppendResp(STALE)], s') && Rewound(s', 0)
  {
    s' := Do(s, DeliverAppendResp(STALE));
    AnyStep(run, s, DeliverAppendResp(STALE), s');
    RewindsNext(s.nodes[0], Quorum(s, 0));
  }

  lemma FirstBatch(l: Node)
    requires Looks(l, Leader, 3, Led(3), MAX_BATCH + 1, 0) && NextFor(l, 1) == 1
    ensures MakeAppend(l, 0, 1) == AppendRequest(3, 0, 0, 0, Common(), MAX_BATCH + 1)
  {
    assert Led(3)[0..MAX_BATCH] == Led(3)[..MAX_BATCH];
  }

  /** The batch stops inside the common entries, and the follower commits up to its own last index. */
  lemma CommitsForeign(n: Node) returns (n': Node)
    requires Looks(n, Follower, 3, Led(2), 0, 0)
    ensures HandleAppend(n, AppendRequest(3, 0, 0, 0, Common(), MAX_BATCH + 1)) == (n', AppendReply(3, true, 0, 0))
    ensures Looks(n', Follower, 3, Led(2), MAX_BATCH + 1, 0)
  {
    assert Common() == Led(2)[0..MAX_BATCH];
    SpliceOwn(Led(2), 0, MAX_BATCH);
    n' := HandleAppend(n, AppendRequest(3, 0, 0, 0, Common(), MAX_BATCH + 1)).0;
  }

  lemma CommitForeign(g: Setting, run: seq<Action>, s: State) returns (run': seq<Action>, s': State)
    requires g.active == THREE && Reached(g, run, s) && Rewound(s, 0)
    ensures Reached(g, run', s') && Rewound(s', MAX_BATCH + 1) && run <= run'
  {
    FirstBatch(s.nodes[0]);
    var n' := CommitsForeign(s.nodes[1]);
    run', s' := Delivery(g, run, s, 0, 1, AppendRequest(3, 0, 0, 0, Common(), MAX_BATCH + 1), n', AppendReply(3, true, 0, 0));
    ToCommitted(s, s', n');
  }

  lemma ToCommitted(s: State, s': State, n': Node)
    requires Rewound(s, 0) && s'.nodes == s.nodes[1 := n'] && Looks(n', Follower, 3, Led(2), MAX_BATCH + 1, 0)
    ensures Rewound(s', MAX_BATCH + 1)
  {
  }

  lemma ApplyBoth(g: Setting, run: seq<Action>, s: State) returns (run': seq<Action>, s': State)
    requires g.active == THREE && Reached(g, run, s) && Rewound(s, MAX_BATCH + 1)
    ensures Reached(g, run', s') && Diverged(s') && run <= run'
  {
    var run1, s1 := ApplyMany(g, run, s, 0, MAX_BATCH + 1);
    run', s' := ApplyMany(g, run1, s1, 1, MAX_BATCH + 1);
    assert Led(3)[..MAX_BATCH + 1] == Led(3) && Led(2)[..MAX_BATCH + 1] == Led(2);
    assert Led(3)[MAX_BATCH] != Led(2)[MAX_BATCH];
  }

  /** One stale reply taken at face value breaks state machine safety. */
  lemma StaleReplyBreaksSafety()
    ensures exists run: seq<Action>, k: nat :: BrokenBy(run, k) && run[k].DeliverAppendResp?
  {
    var run, s := StaleReplyReached();
    var s1 := Rewind(run, s);
    var run2, s2 := CommitForeign(Beyond(run, DeliverAppendResp(STALE)), run + [DeliverAppendResp(STALE)], s1);
    var run3, s3 := ApplyBoth(Beyond(run, DeliverAppendResp(STALE)), run2, s2);
    Breaks(run, s, DeliverAppendResp(STALE), run3, s3);
  }
}
