/**
 An execution in which one restart loses an entry the node had acknowledged, and two nodes apply different
 entries at the same index. Everything before and after that one action is regular.
 */
module LossyRestart {
  import opened Types
  import opened Logs
  import opened WalRecords
  import opened NodeSpec
  import opened Cluster
  import opened Scenarios

  const NOOP: Log := [NoOpEntry(1, 1)]

  /** The peer tables of a new leader. */
  ghost predicate Tables(n: Node, next: nat)
  {
    NextFor(n, 1) == NextFor(n, 2) == next && MatchOf(n, 1) == MatchOf(n, 2) == 0
  }

  // ----- term 1: node 0 commits on itself and node 1, an older batch to node 1 still under way -----

  /** What node 1 writes when it votes, and then when it stores the leader's log. */
  const BALLOT: seq<WalRecord> := [HardRec(1, None), HardRec(1, Some(0))]

  const DISK: seq<WalRecord> := BALLOT + LogRecs(TermLog(1))

  /** Nodes 1 and 2 follow node 0; node 2 holds its first entry. */
  ghost predicate Opened(s: State, log: Log)
  {
    && Pending(s)
    && Looks(s.nodes[0], Leader, 1, log, 0, 0) && Tables(s.nodes[0], 1)
    && Looks(s.nodes[1], Follower, 1, [], 0, 0) && s.nodes[1].wal == BALLOT
    && Looks(s.nodes[2], Follower, 1, NOOP, 0, 0)
  }

  lemma Opening() returns (run: seq<Action>, s: State)
    ensures Reached(START, run, s) && Opened(s, NOOP)
  {
    var run1, s1 := SendDelayed();
    WholeLogSent(s1.nodes[0], 0, 2);
    Replaced(s1.nodes[2], DELAYED);
    var run2, s2 := Delivery(START, run1, s1, 0, 2, DELAYED, HandleAppend(s1.nodes[2], DELAYED).0, AppendReply(1, true, 0, 0));
    VoteGranted(FRESH, FRESH, 0);
    s := Do(s2, DeliverVoteReq(VoteReq(1, Ballot(FRESH, 0))));
    Vote(START, run2, s2, 1, Ballot(FRESH, 0), s);
    run := run2 + [DeliverVoteReq(VoteReq(1, Ballot(FRESH, 0)))];
  }

  lemma Proposing(run: seq<Action>, s: State) returns (run': seq<Action>, s': State)
    requires Reached(START, run, s) && Opened(s, NOOP)
    ensures Reached(START, run', s') && Opened(s', TermLog(1))
  {
    s' := Do(s, Submit(0, Put, "k", "v", -1));
    SubmitOne(START, run, s, 0, s');
    run' := run + [Submit(0, Put, "k", "v", -1)];
    assert NOOP + [PutEntry(1, 2)] == TermLog(1);
  }

  /** Node 1 stores the leader's log. */
  lemma Stores(n: Node) returns (n': Node)
    requires Looks(n, Follower, 1, [], 0, 0) && n.wal == BALLOT
    ensures HandleAppend(n, AppendRequest(1, 0, 0, 0, TermLog(1), 0)) == (n', AppendReply(1, true, 0, 0))
    ensures Looks(n', Follower, 1, TermLog(1), 0, 0) && n'.wal == DISK
  {
    var r := AppendRequest(1, 0, 0, 0, TermLog(1), 0);
    Replaced(n, r);
    n' := HandleAppend(n, r).0;
  }

  /** Node 0 has committed on the acknowledgement of node 1. */
  ghost predicate Committed(s: State, applied: nat, disk: seq<WalRecord>)
  {
    && Pending(s)
    && Looks(s.nodes[0], Leader, 1, TermLog(1), 2, applied)
    && Looks(s.nodes[1], Follower, 1, TermLog(1), 0, 0) && s.nodes[1].wal == disk
    && Looks(s.nodes[2], Follower, 1, NOOP, 0, 0)
  }

  lemma Committing(run: seq<Action>, s: State) returns (run': seq<Action>, s': State)
    requires Reached(START, run, s) && Opened(s, TermLog(1))
    ensures Reached(START, run', s') && Committed(s', 0, DISK)
  {
    Size();
    WholeLogSent(s.nodes[0], 0, 1);
    var n' := Stores(s.nodes[1]);
    var l';
    run', s', l' := Replication(START, run, s, 0, 1, AppendRequest(1, 0, 0, 0, TermLog(1), 0), n');
  }

  lemma Applying(run: seq<Action>, s: State) returns (run': seq<Action>, s': State)
    requires Reached(START, run, s) && Committed(s, 0, DISK)
    ensures Reached(START, run', s') && Committed(s', 2, DISK)
  {
    run', s' := ApplyMany(START, run, s, 0, 2);
  }

  /** The older batch arrives: nothing changes in memory, and on disk its entry is written once more. */
  lemma Repeats(n: Node) returns (n': Node)
    requires Looks(n, Follower, 1, TermLog(1), 0, 0) && n.wal == DISK
    ensures HandleAppend(n, DELAYED).0 == n' && Looks(n', Follower, 1, TermLog(1), 0, 0) && n'.wal == DISK + LogRecs(NOOP)
  {
    assert NOOP == TermLog(1)[0..1];
    SpliceOwn(TermLog(1), 0, 1);
    n' := HandleAppend(n, DELAYED).0;
  }

  lemma Repeating(run: seq<Action>, s: State) returns (run': seq<Action>, s': State)
    requires Reached(START, run, s) && Committed(s, 2, DISK)
    ensures Reached(START, run', s') && Committed(s', 2, DISK + LogRecs(NOOP))
  {
    var n' := Repeats(s.nodes[1]);
    s' := Do(s, DeliverAppendReq(AppendReq(1, DELAYED)));
    Handle(START, run, s, 1, DELAYED, s');
    run' := run + [DeliverAppendReq(AppendReq(1, DELAYED))];
  }

  lemma LossReached() returns (run: seq<Action>, s: State)
    ensures Reached(START, run, s) && Committed(s, 2, DISK + LogRecs(NOOP))
  {
    var run1, s1 := Opening();
    var run2, s2 := Proposing(run1, s1);
    var run3, s3 := Committing(run2, s2);
    var run4, s4 := Applying(run3, s3);
    run, s := Repeating(run4, s4);
  }

  // ----- the restart -----

  lemma Voted()
    ensures Recover(BALLOT) == Recovery([], 1, Some(0), None, 0, 0)
  {
    assert BALLOT[..1] == [HardRec(1, None)];
  }

  /** A batch from the first index on makes recovery start over. */
  lemma StartsOver(disk: seq<WalRecord>, log: Log, first: seq<Entry>)
    requires Recover(disk).entries == log && WellIndexed(log) && Numbered(0, first) && first != []
    ensures Recover(disk + LogRecs(first)) == Recover(disk).(entries := first)
  {
    RecoverBatch(disk, first);
    PopFromCuts(log, 0);
  }

  /** Recovery stops at the repeated entry. */
  lemma Repeated()
    ensures Recover(DISK + LogRecs(NOOP)) == Recovery(NOOP, 1, Some(0), None, 0, 0)
  {
    Voted();
    StartsOver(BALLOT, [], TermLog(1));
    StartsOver(DISK, TermLog(1), NOOP);
  }

  lemma Forgets(n: Node)
    requires Looks(n, Follower, 1, TermLog(1), 0, 0) && n.wal == DISK + LogRecs(NOOP)
    ensures !Intact(n) && Looks(Restart(n), Follower, 1, NOOP, 0, 0)
  {
    Repeated();
  }

  ghost predicate Forgotten(s: State)
  {
    && s.nodes.Keys == THREE
    && Looks(s.nodes[0], Leader, 1, TermLog(1), 2, 2)
    && Looks(s.nodes[1], Follower, 1, NOOP, 0, 0) && Looks(s.nodes[2], Follower, 1, NOOP, 0, 0)
  }

  lemma Forgetting(run: seq<Action>, s: State) returns (s': State)
    requires Reached(START, run, s) && Committed(s, 2, DISK + LogRecs(NOOP))
    ensures !Regular(s, Crash(1)) && Reached(Beyond(run, Crash(1)), run + [Crash(1)], s') && Forgotten(s')
  {
    Forgets(s.nodes[1]);
    s' := Do(s, Crash(1));
    AnyStep(run, s, Crash(1), s');
  }

  // ----- term 2: node 1 leads without the entry and commits another one -----

  const LATER: Log := NOOP + [NoOpEntry(2, 2)]

  ghost predicate Usurped(s: State, commit: nat)
  {
    && s.nodes.Keys == THREE
    && Looks(s.nodes[0], Leader, 1, TermLog(1), 2, 2)
    && Looks(s.nodes[1], Leader, 2, LATER, commit, 0)
  }

  lemma ToUsurped(s: State, s': State, v: Node, w: Node)
    requires Forgotten(s) && s'.nodes == s.nodes[2 := v][1 := w]
    requires Looks(v, Follower, 2, NOOP, 0, 0) && Looks(w, Leader, 2, LATER, 0, 0)
    requires forall p :: p in THREE - {1} ==> p in w.nextIndex && w.nextIndex[p] == 2 && p in w.matchIndex && w.matchIndex[p] == 0
    ensures Usurped(s', 0) && s'.nodes[2] == v && NextFor(s'.nodes[1], 2) == 2 && MatchOf(s'.nodes[1], 2) == 0
  {
    assert 2 in THREE - {1};
  }

  lemma Usurping(g: Setting, run: seq<Action>, s: State) returns (run': seq<Action>, s': State)
    requires g.active == THREE && Reached(g, run, s) && Forgotten(s)
    ensures Reached(g, run', s') && run <= run' && Usurped(s', 0) && Looks(s'.nodes[2], Follower, 2, NOOP, 0, 0)
    ensures NextFor(s'.nodes[1], 2) == 2 && MatchOf(s'.nodes[1], 2) == 0
  {
    Size();
    WinnerIs(s.nodes[1], 1, 2, s.nodes.Keys - {1});
    VoteGranted(s.nodes[1], s.nodes[2], 1);
    run', s' := Election(g, run, s, 1, 2);
    ToUsurped(s, s', Voter(s.nodes[2], Ballot(s.nodes[1], 1)), Winner(s.nodes[1], 1, 2, s.nodes.Keys - {1}));
  }

  /** Node 2 accepts the entry of term 2. */
  lemma Follows(n: Node) returns (n': Node)
    requires Looks(n, Follower, 2, NOOP, 0, 0)
    ensures HandleAppend(n, AppendRequest(2, 1, 1, 1, [NoOpEntry(2, 2)], 0)) == (n', AppendReply(2, true, 0, 0))
  {
    n' := HandleAppend(n, AppendRequest(2, 1, 1, 1, [NoOpEntry(2, 2)], 0)).0;
  }

  lemma Recommitting(g: Setting, run: seq<Action>, s: State) returns (run': seq<Action>, s': State)
    requires g.active == THREE && Reached(g, run, s) && Usurped(s, 0) && Looks(s.nodes[2], Follower, 2, NOOP, 0, 0)
    requires NextFor(s.nodes[1], 2) == 2 && MatchOf(s.nodes[1], 2) == 0
    ensures Reached(g, run', s') && run <= run' && Usurped(s', 2)
  {
    Size();
    var r := AppendRequest(2, 1, 1, 1, [NoOpEntry(2, 2)], 0);
    assert MakeAppend(s.nodes[1], 1, 2) == r;
    var n' := Follows(s.nodes[2]);
    var l';
    run', s', l' := Replication(g, run, s, 1, 2, r, n');
  }

  lemma Diverging(g: Setting, run: seq<Action>, s: State) returns (run': seq<Action>, s': State)
    requires g.active == THREE && Reached(g, run, s) && Usurped(s, 2)
    ensures Reached(g, run', s') && run <= run' && Diverged(s')
  {
    run', s' := ApplyMany(g, run, s, 1, 2);
    assert LATER[1] != TermLog(1)[1];
  }

  lemma Aftermath(g: Setting, run: seq<Action>, s: State) returns (run': seq<Action>, s': State)
    requires g.active == THREE && Reached(g, run, s) && Forgotten(s)
    ensures Reached(g, run', s') && run <= run' && Diverged(s')
  {
    var run1, s1 := Usurping(g, run, s);
    var run2, s2 := Recommitting(g, run1, s1);
    run', s' := Diverging(g, run2, s2);
  }

  /** One restart that loses an acknowledged entry breaks state machine safety. */
  lemma LossyRestartBreaksSafety()
    ensures exists run: seq<Action>, k: nat :: BrokenBy(run, k) && run[k].Crash?
  {
    var run, s := LossReached();
    var s1 := Forgetting(run, s);
    var run2, s2 := Aftermath(Beyond(run, Crash(1)), run + [Crash(1)], s1);
    Breaks(run, s, Crash(1), run2, s2);
  }
}
