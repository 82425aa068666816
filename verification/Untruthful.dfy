/**
 A run in which `Propose` answers ok for an entry that was not applied: the proposer loses its leadership
 and the entry, applies another one at that index, and leads again when it looks.
 */
module Untruthful {
  import opened Types
  import opened Logs
  import opened NodeSpec
  import opened Cluster
  import opened Safety
  import opened Scenarios

  /** Node 0 leads term 1 and has taken a proposal that nobody else has. */
  ghost predicate Stage1(s: State)
  {
    && s.nodes.Keys == THREE
    && Looks(s.nodes[0], Leader, 1, TermLog(1), 0, 0) && s.nodes[1] == FRESH && Looks(s.nodes[2], Follower, 1, [], 0, 0)
  }

  lemma First() returns (run: seq<Action>, s: State)
    ensures Reached(START, run, s) && Stage1(s) && run != []
    ensures IsRun(THREE, run) && ProposedAt(THREE, run, |run| - 1, 0, PutEntry(1, 2))
  {
    var run1, s1 := FirstElection();
    s := Do(s1, Submit(0, Put, "k", "v", -1));
    SubmitOne(START, run1, s1, 0, s);
    run := run1 + [Submit(0, Put, "k", "v", -1)];
    assert run[..|run| - 1] == run1;
    ContinuesIsRun(START, run);
  }

  /** Node 1 leads term 2 with a proposal of its own at the same index. */
  ghost predicate Stage2(s: State)
  {
    && s.nodes.Keys == THREE
    && Looks(s.nodes[0], Leader, 1, TermLog(1), 0, 0)
    && Looks(s.nodes[1], Leader, 2, TermLog(2), 0, 0) && NextFor(s.nodes[1], 0) == NextFor(s.nodes[1], 2) == 1 && MatchOf(s.nodes[1], 2) == 0
    && Looks(s.nodes[2], Follower, 2, [], 0, 0)
  }

  /** Node 1 has stood twice, since node 2 had already voted in the first term, and won. */
  ghost predicate Stage1b(s: State)
  {
    && s.nodes.Keys == THREE
    && Looks(s.nodes[0], Leader, 1, TermLog(1), 0, 0)
    && Looks(s.nodes[1], Leader, 2, [NoOpEntry(2, 1)], 0, 0) && NextFor(s.nodes[1], 0) == NextFor(s.nodes[1], 2) == 1 && MatchOf(s.nodes[1], 2) == 0
    && Looks(s.nodes[2], Follower, 2, [], 0, 0)
  }

  lemma Overthrow(run: seq<Action>, s: State) returns (run': seq<Action>, s': State)
    requires Reached(START, run, s) && s.nodes.Keys == THREE
    requires Looks(s.nodes[0], Leader, 1, TermLog(1), 0, 0) && Looks(s.nodes[1], Candidate, 1, [], 0, 0) && Looks(s.nodes[2], Follower, 1, [], 0, 0)
    ensures Reached(START, run', s') && Stage1b(s') && run <= run'
  {
    Size();
    WinnerIs(s.nodes[1], 1, 2, s.nodes.Keys - {1});
    VoteGranted(s.nodes[1], s.nodes[2], 1);
    run', s' := Election(START, run, s, 1, 2);
    ToStage1b(s, s', Winner(s.nodes[1], 1, 2, s.nodes.Keys - {1}), Voter(s.nodes[2], Ballot(s.nodes[1], 1)));
  }

  lemma ToStage1b(s: State, s': State, w: Node, v: Node)
    requires s.nodes.Keys == THREE && Looks(s.nodes[0], Leader, 1, TermLog(1), 0, 0)
    requires s'.nodes == s.nodes[2 := v][1 := w] && Looks(v, Follower, 2, [], 0, 0) && Looks(w, Leader, 2, [NoOpEntry(2, 1)], 0, 0)
    requires forall p :: p in THREE - {1} ==> p in w.nextIndex && w.nextIndex[p] == 1 && p in w.matchIndex && w.matchIndex[p] == 0
    ensures Stage1b(s')
  {
    assert 0 in THREE - {1} && 2 in THREE - {1};
  }

  lemma Second(run: seq<Action>, s: State) returns (run': seq<Action>, s': State)
    requires Reached(START, run, s) && Stage1(s)
    ensures Reached(START, run', s') && Stage2(s') && run <= run'
  {
    var s1 := Do(s, Elect(1));
    Stand(START, run, s, 1, s1);
    var run2, s2 := Overthrow(run + [Elect(1)], s1);
    s' := Do(s2, Submit(1, Put, "k", "v", -1));
    SubmitOne(START, run2, s2, 1, s');
    run' := run2 + [Submit(1, Put, "k", "v", -1)];
    ToStage2(s2, s');
  }

  lemma ToStage2(s: State, s': State)
    requires Stage1b(s) && s'.nodes == s.nodes[1 := Propose(s.nodes[1], Put, "k", "v", -1)]
    ensures Stage2(s')
  {
    assert [NoOpEntry(2, 1)] + [PutEntry(2, 2)] == TermLog(2);
  }

  /** Node 1 has committed its proposal on node 2 and itself. */
  ghost predicate Stage3(s: State)
  {
    && s.nodes.Keys == THREE
    && Looks(s.nodes[0], Leader, 1, TermLog(1), 0, 0)
    && Looks(s.nodes[1], Leader, 2, TermLog(2), 2, 0) && NextFor(s.nodes[1], 0) == 1
    && Looks(s.nodes[2], Follower, 2, TermLog(2), 0, 0)
  }

  lemma Third(run: seq<Action>, s: State) returns (run': seq<Action>, s': State)
    requires Reached(START, run, s) && Stage2(s)
    ensures Reached(START, run', s') && Stage3(s') && run <= run'
  {
    Size();
    var r := AppendRequest(2, 1, 0, 0, TermLog(2), 0);
    WholeLogSent(s.nodes[1], 1, 2);
    Replaced(s.nodes[2], r);
    var l';
    run', s', l' := Replication(START, run, s, 1, 2, r, HandleAppend(s.nodes[2], r).0);
  }

  /** Node 0 has stepped down, lost its entry to node 1's and committed that. */
  ghost predicate Stage4(s: State, applied: nat)
  {
    && s.nodes.Keys == THREE
    && Looks(s.nodes[0], Follower, 2, TermLog(2), 2, applied)
    && Looks(s.nodes[2], Follower, 2, TermLog(2), 0, 0)
  }

  lemma Overwritten(n: Node, r: AppendRequest, was: Log) returns (n': Node, reply: AppendReply)
    requires Looks(n, Leader, 1, was, 0, 0) && r.term == 2 && r.prevIndex == 0 && r.leaderCommit == |r.entries| == 2
    requires was != [] && was[0].term != r.entries[0].term
    ensures HandleAppend(n, r) == (n', reply) && Looks(n', Follower, 2, r.entries, 2, 0)
  {
    Replaced(n, r);
    n', reply := HandleAppend(n, r).0, HandleAppend(n, r).1;
  }

  lemma Fourth(run: seq<Action>, s: State) returns (run': seq<Action>, s': State)
    requires Reached(START, run, s) && Stage3(s)
    ensures Reached(START, run', s') && Stage4(s', 0) && run <= run'
  {
    var r := MakeAppend(s.nodes[1], 1, 0);
    WholeLogSent(s.nodes[1], 1, 0);
    var n', reply := Overwritten(s.nodes[0], r, TermLog(1));
    run', s' := Delivery(START, run, s, 1, 0, r, n', reply);
    ToStage4(s, s', n');
  }

  lemma ToStage4(s: State, s': State, n': Node)
    requires Stage3(s) && s'.nodes == s.nodes[0 := n'] && Looks(n', Follower, 2, TermLog(2), 2, 0)
    ensures Stage4(s', 0)
  {
  }

  lemma ApplyOne(run: seq<Action>, s: State, k: nat) returns (run': seq<Action>, s': State)
    requires Reached(START, run, s) && Stage4(s, k) && k < 2
    ensures Reached(START, run', s') && Stage4(s', k + 1) && run <= run'
  {
    s' := Do(s, Apply(0));
    Step(START, run, s, Apply(0));
    run' := run + [Apply(0)];
    assert TermLog(2)[..k] + [TermLog(2)[k]] == TermLog(2)[..k + 1];
  }

  lemma Last(run: seq<Action>, s: State) returns (run': seq<Action>, s': State)
    requires Reached(START, run, s) && Stage4(s, 2)
    ensures Reached(START, run', s') && run <= run' && s'.nodes.Keys == THREE
    ensures s'.nodes[0].role == Leader && s'.nodes[0].lastApplied == 2 && s'.nodes[0].applied == TermLog(2)
  {
    Size();
    run', s' := Election(START, run, s, 0, 2);
    WinnerIs(s.nodes[0], 0, 2, s.nodes.Keys - {0});
    assert TermLog(2)[..2] == TermLog(2);
  }

  /** `Propose` would answer ok at moment `k` to its caller of moment `j`, whose entry was not applied. */
  ghost predicate AnswersWrongly(run: seq<Action>, j: nat, k: nat, e: Entry)
  {
    && IsRun(THREE, run) && j < k <= |run| && ProposedAt(THREE, run, j, 0, e)
    && var n := At(THREE, run, k, 0);
       n.role == Leader && 1 <= e.index <= n.lastApplied && e.index <= |n.applied| && n.applied[e.index - 1] != e
  }

  lemma ProposalStays(run: seq<Action>, run': seq<Action>, j: nat, e: Entry)
    requires IsRun(THREE, run) && IsRun(THREE, run') && run <= run' && j < |run| && ProposedAt(THREE, run, j, 0, e)
    ensures ProposedAt(THREE, run', j, 0, e)
  {
    assert run'[..j] == run[..j];
  }

  lemma Comeback(run: seq<Action>, s: State) returns (run': seq<Action>, s': State)
    requires Reached(START, run, s) && Stage3(s)
    ensures Reached(START, run', s') && run <= run' && s'.nodes.Keys == THREE
    ensures s'.nodes[0].role == Leader && s'.nodes[0].lastApplied == 2 && s'.nodes[0].applied == TermLog(2)
  {
    var run4, s4 := Fourth(run, s);
    var run5, s5 := ApplyOne(run4, s4, 0);
    var run6, s6 := ApplyOne(run5, s5, 1);
    run', s' := Last(run6, s6);
  }

  lemma Downfall(run: seq<Action>, s: State) returns (run': seq<Action>, s': State)
    requires Reached(START, run, s) && Stage1(s)
    ensures Reached(START, run', s') && run <= run' && s'.nodes.Keys == THREE
    ensures s'.nodes[0].role == Leader && s'.nodes[0].lastApplied == 2 && s'.nodes[0].applied == TermLog(2)
  {
    var run2, s2 := Second(run, s);
    var run3, s3 := Third(run2, s2);
    run', s' := Comeback(run3, s3);
  }

  lemma EndsWrongly(run: seq<Action>, s: State, j: nat)
    requires Reached(START, run, s) && IsRun(THREE, run) && j < |run| && ProposedAt(THREE, run, j, 0, PutEntry(1, 2)) && 0 in s.nodes
    requires s.nodes[0].role == Leader && s.nodes[0].lastApplied == 2 && s.nodes[0].applied == TermLog(2)
    ensures AnswersWrongly(run, j, |run|, PutEntry(1, 2))
  {
    assert run[..|run|] == run;
  }

  /** Such a run exists. */
  lemma OkMayBeUntruthful()
    ensures exists run, j, k, e :: AnswersWrongly(run, j, k, e)
  {
    var run1, s1 := First();
    var run, s := Downfall(run1, s1);
    ContinuesIsRun(START, run);
    ProposalStays(run1, run, |run1| - 1, PutEntry(1, 2));
    EndsWrongly(run, s, |run1| - 1);
  }
}
