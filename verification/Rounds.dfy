/**
 A leader and one of its peers in any reachable state: how rounds of request and answer bring the peer's
 log up to the leader's.
 */
module Rounds {
  import opened Types
  import opened Logs
  import opened Backtracking
  import opened NodeSpec
  import opened Cluster
  import opened History
  import opened Invariants
  import opened Runs
  import opened Scenarios
  import opened NodeLaws

  // ----- what is known of the two in a reachable state -----

  ghost predicate Paired(l: Node, f: Node, p: NodeId)
  {
    && Ascending(l.log) && Ascending(f.log) && Positive(f.log) && Matching(l.log, f.log) && Aligned(l.log, f.log)
    && p in l.nextIndex && p in l.matchIndex && 1 <= NextFor(l, p) <= |l.log| + 1
    && (f.currentTerm == l.currentTerm ==> Agree(l.log, f.log, MatchOf(l, p)) && (MatchOf(l, p) > 0 ==> f.log <= l.log))
  }

  lemma PairedLogs(s: State, h: Past, l: NodeId, p: NodeId)
    requires ReignsOk(h) && NodesOk(s, h) && l in s.nodes && p in s.nodes
    ensures var x, y := s.nodes[l].log, s.nodes[p].log;
            Ascending(x) && Ascending(y) && Positive(y) && Matching(x, y) && Aligned(x, y)
  {
    assert NodeOk(s, h, l) && NodeOk(s, h, p);
    LogsMatching(h, s.nodes[l].log, s.nodes[p].log);
    LogsAligned(h, s.nodes[l].log, s.nodes[p].log);
    LogShape(h, s.nodes[l].log);
    LogShape(h, s.nodes[p].log);
  }

  lemma PairedTables(s: State, h: Past, l: NodeId, p: NodeId)
    requires LeadersOk(s, h) && AcksOk(s, h) && l in s.nodes && p in s.nodes && l != p && s.nodes[l].role == Leader
    ensures var n, m := s.nodes[l], s.nodes[p];
            && p in n.nextIndex && p in n.matchIndex && 1 <= NextFor(n, p) <= |n.log| + 1
            && (m.currentTerm == n.currentTerm ==> Agree(n.log, m.log, MatchOf(n, p)) && (MatchOf(n, p) > 0 ==> m.log <= n.log))
  {
    assert LeaderOk(s, h, l) && PeerOk(s, h, l, p) && AckOk(s, h, p, s.nodes[l].currentTerm);
  }

  /** What is continued is a run, by some of its members. */
  ghost predicate Sound(g: Setting)
  {
    IsRun(g.members, g.base) && g.active <= g.members
  }

  /** `l` is active and leads a term no active node is ahead of. */
  ghost predicate Leads(q: set<NodeId>, s: State, l: NodeId)
  {
    && q <= s.nodes.Keys && l in q && s.nodes[l].role == Leader
    && forall i :: i in q ==> s.nodes[i].currentTerm <= s.nodes[l].currentTerm
  }

  ghost predicate Led(g: Setting, run: seq<Action>, s: State, l: NodeId)
  {
    Sound(g) && Reached(g, run, s) && Leads(g.active, s, l)
  }

  lemma InvOf(g: Setting, run: seq<Action>, s: State)
    requires Sound(g) && Reached(g, run, s)
    ensures Inv(s, PastAfter(g.members, run)) && s.nodes.Keys == g.members
  {
    ContinuesIsRun(g, run);
    RunInv(g.members, run);
  }

  lemma PairedAt(g: Setting, run: seq<Action>, s: State, l: NodeId, p: NodeId)
    requires Led(g, run, s, l) && p in g.active && p != l
    ensures Paired(s.nodes[l], s.nodes[p], p)
  {
    InvOf(g, run, s);
    PairedLogs(s, PastAfter(g.members, run), l, p);
    PairedTables(s, PastAfter(g.members, run), l, p);
  }

  // ----- one round -----

  /** The peer after the leader's request, and the leader after the peer's answer to it. */
  function Told(s: State, l: NodeId, p: NodeId): Node
    requires l in s.nodes && p in s.nodes && NextFor(s.nodes[l], p) >= 1
  {
    HandleAppend(s.nodes[p], MakeAppend(s.nodes[l], l, p)).0
  }

  function Heard(s: State, l: NodeId, p: NodeId): Node
    requires l in s.nodes && p in s.nodes && NextFor(s.nodes[l], p) >= 1
  {
    var r := MakeAppend(s.nodes[l], l, p);
    HandleReply(s.nodes[l], p, r.prevIndex, |r.entries|, HandleAppend(s.nodes[p], r).1, Quorum(s, l))
  }

  lemma ThreeMore(run: seq<Action>, a: Action, b: Action, c: Action)
    ensures run <= run + [a] + [b] + [c] && |run + [a] + [b] + [c]| == |run| + 3
  {
  }

  /** Request, delivery and answer. */
  lemma Round(g: Setting, run: seq<Action>, s: State, l: NodeId, p: NodeId) returns (run': seq<Action>, s': State)
    requires Led(g, run, s, l) && p in g.active && p != l && NextFor(s.nodes[l], p) >= 1
    ensures Reached(g, run', s') && run <= run' && |run'| == |run| + 3
    ensures s'.nodes == s.nodes[p := Told(s, l, p)][l := Heard(s, l, p)]
  {
    var r := MakeAppend(s.nodes[l], l, p);
    var reply := HandleAppend(s.nodes[p], r).1;
    var run1, s1 := Delivery(g, run, s, l, p, r, Told(s, l, p), reply);
    var a := DeliverAppendResp(AppendResp(p, l, r.term, r.prevIndex, |r.entries|, reply));
    s' := Do(s1, a);
    Answer(g, run1, s1, l, p, r.term, r.prevIndex, |r.entries|, reply, s');
    run' := run1 + [a];
    ThreeMore(run, Replicate(l, p), DeliverAppendReq(AppendReq(p, r)), a);
    assert s1.nodes.Keys == s.nodes.Keys;
  }

  /** `n'` is the leader `n` after rounds with `p`: it knows more of `p` and the same of the others. */
  ghost predicate Advanced(n: Node, n': Node, p: NodeId)
  {
    && n'.role == n.role && n'.currentTerm == n.currentTerm && n'.log == n.log && n'.commitIndex >= n.commitIndex
    && MatchOf(n', p) >= MatchOf(n, p)
    && forall o :: o != p ==> MatchOf(n', o) == MatchOf(n, o)
  }

  lemma StillLed(g: Setting, s: State, l: NodeId, p: NodeId, n': Node, m': Node, run': seq<Action>, s': State)
    requires Sound(g) && Leads(g.active, s, l) && p in g.active
    requires Reached(g, run', s') && s'.nodes == s.nodes[p := m'][l := n']
    requires Advanced(s.nodes[l], n', p) && m'.currentTerm <= n'.currentTerm
    ensures Led(g, run', s', l)
  {
  }

  lemma RejectedPeer(l: Node, i: NodeId, p: NodeId, f: Node, q: nat)
    requires Paired(l, f, p) && l.role == Leader && f.currentTerm == l.currentTerm && Probe(l.log, f.log, NextFor(l, p)).Reject?
    ensures var r := MakeAppend(l, i, p);
            var (f', a) := HandleAppend(f, r);
            var l' := HandleReply(l, p, r.prevIndex, |r.entries|, a, q);
            && f' == f && Advanced(l, l', p)
            && 1 <= NextFor(l', p) == NextProbe(l.log, f.log, NextFor(l, p)) < NextFor(l, p)
  {
    RejectionIsProbe(l, i, p, f, q);
    RejectionLowers(l.log, f.log, NextFor(l, p));
  }

  /** A rejected round changes nothing but the leader's `nextIndex`, which falls. */
  lemma RejectedRound(g: Setting, run: seq<Action>, s: State, l: NodeId, p: NodeId) returns (run': seq<Action>, s': State)
    requires Led(g, run, s, l) && p in g.active && p != l && s.nodes[p].currentTerm == s.nodes[l].currentTerm
    requires NextFor(s.nodes[l], p) >= 1 && Probe(s.nodes[l].log, s.nodes[p].log, NextFor(s.nodes[l], p)).Reject?
    ensures Led(g, run', s', l) && run <= run' && |run'| == |run| + 3
    ensures s'.nodes == s.nodes[l := s'.nodes[l]] && Advanced(s.nodes[l], s'.nodes[l], p)
    ensures 1 <= NextFor(s'.nodes[l], p) == NextProbe(s.nodes[l].log, s.nodes[p].log, NextFor(s.nodes[l], p)) < NextFor(s.nodes[l], p)
  {
    PairedAt(g, run, s, l, p);
    RejectedPeer(s.nodes[l], l, p, s.nodes[p], Quorum(s, l));
    run', s' := Round(g, run, s, l, p);
    StillLed(g, s, l, p, Heard(s, l, p), Told(s, l, p), run', s');
    assert s.nodes[p := s.nodes[p]] == s.nodes;
  }

  lemma AcceptedPeer(l: Node, i: NodeId, p: NodeId, f: Node, q: nat)
    requires Paired(l, f, p) && l.role == Leader && f.currentTerm == l.currentTerm && Probe(l.log, f.log, NextFor(l, p)) == Accept
    ensures var r := MakeAppend(l, i, p);
            var (f', a) := HandleAppend(f, r);
            var l' := HandleReply(l, p, r.prevIndex, |r.entries|, a, q);
            && f'.currentTerm == f.currentTerm && f'.commitIndex >= Min(l.commitIndex, |f'.log|) && Advanced(l, l', p)
            && MatchOf(l', p) == Max(MatchOf(l, p), r.prevIndex + Min(100, |l.log| - r.prevIndex))
            && NextFor(l', p) == MatchOf(l', p) + 1
  {
    var r := MakeAppend(l, i, p);
    HeartbeatCommits(l, i, p, f);
    BatchIsNextHundred(l, i, p);
    AcceptanceIsMatch(l, p, r.prevIndex, |r.entries|, HandleAppend(f, r).1, q);
    AcceptanceCommits(l, p, r.prevIndex, |r.entries|, HandleAppend(f, r).1, q);
  }

  /** What rounds between `l` and `p` leave alone, and that the last one was accepted. */
  ghost predicate Searched(s: State, s': State, l: NodeId, p: NodeId)
  {
    && l in s.nodes && p in s.nodes && l in s'.nodes && p in s'.nodes
    && s'.nodes == s.nodes[p := s'.nodes[p]][l := s'.nodes[l]] && Advanced(s.nodes[l], s'.nodes[l], p)
    && s'.nodes[p].currentTerm == s'.nodes[l].currentTerm
    && NextFor(s'.nodes[l], p) == MatchOf(s'.nodes[l], p) + 1
  }

  /** An accepted round passes on the commit index, and the leader learns how far the two logs match. */
  lemma AcceptedRound(g: Setting, run: seq<Action>, s: State, l: NodeId, p: NodeId) returns (run': seq<Action>, s': State)
    requires Led(g, run, s, l) && p in g.active && p != l && s.nodes[p].currentTerm == s.nodes[l].currentTerm
    requires NextFor(s.nodes[l], p) >= 1 && Probe(s.nodes[l].log, s.nodes[p].log, NextFor(s.nodes[l], p)) == Accept
    ensures Led(g, run', s', l) && run <= run' && |run'| == |run| + 3
    ensures Searched(s, s', l, p)
    ensures s'.nodes[p].commitIndex >= Min(s.nodes[l].commitIndex, |s'.nodes[p].log|)
    ensures NextFor(s.nodes[l], p) <= |s.nodes[l].log| + 1
    ensures var n, prev := s.nodes[l], NextFor(s.nodes[l], p) - 1;
            MatchOf(s'.nodes[l], p) == Max(MatchOf(n, p), prev + Min(100, |n.log| - prev))
    ensures s'.nodes[l] == Heard(s, l, p)
  {
    PairedAt(g, run, s, l, p);
    AcceptedPeer(s.nodes[l], l, p, s.nodes[p], Quorum(s, l));
    run', s' := Round(g, run, s, l, p);
    StillLed(g, s, l, p, Heard(s, l, p), Told(s, l, p), run', s');
  }

  // ----- the search for the common prefix -----

  lemma SearchedFrom(s: State, s1: State, s': State, l: NodeId, p: NodeId)
    requires l in s.nodes && p in s.nodes && l != p && l in s1.nodes && s1.nodes == s.nodes[l := s1.nodes[l]]
    requires Advanced(s.nodes[l], s1.nodes[l], p) && Searched(s1, s', l, p)
    ensures Searched(s, s', l, p)
  {
  }

  /**
   Rounds between a leader and a peer of its term end in an acceptance after at most one rejection more than
   there are terms in the peer's log. `reported` are the conflict terms of the `done` rejections so far.
   */
  lemma {:induction false} SearchOn(g: Setting, run: seq<Action>, s: State, l: NodeId, p: NodeId, reported: set<nat>, done: nat)
    returns (run': seq<Action>, s': State, rejections: nat)
    requires Led(g, run, s, l) && p in g.active && p != l && s.nodes[p].currentTerm == s.nodes[l].currentTerm
    requires 1 <= NextFor(s.nodes[l], p) <= |s.nodes[l].log| + 1
    requires Tallied(s.nodes[l].log, s.nodes[p].log, NextFor(s.nodes[l], p), reported, done)
    ensures Led(g, run', s', l) && run <= run' && Searched(s, s', l, p)
    ensures done <= rejections <= 1 + |Terms(s.nodes[p].log)|
    ensures |run'| == |run| + 3 * (rejections - done + 1)
    decreases NextFor(s.nodes[l], p)
  {
    var x, y, next := s.nodes[l].log, s.nodes[p].log, NextFor(s.nodes[l], p);
    if Probe(x, y, next).Reject? {
      PairedAt(g, run, s, l, p);
      TallyNext(x, y, next, reported, done);
      var run1, s1 := RejectedRound(g, run, s, l, p);
      run', s', rejections := SearchOn(g, run1, s1, l, p, Report(reported, Probe(x, y, next)), done + 1);
      SearchedFrom(s, s1, s', l, p);
    } else {
      SubsetSize(reported, Terms(y));
      run', s' := AcceptedRound(g, run, s, l, p);
      rejections := done;
    }
  }

  lemma Search(g: Setting, run: seq<Action>, s: State, l: NodeId, p: NodeId) returns (run': seq<Action>, s': State, rejections: nat)
    requires Led(g, run, s, l) && p in g.active && p != l && s.nodes[p].currentTerm == s.nodes[l].currentTerm
    ensures Led(g, run', s', l) && run <= run' && Searched(s, s', l, p)
    ensures rejections <= 1 + |Terms(s.nodes[p].log)| && |run'| == |run| + 3 * (rejections + 1)
  {
    PairedAt(g, run, s, l, p);
    run', s', rejections := SearchOn(g, run, s, l, p, {}, 0);
  }

  // ----- batches -----

  function Batches(n: nat): nat
  {
    (n + 99) / 100
  }

  lemma OneBatchMore(n: nat)
    requires n > 0
    ensures Batches(n) == Batches(n - Min(100, n)) + 1
  {
  }

  lemma MatchedProbe(leader: Log, follower: Log, next: nat)
    requires next >= 1 && Agree(leader, follower, next - 1)
    ensures Probe(leader, follower, next) == Accept
  {
    if next > 1 { AgreeAt(leader, follower, next - 1, next - 2); }
  }

  lemma SearchedTwice(s: State, s1: State, s': State, l: NodeId, p: NodeId)
    requires l != p && Searched(s, s1, l, p) && Searched(s1, s', l, p)
    ensures Searched(s, s', l, p)
  {
  }

  lemma FillOne(g: Setting, run: seq<Action>, s: State, l: NodeId, p: NodeId) returns (run': seq<Action>, s': State)
    requires Led(g, run, s, l) && p in g.active && p != l && s.nodes[p].currentTerm == s.nodes[l].currentTerm
    requires NextFor(s.nodes[l], p) == MatchOf(s.nodes[l], p) + 1 && MatchOf(s.nodes[l], p) <= |s.nodes[l].log|
    ensures Led(g, run', s', l) && run <= run' && |run'| == |run| + 3 && Searched(s, s', l, p)
    ensures var n := s.nodes[l]; MatchOf(s'.nodes[l], p) == MatchOf(n, p) + Min(100, |n.log| - MatchOf(n, p))
  {
    PairedAt(g, run, s, l, p);
    MatchedProbe(s.nodes[l].log, s.nodes[p].log, NextFor(s.nodes[l], p));
    run', s' := AcceptedRound(g, run, s, l, p);
  }

  lemma MatchInLog(g: Setting, run: seq<Action>, s: State, l: NodeId, p: NodeId)
    requires Led(g, run, s, l) && p in g.active && p != l && s.nodes[p].currentTerm == s.nodes[l].currentTerm
    ensures MatchOf(s.nodes[l], p) <= |s.nodes[l].log|
  {
    PairedAt(g, run, s, l, p);
  }

  /** Once the two have found each other, every batch of a hundred is accepted; `left` entries are still to be sent. */
  lemma {:induction false} FillRest(g: Setting, run: seq<Action>, s: State, l: NodeId, p: NodeId, left: nat) returns (run': seq<Action>, s': State)
    requires Led(g, run, s, l) && p in g.active && p != l && s.nodes[p].currentTerm == s.nodes[l].currentTerm
    requires NextFor(s.nodes[l], p) == MatchOf(s.nodes[l], p) + 1 && MatchOf(s.nodes[l], p) + left == |s.nodes[l].log|
    ensures Led(g, run', s', l) && run <= run' && Searched(s, s', l, p)
    ensures MatchOf(s'.nodes[l], p) == |s.nodes[l].log| && |run'| == |run| + 3 * Batches(left)
    decreases left
  {
    if left == 0 {
      run', s' := run, s;
      assert s.nodes[p := s.nodes[p]][l := s.nodes[l]] == s.nodes;
    } else {
      OneBatchMore(left);
      var run1, s1 := FillOne(g, run, s, l, p);
      run', s' := FillRest(g, run1, s1, l, p, left - Min(100, left));
      SearchedTwice(s, s1, s', l, p);
    }
  }

  lemma Fill(g: Setting, run: seq<Action>, s: State, l: NodeId, p: NodeId) returns (run': seq<Action>, s': State)
    requires Led(g, run, s, l) && p in g.active && p != l && s.nodes[p].currentTerm == s.nodes[l].currentTerm
    requires NextFor(s.nodes[l], p) == MatchOf(s.nodes[l], p) + 1
    ensures Led(g, run', s', l) && run <= run' && Searched(s, s', l, p) && MatchOf(s'.nodes[l], p) == |s.nodes[l].log|
    ensures MatchOf(s.nodes[l], p) <= |s.nodes[l].log| && |run'| == |run| + 3 * Batches(|s.nodes[l].log| - MatchOf(s.nodes[l], p))
  {
    MatchInLog(g, run, s, l, p);
    run', s' := FillRest(g, run, s, l, p, |s.nodes[l].log| - MatchOf(s.nodes[l], p));
  }

  // ----- from any reachable state -----

  /** The peer is in the leader's term and holds its log, and the leader knows. */
  ghost predicate CaughtUp(s: State, l: NodeId, p: NodeId)
  {
    && l in s.nodes && p in s.nodes
    && s.nodes[p].currentTerm == s.nodes[l].currentTerm && s.nodes[p].log == s.nodes[l].log && MatchOf(s.nodes[l], p) == |s.nodes[l].log|
  }

  lemma MatchedIsCaughtUp(g: Setting, run: seq<Action>, s: State, l: NodeId, p: NodeId)
    requires Led(g, run, s, l) && p in g.active && p != l && s.nodes[p].currentTerm == s.nodes[l].currentTerm
    requires MatchOf(s.nodes[l], p) == |s.nodes[l].log| > 0
    ensures CaughtUp(s, l, p)
  {
    PairedAt(g, run, s, l, p);
  }

  /** A round with a peer of an earlier term brings it into the leader's term, and the leader ignores the answer. */
  lemma Contact(g: Setting, run: seq<Action>, s: State, l: NodeId, p: NodeId) returns (run': seq<Action>, s': State)
    requires Led(g, run, s, l) && p in g.active && p != l && s.nodes[p].currentTerm < s.nodes[l].currentTerm
    ensures Led(g, run', s', l) && run <= run' && p in s'.nodes
    ensures s'.nodes == s.nodes[p := s'.nodes[p]] && s'.nodes[p].currentTerm == s.nodes[l].currentTerm
  {
    PairedAt(g, run, s, l, p);
    FirstContactIsIgnored(s.nodes[l], l, p, s.nodes[p], Quorum(s, l));
    run', s' := Round(g, run, s, l, p);
    assert s'.nodes == s.nodes[p := s'.nodes[p]];
  }

  /** `s'` is `s` with `p` and what the leader knows of it changed. */
  ghost predicate OnlyPair(s: State, s': State, l: NodeId, p: NodeId)
  {
    && l in s.nodes && p in s.nodes && l in s'.nodes && p in s'.nodes
    && s'.nodes == s.nodes[p := s'.nodes[p]][l := s'.nodes[l]] && Advanced(s.nodes[l], s'.nodes[l], p)
  }

  lemma PairChain(s: State, s1: State, s2: State, s3: State, l: NodeId, p: NodeId)
    requires l in s.nodes && p in s.nodes && l != p && p in s1.nodes && s1.nodes == s.nodes[p := s1.nodes[p]]
    requires Searched(s1, s2, l, p) && Searched(s2, s3, l, p)
    ensures OnlyPair(s, s3, l, p)
  {
  }

  /** From any reachable state, rounds between a leader of the latest term and any peer make the peer's log the leader's. */
  lemma CatchUp(g: Setting, run: seq<Action>, s: State, l: NodeId, p: NodeId) returns (run': seq<Action>, s': State)
    requires Led(g, run, s, l) && p in g.active && p != l && s.nodes[l].log != []
    ensures Led(g, run', s', l) && run <= run' && OnlyPair(s, s', l, p) && CaughtUp(s', l, p)
  {
    var run1, s1 := run, s;
    if s.nodes[p].currentTerm < s.nodes[l].currentTerm {
      run1, s1 := Contact(g, run, s, l, p);
    } else {
      assert s.nodes == s.nodes[p := s.nodes[p]];
    }
    var run2, s2, _ := Search(g, run1, s1, l, p);
    run', s' := Fill(g, run2, s2, l, p);
    PairChain(s, s1, s2, s', l, p);
    MatchedIsCaughtUp(g, run', s', l, p);
  }
}
