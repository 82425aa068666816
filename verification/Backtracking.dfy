/**
 The two-log protocol by which a leader finds where a follower's log stops agreeing with its own:
 the follower's consistency check with its conflict hints, and the leader's reaction to a rejection.
 */
module Backtracking {
  import opened Types
  import opened Logs

  datatype Verdict = Accept | Reject(conflictIndex: nat, conflictTerm: nat)

  /** The follower's backward walk to the first index of a run of term `t`. */
  function RunStart(log: Log, i: nat, t: nat): nat
  {
    if i > 0 && TermAt(log, i - 1) == t then RunStart(log, i - 1, t) else i
  }

  /** The follower's check of `prevLogIndex` / `prevLogTerm`. */
  function Check(log: Log, prev: nat, prevTerm: nat): Verdict
  {
    if prev == 0 then Accept
    else if prev > |log| then Reject(|log| + 1, 0)
    else if TermAt(log, prev) != prevTerm then Reject(RunStart(log, prev, TermAt(log, prev)), TermAt(log, prev))
    else Accept
  }

  /** The leader's backward search for its last entry of term `t` at or below index `i`; 0 if there is none. */
  function LastInTerm(log: Log, t: nat, i: nat): nat
  {
    if i == 0 then 0 else if TermAt(log, i) == t then i else LastInTerm(log, t, i - 1)
  }

  /** The leader's new `nextIndex` after a rejection. */
  function BackUp(log: Log, conflictIndex: nat, conflictTerm: nat): nat
  {
    if conflictTerm > 0 then
      var last := LastInTerm(log, conflictTerm, |log|);
      if last > 0 then last + 1 else conflictIndex
    else if conflictIndex > 0 then conflictIndex
    else 1
  }

  // ----- what the two searches find -----

  lemma {:induction false} RunStartFinds(log: Log, i: nat, t: nat)
    requires t > 0 && 1 <= i <= |log| && TermAt(log, i) == t
    ensures 1 <= RunStart(log, i, t) <= i
    ensures TermAt(log, RunStart(log, i, t)) == t
    ensures TermAt(log, RunStart(log, i, t) - 1) != t
  {
    if TermAt(log, i - 1) == t {
      RunStartFinds(log, i - 1, t);
    }
  }

  lemma {:induction false} LastInTermFinds(log: Log, t: nat, i: nat)
    requires i <= |log|
    ensures LastInTerm(log, t, i) <= i
    ensures LastInTerm(log, t, i) > 0 ==> TermAt(log, LastInTerm(log, t, i)) == t
    ensures forall k :: LastInTerm(log, t, i) < k <= i ==> TermAt(log, k) != t
  {
    if i > 0 && TermAt(log, i) != t {
      LastInTermFinds(log, t, i - 1);
    }
  }

  /** Entries of another term appended at the end do not change the search. */
  lemma {:induction false} LastInTermExtend(log: Log, longer: Log, t: nat, i: nat)
    requires log <= longer && |log| <= i <= |longer|
    requires forall k :: |log| <= k < |longer| ==> longer[k].term != t
    ensures LastInTerm(longer, t, i) == LastInTerm(log, t, |log|)
    decreases i
  {
    if i > |log| {
      LastInTermExtend(log, longer, t, i - 1);
    } else {
      LastInTermSame(log, longer, t, i);
    }
  }

  lemma {:induction false} LastInTermSame(log: Log, longer: Log, t: nat, i: nat)
    requires log <= longer && i <= |log|
    ensures LastInTerm(longer, t, i) == LastInTerm(log, t, i)
  {
    if i > 0 {
      LastInTermSame(log, longer, t, i - 1);
    }
  }

  // ----- one rejection -----

  ghost predicate Positive(log: Log)
  {
    forall k :: 0 <= k < |log| ==> log[k].term > 0
  }

  /** Log matching between two logs (section 5.3 of the Raft paper). */
  ghost predicate Matching(a: Log, b: Log)
  {
    forall k :: 0 <= k < |a| && k < |b| && a[k].term == b[k].term ==> Agree(a, b, k + 1)
  }

  /** A term held by both logs starts at the same index in both. */
  ghost predicate Aligned(leader: Log, follower: Log)
  {
    forall i, j :: 0 <= j <= i < |leader| && j < |follower| && leader[i].term == follower[j].term ==> leader[j].term == follower[j].term
  }

  function Probe(leader: Log, follower: Log, next: nat): Verdict
    requires next >= 1
  {
    Check(follower, next - 1, TermAt(leader, next - 1))
  }

  function NextProbe(leader: Log, follower: Log, next: nat): nat
    requires next >= 1 && Probe(leader, follower, next).Reject?
  {
    var v := Probe(leader, follower, next);
    BackUp(leader, v.conflictIndex, v.conflictTerm)
  }

  /** An agreed prefix ends before the leader's new position: the hints never skip below it. */
  lemma RejectionKeepsAgreedPrefix(leader: Log, follower: Log, next: nat, n: nat)
    requires Ascending(leader) && Ascending(follower) && Positive(follower)
    requires 1 <= next <= |leader| + 1 && Probe(leader, follower, next).Reject?
    requires Agree(leader, follower, n)
    ensures 1 <= NextProbe(leader, follower, next) <= |leader| + 1
    ensures n < next
    ensures n < NextProbe(leader, follower, next)
  {
    var prev := next - 1;
    if prev <= |follower| {
      assert n < next by {
        if n >= prev { AgreeAt(leader, follower, n, prev - 1); }
      }
      var t := TermAt(follower, prev);
      RunStartFinds(follower, prev, t);
      LastInTermFinds(leader, t, |leader|);
      var last := LastInTerm(leader, t, |leader|);
      if last > 0 {
        assert last < |leader| ==> t < leader[last].term by {
          if last < |leader| {
            assert leader[last - 1].term <= leader[last].term;
            assert TermAt(leader, last + 1) != t;
          }
        }
        if last < n {
          AgreeAt(leader, follower, n, last);
        }
      } else {
        var ci := RunStart(follower, prev, t);
        assert TermAt(leader, ci) != t;
        if ci <= n {
          AgreeAt(leader, follower, n, ci - 1);
        }
      }
    }
  }

  /**
   A rejection lowers `nextIndex` exactly when the leader holds no entry of the conflict term at or
   after the probed index.
   */
  lemma RejectionLowersIff(leader: Log, follower: Log, next: nat)
    requires Positive(follower)
    requires 1 <= next <= |leader| + 1 && Probe(leader, follower, next).Reject?
    requires Probe(leader, follower, next).conflictTerm > 0
    ensures NextProbe(leader, follower, next) < next <==>
            forall i :: next - 1 <= i <= |leader| ==> TermAt(leader, i) != TermAt(follower, next - 1)
  {
    var t := TermAt(follower, next - 1);
    RunStartFinds(follower, next - 1, t);
    LastInTermFinds(leader, t, |leader|);
  }

  /** Pairwise log matching alone does not give that condition: here a rejection raises `nextIndex` from 2 to 3. */
  lemma MatchingAloneDoesNotLower()
    ensures exists leader: Log, follower: Log, next: nat ::
              && Ascending(leader) && Ascending(follower) && Positive(leader) && Positive(follower)
              && Matching(leader, follower)
              && 1 <= next <= |leader| + 1 && Probe(leader, follower, next).Reject?
              && NextProbe(leader, follower, next) > next
  {
    var leader := [Entry(1, 1, NoOp, "", "", -1), Entry(5, 2, NoOp, "", "", -1)];
    var follower := [Entry(5, 1, NoOp, "", "", -1)];
    assert TermAt(leader, 1) == 1 && TermAt(follower, 1) == 5 && TermAt(leader, 2) == 5;
    assert Probe(leader, follower, 2).Reject? && Probe(leader, follower, 2).conflictTerm == 5;
    assert LastInTerm(leader, 5, 2) == 2;
    assert NextProbe(leader, follower, 2) == 3;
  }

  /** With term blocks that start at the same index, every rejection lowers `nextIndex` and keeps it at least 1. */
  lemma RejectionLowers(leader: Log, follower: Log, next: nat)
    requires Ascending(leader) && Ascending(follower) && Positive(follower) && Aligned(leader, follower)
    requires 1 <= next <= |leader| + 1 && Probe(leader, follower, next).Reject?
    ensures 1 <= NextProbe(leader, follower, next) < next
  {
    assert Agree(leader, follower, 0);
    RejectionKeepsAgreedPrefix(leader, follower, next, 0);
    var prev := next - 1;
    if prev <= |follower| {
      var t := TermAt(follower, prev);
      RejectionLowersIff(leader, follower, next);
      assert leader[prev - 1].term != follower[prev - 1].term;
      assert forall k :: prev - 1 <= k < |leader| ==> leader[k].term != follower[prev - 1].term;
    }
  }

  /** Conflict terms fall from one rejection to the next, so each is reported at most once. */
  lemma ConflictTermFalls(leader: Log, follower: Log, next: nat)
    requires Ascending(leader) && Ascending(follower) && Positive(follower) && Aligned(leader, follower)
    requires 1 <= next <= |leader| + 1 && Probe(leader, follower, next).Reject?
    ensures NextProbe(leader, follower, next) >= 1
    ensures var again := Probe(leader, follower, NextProbe(leader, follower, next));
            again.Reject? ==>
              && again.conflictTerm > 0
              && (Probe(leader, follower, next).conflictTerm > 0 ==> again.conflictTerm < Probe(leader, follower, next).conflictTerm)
  {
    RejectionLowers(leader, follower, next);
    var prev := next - 1;
    var t := TermAt(follower, prev);
    if prev <= |follower| {
      RunStartFinds(follower, prev, t);
      LastInTermFinds(leader, t, |leader|);
      var p := NextProbe(leader, follower, next) - 1;
      if p > 0 {
        assert follower[p - 1].term <= follower[prev - 1].term;
      }
    }
  }

  // ----- the whole loop -----

  function Terms(log: Log): set<nat>
  {
    set k | 0 <= k < |log| :: log[k].term
  }

  /** Acceptance means agreement up to the probed index. */
  lemma AcceptedAgrees(leader: Log, follower: Log, next: nat)
    requires Positive(follower) && Matching(leader, follower)
    requires 1 <= next <= |leader| + 1 && Probe(leader, follower, next) == Accept
    ensures Agree(leader, follower, next - 1)
  {
  }

  ghost function Report(reported: set<nat>, v: Verdict): set<nat>
  {
    if v.Reject? && v.conflictTerm > 0 then reported + {v.conflictTerm} else reported
  }

  /** At most one rejection came without a term, the first, and the terms reported so far are the follower's and above the next one. */
  ghost predicate Tallied(leader: Log, follower: Log, next: nat, reported: set<nat>, rejections: nat)
    requires 1 <= next <= |leader| + 1
  {
    var v := Probe(leader, follower, next);
    && reported <= Terms(follower) && rejections <= 1 + |reported| && (rejections == 0 ==> reported == {})
    && (v.Reject? ==> (rejections > 0 ==> v.conflictTerm > 0) && forall t :: t in reported ==> v.conflictTerm < t)
  }

  lemma TallyNext(leader: Log, follower: Log, next: nat, reported: set<nat>, rejections: nat)
    requires Ascending(leader) && Ascending(follower) && Positive(follower) && Aligned(leader, follower)
    requires 1 <= next <= |leader| + 1 && Probe(leader, follower, next).Reject? && Tallied(leader, follower, next, reported, rejections)
    ensures 1 <= NextProbe(leader, follower, next) <= |leader| + 1
    ensures Tallied(leader, follower, NextProbe(leader, follower, next), Report(reported, Probe(leader, follower, next)), rejections + 1)
  {
    var v := Probe(leader, follower, next);
    RejectionLowers(leader, follower, next);
    ConflictTermFalls(leader, follower, next);
    if v.conflictTerm > 0 {
      assert follower[next - 2].term == v.conflictTerm;
      assert v.conflictTerm !in reported;
    }
  }

  /** Every agreed prefix below `start` ends below `next`. */
  ghost predicate AboveAgreed(leader: Log, follower: Log, start: nat, next: nat)
  {
    forall n: nat :: n < start && Agree(leader, follower, n) ==> n < next
  }

  lemma StillAboveAgreed(leader: Log, follower: Log, start: nat, next: nat)
    requires Ascending(leader) && Ascending(follower) && Positive(follower)
    requires 1 <= next <= |leader| + 1 && Probe(leader, follower, next).Reject?
    ensures AboveAgreed(leader, follower, start, NextProbe(leader, follower, next))
  {
    forall n: nat | n < start && Agree(leader, follower, n) ensures n < NextProbe(leader, follower, next) {
      RejectionKeepsAgreedPrefix(leader, follower, next, n);
    }
  }

  /**
   Probing from `start` ends, with at most one rejection more than there are terms in the follower's
   log, at the longest prefix the two logs share below `start`.
   */
  method Converge(leader: Log, follower: Log, start: nat, ghost matched: nat) returns (next: nat, rejections: nat)
    requires Ascending(leader) && Ascending(follower) && Positive(leader) && Positive(follower)
    requires Matching(leader, follower) && Aligned(leader, follower)
    requires 1 <= start <= |leader| + 1
    requires matched < start && Agree(leader, follower, matched)
    ensures matched < next <= start
    ensures Probe(leader, follower, next) == Accept
    ensures Agree(leader, follower, next - 1)
    ensures AboveAgreed(leader, follower, start, next)
    ensures rejections <= 1 + |Terms(follower)|
  {
    next, rejections := start, 0;
    ghost var reported: set<nat> := {};
    while Probe(leader, follower, next).Reject?
      invariant 1 <= next <= start
      invariant matched < next
      invariant AboveAgreed(leader, follower, start, next)
      invariant Tallied(leader, follower, next, reported, rejections)
      decreases next
    {
      RejectionLowers(leader, follower, next);
      StillAboveAgreed(leader, follower, start, next);
      TallyNext(leader, follower, next, reported, rejections);
      reported := Report(reported, Probe(leader, follower, next));
      next, rejections := NextProbe(leader, follower, next), rejections + 1;
    }
    SubsetSize(reported, Terms(follower));
    AcceptedAgrees(leader, follower, next);
  }

  lemma {:induction false} SubsetSize<T>(a: set<T>, b: set<T>)
    requires a <= b
    ensures |a| <= |b|
  {
    assert b == a + (b - a);
  }
}
