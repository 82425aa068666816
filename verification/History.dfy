/**
 What a run has done so far, kept beside the cluster state for the proofs: who was elected in each
 term and with which log, who voted for whom holding which log, how far each node has acknowledged
 each leader, and the longest log prefix decided by a majority.
 */
module History {
  import opened Types
  import opened Logs
  import opened NodeSpec
  import opened Backtracking

  // `start` is the log at election, `log` the leader's log at the latest moment of its term.
  datatype Reign = Reign(leader: NodeId, start: Log, voters: set<NodeId>, log: Log)

  datatype Ballot = Ballot(candidate: NodeId, log: Log)

  datatype Past = Past(
    reigns: map<nat, Reign>,
    ballots: map<(NodeId, nat), Ballot>,
    acks: map<(NodeId, nat), nat>,
    decided: Log,
    decidedTerm: nat)

  const NO_PAST := Past(map[], map[], map[], [], 0)

  function Ack(h: Past, v: NodeId, t: nat): nat
  {
    if (v, t) in h.acks then h.acks[(v, t)] else 0
  }

  // ----- logs rooted in reigns -----

  /** The entry at position `k` came from the leader of its term, together with everything before it. */
  ghost predicate Rooted(h: Past, x: Log, k: nat)
    requires k < |x|
  {
    x[k].index == k + 1 && x[k].term in h.reigns && Agree(x, h.reigns[x[k].term].log, k + 1)
  }

  ghost predicate LogOk(h: Past, x: Log)
  {
    forall k :: 0 <= k < |x| ==> Rooted(h, x, k)
  }

  /** A leader's log is what it was elected with followed by entries of its own term. */
  ghost predicate ReignShape(t: nat, r: Reign)
  {
    && t >= 1
    && |r.start| < |r.log| && r.start == r.log[..|r.start|]
    && (forall k :: 0 <= k < |r.start| ==> r.log[k].term < t)
    && (forall k :: |r.start| <= k < |r.log| ==> r.log[k].term == t)
  }

  ghost predicate ReignsOk(h: Past)
  {
    forall t :: t in h.reigns ==> ReignShape(t, h.reigns[t]) && LogOk(h, h.reigns[t].log)
  }

  /** `r2` is `r1` at a later moment of the same term. */
  ghost predicate LaterReign(r1: Reign, r2: Reign)
  {
    r1.leader == r2.leader && r1.start == r2.start && r1.voters == r2.voters && r1.log <= r2.log
  }

  ghost predicate Extends(h: Past, h': Past)
  {
    forall t :: t in h.reigns ==> t in h'.reigns && LaterReign(h.reigns[t], h'.reigns[t])
  }

  lemma AgreePrefix(x: Log, y: Log, z: Log, n: nat)
    requires Agree(x, y, n) && y <= z
    ensures Agree(x, z, n)
  {
  }

  lemma LogOkExtends(h: Past, h': Past, x: Log)
    requires LogOk(h, x) && Extends(h, h')
    ensures LogOk(h', x)
  {
    forall k | 0 <= k < |x| ensures Rooted(h', x, k) {
      assert Rooted(h, x, k);
      AgreePrefix(x, h.reigns[x[k].term].log, h'.reigns[x[k].term].log, k + 1);
    }
  }

  lemma LogOkPrefix(h: Past, x: Log, n: nat)
    requires LogOk(h, x) && n <= |x|
    ensures LogOk(h, x[..n])
  {
    forall k | 0 <= k < n ensures Rooted(h, x[..n], k) {
      assert Rooted(h, x, k);
      assert x[..n][..k + 1] == x[..k + 1];
    }
  }

  /** A log is a prefix of the log of the leader of its last term. */
  lemma LogInLastReign(h: Past, x: Log)
    requires LogOk(h, x) && x != []
    ensures LastTerm(x) in h.reigns && x <= h.reigns[LastTerm(x)].log
  {
    assert Rooted(h, x, |x| - 1);
    assert x[..|x|] == x;
  }

  /** Log matching: the same term at the same position means the same entries up to it. */
  lemma LogsMatch(h: Past, x: Log, y: Log, k: nat)
    requires LogOk(h, x) && LogOk(h, y) && k < |x| && k < |y| && x[k].term == y[k].term
    ensures Agree(x, y, k + 1)
  {
    assert Rooted(h, x, k) && Rooted(h, y, k);
  }

  lemma LogsMatching(h: Past, x: Log, y: Log)
    requires LogOk(h, x) && LogOk(h, y)
    ensures Matching(x, y)
  {
    forall k | 0 <= k < |x| && k < |y| && x[k].term == y[k].term ensures Agree(x, y, k + 1) {
      LogsMatch(h, x, y, k);
    }
  }

  /** Every entry sits in the block its term's leader wrote. */
  lemma EntryInReign(h: Past, x: Log, k: nat)
    requires ReignsOk(h) && LogOk(h, x) && k < |x|
    ensures x[k].term in h.reigns && x[k].term >= 1
    ensures var r := h.reigns[x[k].term]; |r.start| <= k < |r.log| && Agree(x, r.log, k + 1) && x[k] == r.log[k]
  {
    assert Rooted(h, x, k);
    AgreeAt(x, h.reigns[x[k].term].log, k + 1, k);
    assert ReignShape(x[k].term, h.reigns[x[k].term]);
  }

  lemma TermsAscend(h: Past, x: Log, j: nat, k: nat)
    requires ReignsOk(h) && LogOk(h, x) && j <= k < |x|
    ensures x[j].term <= x[k].term
  {
    EntryInReign(h, x, k);
    var r := h.reigns[x[k].term];
    AgreeAt(x, r.log, k + 1, j);
    assert ReignShape(x[k].term, r);
  }

  lemma LogShape(h: Past, x: Log)
    requires ReignsOk(h) && LogOk(h, x)
    ensures Ascending(x) && Positive(x) && WellIndexed(x)
  {
    forall j, k | 0 <= j <= k < |x| ensures x[j].term <= x[k].term {
      TermsAscend(h, x, j, k);
    }
    forall k | 0 <= k < |x| ensures x[k].term > 0 && x[k].index == k + 1 {
      EntryInReign(h, x, k);
      assert Rooted(h, x, k);
    }
  }

  /** A term held by two logs starts at the same index in both. */
  lemma LogsAligned(h: Past, x: Log, y: Log)
    requires LogOk(h, x) && LogOk(h, y)
    ensures Aligned(x, y)
  {
    forall i, j | 0 <= j <= i < |x| && j < |y| && x[i].term == y[j].term ensures x[j].term == y[j].term {
      assert Rooted(h, x, i) && Rooted(h, y, j);
      var r := h.reigns[x[i].term];
      AgreeAt(x, r.log, i + 1, j);
      AgreeAt(y, r.log, j + 1, j);
    }
  }

  /** A log that holds an entry of term `t` but none of a later term is a prefix of that leader's log. */
  lemma HoldsTermThenPrefix(h: Past, x: Log, t: nat, k: nat)
    requires ReignsOk(h) && LogOk(h, x) && k < |x| && x[k].term == t && LastTerm(x) <= t
    ensures t in h.reigns && x <= h.reigns[t].log
  {
    TermsAscend(h, x, k, |x| - 1);
    LogInLastReign(h, x);
  }

  // ----- the step of leader completeness -----

  ghost predicate OwnIndex(h: Past, t: nat, n: nat)
  {
    t in h.reigns && |h.reigns[t].start| < n <= |h.reigns[t].log|
  }

  /**
   If a voter's log holds the leader of `t`'s entries up to `n` (the last of them of term `t`), then so
   does any log at least as up to date, provided the leader of that log's last term does if it is later.
   */
  lemma UpToDateCarries(h: Past, t: nat, n: nat, voter: Log, cand: Log)
    requires ReignsOk(h) && LogOk(h, voter) && LogOk(h, cand) && OwnIndex(h, t, n)
    requires Agree(h.reigns[t].log, voter, n)
    requires UpToDate(voter, |cand|, LastTerm(cand))
    requires var u := LastTerm(cand); u in h.reigns && t < u ==> Agree(h.reigns[t].log, h.reigns[u].log, n)
    ensures Agree(h.reigns[t].log, cand, n)
  {
    var tl := h.reigns[t].log;
    assert ReignShape(t, h.reigns[t]);
    AgreeAt(tl, voter, n, n - 1);
    TermsAscend(h, voter, n - 1, |voter| - 1);
    var u := LastTerm(cand);
    LogInLastReign(h, cand);
    var ul := h.reigns[u].log;
    assert ReignShape(u, h.reigns[u]);
    if u == LastTerm(voter) {
      LogInLastReign(h, voter);
      assert voter[..n] == ul[..n] by { assert voter[..n] == ul[..|voter|][..n]; }
      assert cand[..n] == ul[..n] by { assert cand[..n] == ul[..|cand|][..n]; }
    } else {
      AgreeAt(tl, ul, n, n - 1);
      assert cand[|cand| - 1] == ul[|cand| - 1];
      assert n < |cand|;
      assert cand[..n] == ul[..n] by { assert cand[..n] == ul[..|cand|][..n]; }
    }
  }
}
