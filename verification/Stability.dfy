/** What an action of one node leaves in place everywhere else. */
module Stability {
  import opened Types
  import opened Logs
  import opened Backtracking
  import opened NodeSpec
  import opened Cluster
  import opened History
  import opened Invariants

  /** Terms only grow, and a log changes only into a prefix of the current leader's log. */
  ghost predicate Evolves(h': Past, n: Node, n': Node)
  {
    && n.currentTerm <= n'.currentTerm
    && (n'.log == n.log || (n'.currentTerm in h'.reigns && n'.log <= h'.reigns[n'.currentTerm].log))
  }

  ghost predicate BallotsGrow(h: Past, h': Past)
  {
    forall v, t :: (v, t) in h.ballots ==> (v, t) in h'.ballots && h'.ballots[(v, t)] == h.ballots[(v, t)]
  }

  /** An acknowledgement of the leader of `t` grows only at the acting node, and only if it had not passed `t`. */
  ghost predicate AcksGrow(s: State, h: Past, h': Past, i: NodeId)
  {
    forall v, t :: v in s.nodes ==>
      && Ack(h, v, t) <= Ack(h', v, t)
      && (Ack(h, v, t) < Ack(h', v, t) ==> v == i && s.nodes[v].currentTerm <= t)
  }

  /** An action of node `i` from `s`, `h` to `s'`, `h'`. */
  ghost predicate Step(s: State, h: Past, s': State, h': Past, i: NodeId)
  {
    && s'.nodes.Keys == s.nodes.Keys && i in s.nodes
    && (forall j :: j in s.nodes && j != i ==> s'.nodes[j] == s.nodes[j])
    && Evolves(h', s.nodes[i], s'.nodes[i])
    && s.net <= s'.net
    && Extends(h, h') && ReignsOk(h')
    && (forall t :: t in h.reigns && h.reigns[t].leader != i ==> h'.reigns[t] == h.reigns[t])
    && BallotsGrow(h, h')
    && AcksGrow(s, h, h', i)
    && h.decided <= h'.decided
  }

  lemma MayProbeStable(h: Past, h': Past, f: Node, f': Node, t: nat, p: nat)
    requires ReignsOk(h) && ReignsOk(h') && Extends(h, h') && t in h.reigns
    requires LogOk(h, f.log) && LastTerm(f.log) <= f.currentTerm
    requires Evolves(h', f, f')
    requires MayProbe(f, t, h.reigns[t], p)
    ensures MayProbe(f', t, h'.reigns[t], p)
  {
  }

  lemma MayProbeStep(s: State, h: Past, s': State, h': Past, i: NodeId, j: NodeId, t: nat, p: nat)
    requires Step(s, h, s', h', i) && ReignsOk(h) && NodesOk(s, h)
    requires j in s.nodes && t in h.reigns
    requires MayProbe(s.nodes[j], t, h.reigns[t], p)
    ensures MayProbe(s'.nodes[j], t, h'.reigns[t], p)
  {
    assert NodeOk(s, h, j);
    MayProbeStable(h, h', s.nodes[j], s'.nodes[j], t, p);
  }

  /** Only entries of term `t` are added to the leader's log of `t`, so earlier hints keep their meaning. */
  lemma BackUpStable(h: Past, h': Past, t: nat, ci: nat, ct: nat)
    requires ReignsOk(h) && ReignsOk(h') && Extends(h, h') && t in h.reigns && ct < t
    ensures BackUp(h'.reigns[t].log, ci, ct) == BackUp(h.reigns[t].log, ci, ct)
  {
    assert LaterReign(h.reigns[t], h'.reigns[t]) && ReignShape(t, h'.reigns[t]) && ReignShape(t, h.reigns[t]);
    LastInTermExtend(h.reigns[t].log, h'.reigns[t].log, ct, |h'.reigns[t].log|);
  }

  lemma HintStable(h: Past, h': Past, f: Node, f': Node, t: nat, ci: nat, ct: nat)
    requires ReignsOk(h) && ReignsOk(h') && Extends(h, h') && t in h.reigns && ct < t
    requires LogOk(h, f.log) && LastTerm(f.log) <= f.currentTerm && Evolves(h', f, f')
    requires HintOk(f, t, h.reigns[t], ci, ct)
    ensures HintOk(f', t, h'.reigns[t], ci, ct)
  {
    assert LaterReign(h.reigns[t], h'.reigns[t]);
    BackUpStable(h, h', t, ci, ct);
    MayProbeStable(h, h', f, f', t, BackUp(h.reigns[t].log, ci, ct) - 1);
  }

  // ----- commitment -----

  lemma CommittedStep(s: State, h: Past, s': State, h': Past, i: NodeId, t: nat, n: nat)
    requires Step(s, h, s', h', i) && Committed(s.nodes.Keys, h, t, n)
    ensures Committed(s'.nodes.Keys, h', t, n)
  {
    var members := s.nodes.Keys;
    assert LaterReign(h.reigns[t], h'.reigns[t]);
    assert Holders(members, h, t, n) <= Holders(members, h', t, n);
    LargerMajority(members, Holders(members, h, t, n), Holders(members, h', t, n));
  }

  lemma CertifiedStep(s: State, h: Past, s': State, h': Past, i: NodeId, t: nat, t': nat, c: nat)
    requires Step(s, h, s', h', i) && Certified(s.nodes.Keys, h, t, c) && t <= t'
    ensures Certified(s'.nodes.Keys, h', t', c)
  {
    if c != 0 {
      var u: nat, n: nat :| u <= t && c <= n && Committed(s.nodes.Keys, h, u, n);
      CommittedStep(s, h, s', h', i, u, n);
    }
  }

  // ----- messages -----

  lemma CarriesStable(g: Reign, g': Reign, decided: Log, decided': Log, r: AppendRequest)
    requires Carries(g, decided, r) && LaterReign(g, g') && decided <= decided'
    ensures Carries(g', decided', r)
  {
  }

  lemma AppendReqStable(s: State, h: Past, s': State, h': Past, i: NodeId, dst: NodeId, r: AppendRequest)
    requires Step(s, h, s', h', i) && ReignsOk(h) && NodesOk(s, h)
    requires AppendReqOk(s, h, dst, r)
    ensures AppendReqOk(s', h', dst, r)
  {
    CarriesStable(h.reigns[r.term], h'.reigns[r.term], h.decided, h'.decided, r);
    CertifiedStep(s, h, s', h', i, r.term, r.term, r.leaderCommit);
    MayProbeStep(s, h, s', h', i, dst, r.term, r.prevIndex);
  }

  lemma AppendRespStable(s: State, h: Past, s': State, h': Past, i: NodeId,
                         src: NodeId, dst: NodeId, t: nat, prev: nat, count: nat, a: AppendReply)
    requires Step(s, h, s', h', i) && ReignsOk(h) && NodesOk(s, h)
    requires AppendRespOk(s, h, src, dst, t, prev, count, a)
    ensures AppendRespOk(s', h', src, dst, t, prev, count, a)
  {
    assert LaterReign(h.reigns[t], h'.reigns[t]);
    if !a.success && a.term == t {
      assert NodeOk(s, h, src);
      HintStable(h, h', s.nodes[src], s'.nodes[src], t, a.conflictIndex, a.conflictTerm);
    }
  }

  lemma MsgStable(s: State, h: Past, s': State, h': Past, i: NodeId, m: Message)
    requires Step(s, h, s', h', i) && ReignsOk(h) && NodesOk(s, h)
    requires MsgOk(s, h, m)
    ensures MsgOk(s', h', m)
  {
    match m
    case VoteReq(dst, r) =>
    case VoteResp(src, dst, t, v) =>
    case AppendReq(dst, r) => AppendReqStable(s, h, s', h', i, dst, r);
    case AppendResp(src, dst, t, prev, count, a) => AppendRespStable(s, h, s', h', i, src, dst, t, prev, count, a);
  }

  lemma NetStep(s: State, h: Past, s': State, h': Past, i: NodeId)
    requires Step(s, h, s', h', i) && ReignsOk(h) && NodesOk(s, h) && NetOk(s, h)
    requires forall m :: m in s'.net && m !in s.net ==> MsgOk(s', h', m)
    ensures NetOk(s', h')
  {
    forall m | m in s'.net ensures MsgOk(s', h', m) {
      if m in s.net {
        MsgStable(s, h, s', h', i, m);
      }
    }
  }

  // ----- elections -----

  lemma ElectedStep(s: State, h: Past, s': State, h': Past, i: NodeId)
    requires Step(s, h, s', h', i) && ElectedOk(s, h)
    requires forall t :: t in h'.reigns && t !in h.reigns ==> Elected(s', h', t)
    ensures ElectedOk(s', h')
  {
  }

  lemma BallotsStep(s: State, h: Past, s': State, h': Past, i: NodeId)
    requires Step(s, h, s', h', i) && BallotsOk(s, h)
    requires forall v, t :: (v, t) in h'.ballots && (v, t) !in h.ballots ==> BallotOk(s', h', v, t)
    ensures BallotsOk(s', h')
  {
    forall v, t | (v, t) in h'.ballots ensures BallotOk(s', h', v, t) {
      if (v, t) in h.ballots {
        assert BallotOk(s, h, v, t);
        var b := h.ballots[(v, t)];
        assert Voted(h, b.candidate, t, b.candidate);
        LogOkExtends(h, h', b.log);
      }
    }
  }

  // ----- nodes other than the acting one -----

  lemma NodesStep(s: State, h: Past, s': State, h': Past, i: NodeId)
    requires Step(s, h, s', h', i) && NodesOk(s, h)
    requires forall v, t :: (v, t) in h'.ballots && (v, t) !in h.ballots ==> v == i
    requires NodeOk(s', h', i)
    ensures NodesOk(s', h')
  {
    forall j | j in s'.nodes ensures NodeOk(s', h', j) {
      if j != i {
        assert NodeOk(s, h, j);
        LogOkExtends(h, h', s.nodes[j].log);
      }
    }
  }

  lemma CandidatesStep(s: State, h: Past, s': State, h': Past, i: NodeId)
    requires Step(s, h, s', h', i) && CandidatesOk(s, h)
    requires forall t :: t in h'.reigns && t !in h.reigns ==> h'.reigns[t].leader == i
    requires CandidateOk(s', h', i)
    ensures CandidatesOk(s', h')
  {
  }

  lemma PeerKept(s: State, h: Past, s': State, h': Past, l: NodeId, j: NodeId)
    requires ReignsOk(h) && ReignsOk(h') && Extends(h, h')
    requires l in s.nodes && j in s.nodes && l in s'.nodes && j in s'.nodes
    requires s.nodes[l].currentTerm in h.reigns && s'.nodes[l].currentTerm == s.nodes[l].currentTerm
    requires s'.nodes[l].nextIndex == s.nodes[l].nextIndex && s'.nodes[l].matchIndex == s.nodes[l].matchIndex
    requires |s.nodes[l].log| <= |s'.nodes[l].log|
    requires LogOk(h, s.nodes[j].log) && LastTerm(s.nodes[j].log) <= s.nodes[j].currentTerm
    requires Evolves(h', s.nodes[j], s'.nodes[j])
    requires Ack(h, j, s.nodes[l].currentTerm) <= Ack(h', j, s.nodes[l].currentTerm)
    requires PeerOk(s, h, l, j)
    ensures s.nodes[l].currentTerm in h'.reigns && PeerOk(s', h', l, j)
  {
  }

  lemma PeerStep(s: State, h: Past, s': State, h': Past, i: NodeId, l: NodeId, j: NodeId)
    requires Step(s, h, s', h', i) && ReignsOk(h)
    requires l in s.nodes && j in s.nodes && s.nodes[l].currentTerm in h.reigns && NodeOk(s, h, j)
    requires s'.nodes[l].currentTerm == s.nodes[l].currentTerm
    requires s'.nodes[l].nextIndex == s.nodes[l].nextIndex && s'.nodes[l].matchIndex == s.nodes[l].matchIndex
    requires |s.nodes[l].log| <= |s'.nodes[l].log|
    requires PeerOk(s, h, l, j)
    ensures s.nodes[l].currentTerm in h'.reigns && PeerOk(s', h', l, j)
  {
    PeerKept(s, h, s', h', l, j);
  }

  lemma LeadersStep(s: State, h: Past, s': State, h': Past, i: NodeId)
    requires Step(s, h, s', h', i) && ReignsOk(h) && NodesOk(s, h) && LeadersOk(s, h)
    requires LeaderOk(s', h', i)
    ensures LeadersOk(s', h')
  {
    forall l | l in s'.nodes ensures LeaderOk(s', h', l) {
      if l != i && s.nodes[l].role == Leader {
        assert LeaderOk(s, h, l);
        assert LaterReign(h.reigns[s.nodes[l].currentTerm], h'.reigns[s.nodes[l].currentTerm]);
        forall j | j in s'.nodes && j != l ensures PeerOk(s', h', l, j) {
          assert NodeOk(s, h, j);
          PeerStep(s, h, s', h', i, l, j);
        }
      }
    }
  }

  /** The commit index, what has been applied, and the log up to the commit index stay as they are. */
  ghost predicate CommitKept(n: Node, n': Node)
  {
    && n.currentTerm <= n'.currentTerm
    && n'.commitIndex == n.commitIndex && n'.lastApplied == n.lastApplied && n'.applied == n.applied
    && Agree(n.log, n'.log, n.commitIndex)
  }

  lemma DecidedGrows(log: Log, log': Log, decided: Log, decided': Log, c: nat, k: nat)
    requires Agree(log, decided, c) && Agree(log, log', c) && decided <= decided' && k <= c
    ensures Agree(log', decided', c) && decided'[..k] == decided[..k]
  {
  }

  lemma CommitStays(s: State, h: Past, s': State, h': Past, i: NodeId, j: NodeId)
    requires Step(s, h, s', h', i) && j in s.nodes && CommitOk(s, h, j) && CommitKept(s.nodes[j], s'.nodes[j])
    ensures CommitOk(s', h', j)
  {
    var n := s.nodes[j];
    CertifiedStep(s, h, s', h', i, n.currentTerm, s'.nodes[j].currentTerm, n.commitIndex);
    DecidedGrows(n.log, s'.nodes[j].log, h.decided, h'.decided, n.commitIndex, n.lastApplied);
  }

  lemma CommitsStep(s: State, h: Past, s': State, h': Past, i: NodeId)
    requires Step(s, h, s', h', i) && CommitsOk(s, h)
    requires CommitKept(s.nodes[i], s'.nodes[i]) || CommitOk(s', h', i)
    ensures CommitsOk(s', h')
  {
    forall j | j in s'.nodes ensures CommitOk(s', h', j) {
      assert CommitOk(s, h, j);
      if j != i || CommitKept(s.nodes[i], s'.nodes[i]) {
        CommitStays(s, h, s', h', i, j);
      }
    }
  }

  lemma AcksStep(s: State, h: Past, s': State, h': Past, i: NodeId)
    requires Step(s, h, s', h', i) && AcksOk(s, h)
    requires forall t :: AckOk(s', h', i, t)
    ensures AcksOk(s', h')
  {
    forall v, t | v in s'.nodes ensures AckOk(s', h', v, t) {
      if v != i {
        assert AckOk(s, h, v, t);
        assert t in h.reigns ==> LaterReign(h.reigns[t], h'.reigns[t]);
      }
    }
  }

  // ----- completeness -----

  lemma SupportShrinks(s: State, h: Past, s': State, h': Past, i: NodeId, t: nat, n: nat)
    requires Step(s, h, s', h', i)
    requires Choosable(s', h', t, n) && OwnIndex(h, t, n)
    ensures Choosable(s, h, t, n)
  {
    assert Support(s', h', t, n) <= Support(s, h, t, n);
    LargerMajority(s.nodes.Keys, Support(s', h', t, n), Support(s, h, t, n));
  }

  /** An index added to the leader's log of `t` by this step is not choosable once a later leader has been elected. */
  lemma NewIndexNotChoosable(s: State, h: Past, s': State, h': Past, i: NodeId, t: nat, n: nat, u: nat)
    requires Step(s, h, s', h', i) && AcksOk(s, h) && ElectedOk(s', h') && BallotsOk(s', h')
    requires OwnIndex(h', t, n) && !OwnIndex(h, t, n) && s'.nodes[i].currentTerm == t
    requires u in h'.reigns && t < u
    ensures !Choosable(s', h', t, n)
  {
    assert Elected(s', h', u);
    var voters := h'.reigns[u].voters;
    assert t in h.reigns ==> LaterReign(h.reigns[t], h'.reigns[t]);
    forall v | v in voters ensures v !in Support(s', h', t, n) {
      assert Voted(h', v, u, h'.reigns[u].leader);
      assert BallotOk(s', h', v, u);
      assert AckOk(s, h, v, t);
    }
    if Choosable(s', h', t, n) {
      MajoritiesMeet(s'.nodes.Keys, Support(s', h', t, n), voters);
    }
  }

  lemma LeadersCompleteStep(s: State, h: Past, s': State, h': Past, i: NodeId)
    requires Step(s, h, s', h', i) && LeadersComplete(s, h)
    requires forall t: nat, n: nat, u: nat ::
               Choosable(s', h', t, n) && !OwnIndex(h, t, n) && u in h'.reigns ==> u <= t
    requires forall t: nat, n: nat, u: nat ::
               Choosable(s, h, t, n) && u in h'.reigns && u !in h.reigns && t < u ==> Agree(h.reigns[t].log, h'.reigns[u].log, n)
    ensures LeadersComplete(s', h')
  {
    forall t: nat, n: nat, u: nat | Choosable(s', h', t, n) && u in h'.reigns && t < u
      ensures Agree(h'.reigns[t].log, h'.reigns[u].log, n)
    {
      assert OwnIndex(h, t, n);
      SupportShrinks(s, h, s', h', i, t, n);
      assert LaterReign(h.reigns[t], h'.reigns[t]);
      if u in h.reigns {
        assert LaterReign(h.reigns[u], h'.reigns[u]);
        AgreePrefix(h.reigns[t].log, h.reigns[u].log, h'.reigns[u].log, n);
      }
      AgreePrefix(h'.reigns[u].log, h.reigns[t].log, h'.reigns[t].log, n);
    }
  }

  lemma BallotsCompleteStep(s: State, h: Past, s': State, h': Past, i: NodeId)
    requires Step(s, h, s', h', i) && BallotsOk(s, h) && AcksOk(s, h)
    requires BallotsComplete(s, h) && NodesComplete(s, h)
    requires forall v, u :: (v, u) in h'.ballots && (v, u) !in h.ballots ==>
               v == i && h'.ballots[(v, u)].log == s.nodes[i].log && forall t :: Ack(h', i, t) == Ack(h, i, t)
    ensures BallotsComplete(s', h')
  {
    forall t: nat, n: nat, v: NodeId, u: nat | Choosable(s', h', t, n) && (v, u) in h'.ballots && t < u && Ack(h', v, t) >= n
      ensures Agree(h'.reigns[t].log, h'.ballots[(v, u)].log, n)
    {
      if (v, u) in h.ballots {
        assert BallotOk(s, h, v, u);
      }
      assert Ack(h, v, t) == Ack(h', v, t);
      assert AckOk(s, h, v, t);
      assert OwnIndex(h, t, n) by { assert LaterReign(h.reigns[t], h'.reigns[t]); }
      SupportShrinks(s, h, s', h', i, t, n);
      assert LaterReign(h.reigns[t], h'.reigns[t]);
      AgreePrefix(h'.ballots[(v, u)].log, h.reigns[t].log, h'.reigns[t].log, n);
    }
  }

  lemma NodesCompleteStep(s: State, h: Past, s': State, h': Past, i: NodeId)
    requires Step(s, h, s', h', i) && AcksOk(s, h) && NodesComplete(s, h)
    requires forall t: nat, n: nat :: Choosable(s', h', t, n) && Ack(h', i, t) >= n ==> Agree(h'.reigns[t].log, s'.nodes[i].log, n)
    ensures NodesComplete(s', h')
  {
    forall t: nat, n: nat, v: NodeId | Choosable(s', h', t, n) && v in s'.nodes && Ack(h', v, t) >= n
      ensures Agree(h'.reigns[t].log, s'.nodes[v].log, n)
    {
      if v != i {
        assert Ack(h, v, t) == Ack(h', v, t);
        assert AckOk(s, h, v, t);
        assert LaterReign(h.reigns[t], h'.reigns[t]);
        assert OwnIndex(h, t, n);
        SupportShrinks(s, h, s', h', i, t, n);
        AgreePrefix(s.nodes[v].log, h.reigns[t].log, h'.reigns[t].log, n);
      }
    }
  }

  lemma DecidedStep(s: State, h: Past, s': State, h': Past, i: NodeId)
    requires Step(s, h, s', h', i) && DecidedOk(s, h)
    requires h'.decided == h.decided && h'.decidedTerm == h.decidedTerm
    ensures DecidedOk(s', h')
  {
    if h.decided != [] {
      assert LaterReign(h.reigns[h.decidedTerm], h'.reigns[h.decidedTerm]);
      CommittedStep(s, h, s', h', i, h.decidedTerm, |h.decided|);
    }
  }
}
