/** Actions by which a leader's log grows: winning an election and taking a proposal. */
module LeaderSteps {
  import opened Types
  import opened Logs
  import opened WalRecords
  import opened NodeSpec
  import opened Cluster
  import opened History
  import opened Invariants
  import opened Stability
  import opened CalmSteps

  /** The leader `i` of the current term appends `e`; `r` records its reign afterwards. */
  ghost predicate Leads(s: State, h: Past, s': State, h': Past, i: NodeId, e: Entry, r: Reign)
  {
    && i in s.nodes && s'.nodes.Keys == s.nodes.Keys && s'.net == s.net
    && (forall j :: j in s.nodes && j != i ==> s'.nodes[j] == s.nodes[j])
    && var n, n', t := s.nodes[i], s'.nodes[i], s.nodes[i].currentTerm;
       && n'.currentTerm == t
       && n'.log == n.log + [e] && e.term == t && e.index == |n.log| + 1
       && r.leader == i && r.log == n'.log && ReignShape(t, r)
       && h' == h.(reigns := h.reigns[t := r], acks := h.acks[(i, t) := |n'.log|])
       && (t in h.reigns ==> h.reigns[t].leader == i && h.reigns[t].log == n.log && LaterReign(h.reigns[t], r))
       && LogOk(h, n.log)
       && Ack(h, i, t) <= |n.log|
  }

  lemma LeadsReigns(s: State, h: Past, s': State, h': Past, i: NodeId, e: Entry, r: Reign)
    requires ReignsOk(h) && Leads(s, h, s', h', i, e, r)
    ensures Extends(h, h') && ReignsOk(h')
  {
    var n, t := s.nodes[i], s.nodes[i].currentTerm;
    assert Extends(h, h');
    LogOkExtends(h, h', n.log);
    assert LogOk(h', r.log) by {
      forall k | 0 <= k < |r.log| ensures Rooted(h', r.log, k) {
        if k < |n.log| {
          assert Rooted(h', n.log, k);
          assert r.log[..k + 1] == n.log[..k + 1];
        }
      }
    }
    forall u | u in h'.reigns ensures ReignShape(u, h'.reigns[u]) && LogOk(h', h'.reigns[u].log) {
      if u != t {
        assert ReignShape(u, h.reigns[u]);
        LogOkExtends(h, h', h.reigns[u].log);
      }
    }
  }

  lemma LeadsStep(s: State, h: Past, s': State, h': Past, i: NodeId, e: Entry, r: Reign)
    requires ReignsOk(h) && Leads(s, h, s', h', i, e, r)
    ensures Step(s, h, s', h', i)
  {
    LeadsReigns(s, h, s', h', i, e, r);
    assert Evolves(h', s.nodes[i], s'.nodes[i]);
    assert AcksGrow(s, h, h', i);
  }

  lemma LeadsAcks(s: State, h: Past, s': State, h': Past, i: NodeId, e: Entry, r: Reign)
    requires AcksOk(s, h) && Leads(s, h, s', h', i, e, r) && Step(s, h, s', h', i)
    ensures AcksOk(s', h')
  {
    forall t ensures AckOk(s', h', i, t) {
      assert AckOk(s, h, i, t);
    }
    AcksStep(s, h, s', h', i);
  }

  /** `log` holds everything that may be committed in a term before `u`. */
  ghost predicate CompleteBefore(s: State, h: Past, u: nat, log: Log)
  {
    forall t: nat, n: nat :: Choosable(s, h, t, n) && t < u ==> Agree(h.reigns[t].log, log, n)
  }

  lemma LeadsLeadersComplete(s: State, h: Past, s': State, h': Past, i: NodeId, e: Entry, r: Reign)
    requires AcksOk(s, h) && LeadersComplete(s, h) && ElectedOk(s', h') && BallotsOk(s', h')
    requires Leads(s, h, s', h', i, e, r) && Step(s, h, s', h', i)
    requires s.nodes[i].currentTerm !in h.reigns ==> CompleteBefore(s, h, s.nodes[i].currentTerm, r.log)
    ensures LeadersComplete(s', h')
  {
    forall t: nat, n: nat, u: nat | Choosable(s', h', t, n) && !OwnIndex(h, t, n) && u in h'.reigns ensures u <= t {
      if t < u { NewIndexNotChoosable(s, h, s', h', i, t, n, u); }
    }
    LeadersCompleteStep(s, h, s', h', i);
  }

  lemma LeadsNodesComplete(s: State, h: Past, s': State, h': Past, i: NodeId, e: Entry, r: Reign)
    requires AcksOk(s, h) && NodesComplete(s, h)
    requires Leads(s, h, s', h', i, e, r) && Step(s, h, s', h', i)
    ensures NodesComplete(s', h')
  {
    forall t: nat, n: nat | Choosable(s', h', t, n) && Ack(h', i, t) >= n
      ensures Agree(h'.reigns[t].log, s'.nodes[i].log, n)
    {
      if t != s.nodes[i].currentTerm {
        SupportShrinks(s, h, s', h', i, t, n);
        AgreePrefix(h.reigns[t].log, s.nodes[i].log, s'.nodes[i].log, n);
      }
    }
    NodesCompleteStep(s, h, s', h', i);
  }

  lemma LeadsCommitKept(s: State, h: Past, s': State, h': Past, i: NodeId, e: Entry, r: Reign)
    requires Leads(s, h, s', h', i, e, r) && CommitOk(s, h, i)
    requires var n, n' := s.nodes[i], s'.nodes[i];
             n'.commitIndex == n.commitIndex && n'.lastApplied == n.lastApplied && n'.applied == n.applied
    ensures CommitKept(s.nodes[i], s'.nodes[i])
  {
  }

  ghost predicate LeadsWell(s: State, h: Past, s': State, h': Past, i: NodeId, e: Entry, r: Reign)
  {
    && Leads(s, h, s', h', i, e, r) && Step(s, h, s', h', i)
    && ActorOk(s', h', i) && CommitKept(s.nodes[i], s'.nodes[i])
    && (s.nodes[i].currentTerm !in h.reigns ==>
          Elected(s', h', s.nodes[i].currentTerm) && CompleteBefore(s, h, s.nodes[i].currentTerm, r.log))
  }

  lemma LeadsInv(s: State, h: Past, s': State, h': Past, i: NodeId, e: Entry, r: Reign)
    requires Inv(s, h) && LeadsWell(s, h, s', h', i, e, r)
    ensures Inv(s', h')
  {
    ElectedStep(s, h, s', h', i);
    BallotsStep(s, h, s', h', i);
    NodesStep(s, h, s', h', i);
    CandidatesStep(s, h, s', h', i);
    LeadersStep(s, h, s', h', i);
    CommitsStep(s, h, s', h', i);
    LeadsAcks(s, h, s', h', i, e, r);
    NetStep(s, h, s', h', i);
    LeadsLeadersComplete(s, h, s', h', i, e, r);
    BallotsCompleteStep(s, h, s', h', i);
    LeadsNodesComplete(s, h, s', h', i, e, r);
    DecidedStep(s, h, s', h', i);
  }

  lemma LogRecKeepsHardState(wal: seq<WalRecord>, e: Entry)
    ensures var w, w' := Recover(wal), Recover(wal + [LogRec(e)]);
            w'.term == w.term && w'.votedFor == w.votedFor && w'.snapshotIndex == w.snapshotIndex
  {
  }

  lemma LeadsNodeOk(s: State, h: Past, s': State, h': Past, i: NodeId, e: Entry, r: Reign)
    requires ReignsOk(h) && Leads(s, h, s', h', i, e, r) && NodeOk(s, h, i)
    requires var n, n' := s.nodes[i], s'.nodes[i];
             n'.votedFor == n.votedFor && n'.wal == n.wal + [LogRec(e)] && n'.matchIndex.Keys <= s.nodes.Keys - {i}
    ensures NodeOk(s', h', i)
  {
    LeadsReigns(s, h, s', h', i, e, r);
    LogRecKeepsHardState(s.nodes[i].wal, e);
    assert LogOk(h', h'.reigns[s.nodes[i].currentTerm].log);
  }

  // ----- taking a proposal -----

  lemma SubmitLeads(s: State, h: Past, i: NodeId, e: Entry, s': State, h': Past)
    requires ReignsOk(h) && i in s.nodes && NodeOk(s, h, i) && LeaderOk(s, h, i) && AckOk(s, h, i, s.nodes[i].currentTerm)
    requires s.nodes[i].role == Leader
    requires var n := s.nodes[i];
             && e.term == n.currentTerm && e.index == |n.log| + 1
             && s' == State(s.nodes[i := n.(log := n.log + [e], wal := n.wal + [LogRec(e)])], s.net)
             && n.currentTerm in h.reigns
             && h' == h.(reigns := h.reigns[n.currentTerm := h.reigns[n.currentTerm].(log := n.log + [e])],
                         acks := h.acks[(i, n.currentTerm) := |n.log| + 1])
    ensures Leads(s, h, s', h', i, e, h'.reigns[s.nodes[i].currentTerm])
    ensures NodeOk(s', h', i)
  {
    var t := s.nodes[i].currentTerm;
    assert ReignShape(t, h.reigns[t]);
    assert ReignShape(t, h'.reigns[t]);
    LeadsNodeOk(s, h, s', h', i, e, h'.reigns[t]);
  }

  lemma SubmitLeaderOk(s: State, h: Past, i: NodeId, s': State, h': Past)
    requires ReignsOk(h) && NodesOk(s, h) && Step(s, h, s', h', i) && LeaderOk(s, h, i)
    requires var n, n' := s.nodes[i], s'.nodes[i];
             && n'.role == n.role == Leader && n'.currentTerm == n.currentTerm
             && n'.nextIndex == n.nextIndex && n'.matchIndex == n.matchIndex && n.log <= n'.log
             && n.currentTerm in h'.reigns && h'.reigns[n.currentTerm].log == n'.log && h'.reigns[n.currentTerm].leader == i
             && |n'.log| <= Ack(h', i, n.currentTerm)
    ensures LeaderOk(s', h', i)
  {
    forall j | j in s'.nodes && j != i ensures PeerOk(s', h', i, j) {
      assert NodeOk(s, h, j);
      PeerStep(s, h, s', h', i, i, j);
    }
  }

  lemma SubmitInv(s: State, h: Past, i: NodeId, e: Entry, s': State, h': Past)
    requires Inv(s, h) && i in s.nodes && s.nodes[i].role == Leader
    requires var n := s.nodes[i];
             && e.term == n.currentTerm && e.index == |n.log| + 1
             && s' == State(s.nodes[i := n.(log := n.log + [e], wal := n.wal + [LogRec(e)])], s.net)
             && n.currentTerm in h.reigns
             && h' == h.(reigns := h.reigns[n.currentTerm := h.reigns[n.currentTerm].(log := n.log + [e])],
                         acks := h.acks[(i, n.currentTerm) := |n.log| + 1])
    ensures Inv(s', h')
  {
    var r := h'.reigns[s.nodes[i].currentTerm];
    SubmitLeads(s, h, i, e, s', h');
    LeadsStep(s, h, s', h', i, e, r);
    SubmitLeaderOk(s, h, i, s', h');
    LeadsCommitKept(s, h, s', h', i, e, r);
    LeadsInv(s, h, s', h', i, e, r);
  }

  // ----- winning an election -----

  lemma QuorumIsMajority(s: State, i: NodeId, q: set<NodeId>)
    requires i in s.nodes && q <= s.nodes.Keys && |q| >= Quorum(s, i)
    ensures Majority(s.nodes.Keys, q)
  {
  }

  /** Election safety at the moment of victory: nobody has been elected in the candidate's term. */
  lemma WinnerIsFirst(s: State, h: Past, i: NodeId)
    requires ElectedOk(s, h) && i in s.nodes && CandidateOk(s, h, i) && HasWon(s.nodes[i], Peers(s, i))
    ensures s.nodes[i].currentTerm !in h.reigns
    ensures Majority(s.nodes.Keys, s.nodes[i].votes)
  {
    var n := s.nodes[i];
    QuorumIsMajority(s, i, n.votes);
    if n.currentTerm in h.reigns {
      var r := h.reigns[n.currentTerm];
      assert Elected(s, h, n.currentTerm);
      forall v | v in n.votes ensures v !in r.voters {
        assert Voted(h, v, n.currentTerm, i);
        assert v in r.voters ==> Voted(h, v, n.currentTerm, r.leader);
      }
      MajoritiesMeet(s.nodes.Keys, n.votes, r.voters);
    }
  }

  /** What winning does to the node, field by field. */
  ghost predicate Crowned(n: Node, n': Node, peers: set<NodeId>)
  {
    && n'.role == Leader && n'.currentTerm == n.currentTerm && n'.votedFor == n.votedFor
    && n'.log == n.log + [NoOpEntry(n.currentTerm, |n.log| + 1)]
    && n'.wal == n.wal + [LogRec(NoOpEntry(n.currentTerm, |n.log| + 1))]
    && n'.commitIndex == n.commitIndex && n'.lastApplied == n.lastApplied && n'.applied == n.applied
    && n'.matchIndex.Keys == n.matchIndex.Keys + peers
    && (forall p :: p in peers ==> p in n'.nextIndex && n'.nextIndex[p] == |n.log| + 1)
    && (forall p :: p in peers ==> p in n'.matchIndex && n'.matchIndex[p] == 0)
  }

  lemma BecomeLeaderCrowns(n: Node, peers: set<NodeId>)
    ensures Crowned(n, BecomeLeader(n, peers), peers)
  {
  }

  ghost predicate Wins(s: State, h: Past, i: NodeId, s': State, h': Past)
  {
    && i in s.nodes && s'.nodes.Keys == s.nodes.Keys && s'.net == s.net
    && (forall j :: j in s.nodes && j != i ==> s'.nodes[j] == s.nodes[j])
    && Crowned(s.nodes[i], s'.nodes[i], s.nodes.Keys - {i})
    && var n := s.nodes[i];
       && n.role == Candidate && Majority(s.nodes.Keys, n.votes) && n.currentTerm !in h.reigns
       && h' == h.(reigns := h.reigns[n.currentTerm := Reign(i, n.log, n.votes, s'.nodes[i].log)],
                   acks := h.acks[(i, n.currentTerm) := |s'.nodes[i].log|])
  }

  lemma WinLeads(s: State, h: Past, i: NodeId, s': State, h': Past)
    requires ReignsOk(h) && BallotsOk(s, h) && Wins(s, h, i, s', h') && NodeOk(s, h, i) && CandidateOk(s, h, i)
    requires AckOk(s, h, i, s.nodes[i].currentTerm)
    ensures var n := s.nodes[i]; Leads(s, h, s', h', i, NoOpEntry(n.currentTerm, |n.log| + 1), h'.reigns[n.currentTerm])
  {
    var n, t := s.nodes[i], s.nodes[i].currentTerm;
    assert BallotOk(s, h, i, t);
    LogShape(h, n.log);
    assert ReignShape(t, h'.reigns[t]) by {
      assert forall k :: 0 <= k < |n.log| ==> n.log[k].term <= n.log[|n.log| - 1].term;
    }
  }

  lemma WinElected(s: State, h: Past, i: NodeId, s': State, h': Past)
    requires Wins(s, h, i, s', h') && CandidateOk(s, h, i)
    ensures Elected(s', h', s.nodes[i].currentTerm)
  {
  }

  lemma WinLeaderOk(s: State, h: Past, i: NodeId, s': State, h': Past)
    requires Wins(s, h, i, s', h')
    ensures LeaderOk(s', h', i)
  {
  }

  lemma WinActor(s: State, h: Past, i: NodeId, s': State, h': Past)
    requires ReignsOk(h) && BallotsOk(s, h) && Wins(s, h, i, s', h') && NodeOk(s, h, i) && CandidateOk(s, h, i)
    requires AckOk(s, h, i, s.nodes[i].currentTerm)
    ensures ActorOk(s', h', i)
  {
    var n := s.nodes[i];
    WinLeads(s, h, i, s', h');
    WinLeaderOk(s, h, i, s', h');
    LeadsNodeOk(s, h, s', h', i, NoOpEntry(n.currentTerm, |n.log| + 1), h'.reigns[n.currentTerm]);
  }

  /** The heart of leader completeness: what may have been committed in an earlier term is in the winner's log. */
  lemma WinnerIsComplete(s: State, h: Past, i: NodeId, t: nat, n: nat)
    requires ReignsOk(h) && BallotsOk(s, h) && LeadersComplete(s, h) && BallotsComplete(s, h)
    requires i in s.nodes && CandidateOk(s, h, i) && s.nodes[i].role == Candidate
    requires Majority(s.nodes.Keys, s.nodes[i].votes) && s.nodes[i].currentTerm !in h.reigns
    requires Choosable(s, h, t, n) && t < s.nodes[i].currentTerm
    ensures Agree(h.reigns[t].log, s.nodes[i].log, n)
  {
    var c := s.nodes[i];
    MajoritiesMeet(s.nodes.Keys, Support(s, h, t, n), c.votes);
    var v :| v in Support(s, h, t, n) && v in c.votes;
    assert Voted(h, v, c.currentTerm, i);
    assert BallotOk(s, h, v, c.currentTerm);
    assert BallotOk(s, h, i, c.currentTerm);
    var b := h.ballots[(v, c.currentTerm)];
    assert Agree(h.reigns[t].log, b.log, n);
    UpToDateCarries(h, t, n, b.log, c.log);
  }

  lemma WinnerIsAlwaysComplete(s: State, h: Past, i: NodeId, log': Log)
    requires ReignsOk(h) && BallotsOk(s, h) && LeadersComplete(s, h) && BallotsComplete(s, h)
    requires i in s.nodes && CandidateOk(s, h, i) && s.nodes[i].role == Candidate
    requires Majority(s.nodes.Keys, s.nodes[i].votes) && s.nodes[i].currentTerm !in h.reigns
    requires s.nodes[i].log <= log'
    ensures CompleteBefore(s, h, s.nodes[i].currentTerm, log')
  {
    forall t: nat, n: nat | Choosable(s, h, t, n) && t < s.nodes[i].currentTerm ensures Agree(h.reigns[t].log, log', n) {
      WinnerIsComplete(s, h, i, t, n);
      AgreePrefix(h.reigns[t].log, s.nodes[i].log, log', n);
    }
  }

  lemma WinSteps(s: State, h: Past, i: NodeId, s': State, h': Past, e: Entry, r: Reign)
    requires ReignsOk(h) && BallotsOk(s, h) && Wins(s, h, i, s', h')
    requires NodeOk(s, h, i) && CandidateOk(s, h, i) && CommitOk(s, h, i) && AckOk(s, h, i, s.nodes[i].currentTerm)
    requires e == NoOpEntry(s.nodes[i].currentTerm, |s.nodes[i].log| + 1) && r == h'.reigns[s.nodes[i].currentTerm]
    ensures Leads(s, h, s', h', i, e, r) && Step(s, h, s', h', i)
    ensures ActorOk(s', h', i) && CommitKept(s.nodes[i], s'.nodes[i])
  {
    WinLeads(s, h, i, s', h');
    LeadsStep(s, h, s', h', i, e, r);
    WinActor(s, h, i, s', h');
    LeadsCommitKept(s, h, s', h', i, e, r);
  }

  lemma WinsWell(s: State, h: Past, i: NodeId, s': State, h': Past)
    requires ReignsOk(h) && BallotsOk(s, h) && LeadersComplete(s, h) && BallotsComplete(s, h)
    requires Wins(s, h, i, s', h') && NodeOk(s, h, i) && CandidateOk(s, h, i) && CommitOk(s, h, i)
    requires AckOk(s, h, i, s.nodes[i].currentTerm)
    ensures var n := s.nodes[i]; LeadsWell(s, h, s', h', i, NoOpEntry(n.currentTerm, |n.log| + 1), h'.reigns[n.currentTerm])
  {
    var n := s.nodes[i];
    var e, r := NoOpEntry(n.currentTerm, |n.log| + 1), h'.reigns[n.currentTerm];
    WinSteps(s, h, i, s', h', e, r);
    WinElected(s, h, i, s', h');
    WinnerIsAlwaysComplete(s, h, i, r.log);
  }

  lemma WinFromInv(s: State, h: Past, i: NodeId, s': State, h': Past)
    requires ReignsOk(h) && BallotsOk(s, h) && LeadersComplete(s, h) && BallotsComplete(s, h) && AcksOk(s, h)
    requires NodesOk(s, h) && CandidatesOk(s, h) && LeadersOk(s, h) && CommitsOk(s, h) && Wins(s, h, i, s', h')
    ensures var n := s.nodes[i]; LeadsWell(s, h, s', h', i, NoOpEntry(n.currentTerm, |n.log| + 1), h'.reigns[n.currentTerm])
  {
    ActorParts(s, h, i);
    assert AckOk(s, h, i, s.nodes[i].currentTerm);
    WinsWell(s, h, i, s', h');
  }

  lemma WinInv(s: State, h: Past, i: NodeId, s': State, h': Past)
    requires Inv(s, h) && Wins(s, h, i, s', h')
    ensures Inv(s', h')
  {
    var n := s.nodes[i];
    WinFromInv(s, h, i, s', h');
    LeadsInv(s, h, s', h', i, NoOpEntry(n.currentTerm, |n.log| + 1), h'.reigns[n.currentTerm]);
  }
}
