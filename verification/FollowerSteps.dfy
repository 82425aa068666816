/** A follower handling AppendEntries. */
module FollowerSteps {
  import opened Types
  import opened Logs
  import opened WalRecords
  import opened Backtracking
  import opened NodeSpec
  import opened Cluster
  import opened History
  import opened Invariants
  import opened Stability
  import opened CalmSteps

  // ----- rejection -----

  /** The hint of a rejection leads to a position the leader may probe. */
  lemma HintMayProbe(h: Past, n: Node, t: nat, prev: nat)
    requires ReignsOk(h) && LogOk(h, n.log) && LastTerm(n.log) <= t && n.currentTerm == t && t in h.reigns
    requires prev <= |h.reigns[t].log|
    requires Check(n.log, prev, TermAt(h.reigns[t].log, prev)).Reject?
    ensures var g, v := h.reigns[t], Check(n.log, prev, TermAt(h.reigns[t].log, prev));
            var next := BackUp(g.log, v.conflictIndex, v.conflictTerm);
            && v.conflictTerm < t
            && 1 <= next <= |g.log| + 1
            && MayProbe(n, t, g, next - 1)
  {
    var g := h.reigns[t];
    assert ReignShape(t, g);
    LogShape(h, g.log);
    LogShape(h, n.log);
    assert Probe(g.log, n.log, prev + 1) == Check(n.log, prev, TermAt(g.log, prev));
    var next := NextProbe(g.log, n.log, prev + 1);
    assert Agree(g.log, n.log, 0);
    RejectionKeepsAgreedPrefix(g.log, n.log, prev + 1, 0);
    assert !Agree(n.log, g.log, next) by {
      if Agree(g.log, n.log, next) { RejectionKeepsAgreedPrefix(g.log, n.log, prev + 1, next); }
    }
    ConflictTermOlder(h, n, t, prev);
  }

  lemma ConflictTermOlder(h: Past, n: Node, t: nat, prev: nat)
    requires ReignsOk(h) && LogOk(h, n.log) && LastTerm(n.log) <= t && t in h.reigns
    requires prev <= |h.reigns[t].log|
    requires Check(n.log, prev, TermAt(h.reigns[t].log, prev)).Reject?
    ensures Check(n.log, prev, TermAt(h.reigns[t].log, prev)).conflictTerm < t
  {
    assert ReignShape(t, h.reigns[t]);
    if prev <= |n.log| {
      TermsAscend(h, n.log, prev - 1, |n.log| - 1);
      if n.log[prev - 1].term == t {
        EntryInReign(h, n.log, prev - 1);
      }
    }
  }

  lemma RefusalInv(s: State, h: Past, i: NodeId, r: AppendRequest, reply: AppendReply, s': State)
    requires Inv(s, h) && AppendReqOk(s, h, i, r) && !reply.success
    requires reply.term > r.term ==> reply.conflictIndex == 0 && reply.conflictTerm == 0
    requires reply.term == r.term ==>
               && s.nodes[i].currentTerm == r.term
               && Check(s.nodes[i].log, r.prevIndex, r.prevTerm) == Reject(reply.conflictIndex, reply.conflictTerm)
    requires s' == State(s.nodes, s.net + {AppendResp(i, r.leader, r.term, r.prevIndex, |r.entries|, reply)})
    ensures Inv(s', h)
  {
    assert Elected(s, h, r.term);
    if reply.term == r.term {
      assert NodeOk(s, h, i);
      HintMayProbe(h, s.nodes[i], r.term, r.prevIndex);
    }
    assert AppendRespOk(s, h, i, r.leader, r.term, r.prevIndex, |r.entries|, reply);
    SendInv(s, h, s', i, AppendResp(i, r.leader, r.term, r.prevIndex, |r.entries|, reply));
  }

  // ----- acceptance -----

  /** Where the logs hold the same term they hold the same entry. */
  lemma TermMeansEntry(h: Past, x: Log, y: Log)
    requires LogOk(h, x) && LogOk(h, y)
    ensures forall k :: 0 <= k < |x| && k < |y| && x[k].term == y[k].term ==> x[k] == y[k]
  {
    forall k | 0 <= k < |x| && k < |y| && x[k].term == y[k].term ensures x[k] == y[k] {
      LogsMatch(h, x, y, k);
      AgreeAt(x, y, k + 1, k);
    }
  }

  lemma AcceptedMatches(h: Past, x: Log, g: Log, prev: nat)
    requires ReignsOk(h) && LogOk(h, x) && LogOk(h, g) && prev <= |g|
    requires Check(x, prev, TermAt(g, prev)) == Accept
    ensures Agree(x, g, prev)
  {
    if prev > 0 {
      LogsMatch(h, x, g, prev - 1);
    }
  }

  /**
   The heart of `min(leaderCommit, LastIndex())`: whatever a follower accepts, its log is afterwards a
   prefix of the leader's, so that every index it may then commit is one the leader holds.
   */
  lemma AcceptedIsPrefix(h: Past, n: Node, t: nat, prev: nat, count: nat)
    requires ReignsOk(h) && LogOk(h, n.log) && LastTerm(n.log) <= t && n.currentTerm == t && t in h.reigns
    requires prev + count <= |h.reigns[t].log| && (count == 0 ==> prev > |h.reigns[t].start|)
    requires Check(n.log, prev, TermAt(h.reigns[t].log, prev)) == Accept
    requires MayProbe(n, t, h.reigns[t], prev)
    ensures var g := h.reigns[t].log;
            var out := Splice(n.log, prev, g[prev..prev + count]);
            out <= g && prev + count <= |out| && (out == n.log || out == g[..prev + count])
  {
    var r := h.reigns[t];
    var g := r.log;
    assert ReignShape(t, r);
    AcceptedMatches(h, n.log, g, prev);
    TermMeansEntry(h, n.log, g);
    SpliceOfMatching(n.log, g, prev, count);
    var out := Splice(n.log, prev, g[prev..prev + count]);
    if out == n.log {
      if count == 0 {
        AgreeAt(n.log, g, prev, prev - 1);
        HoldsTermThenPrefix(h, n.log, t, prev - 1);
      } else {
        AgreeShorter(n.log, g, prev + count, prev + 1);
        if prev >= |r.start| {
          AgreeAt(n.log, g, prev + 1, prev);
          HoldsTermThenPrefix(h, n.log, t, prev);
        }
      }
    }
  }

  /** Accepting keeps every prefix on which the follower already agreed with the leader. */
  lemma AcceptedKeeps(h: Past, n: Node, t: nat, prev: nat, count: nat, c: nat)
    requires ReignsOk(h) && LogOk(h, n.log) && t in h.reigns && prev + count <= |h.reigns[t].log|
    requires Check(n.log, prev, TermAt(h.reigns[t].log, prev)) == Accept
    requires Agree(n.log, h.reigns[t].log, c)
    ensures Agree(Splice(n.log, prev, h.reigns[t].log[prev..prev + count]), h.reigns[t].log, c)
  {
    var g := h.reigns[t].log;
    AcceptedMatches(h, n.log, g, prev);
    TermMeansEntry(h, n.log, g);
    SpliceKeepsAgreed(n.log, g, prev, count, c);
  }

  // ----- what is committed -----

  lemma CommittedIsChoosable(s: State, h: Past, t: nat, n: nat)
    requires Committed(s.nodes.Keys, h, t, n)
    ensures Choosable(s, h, t, n)
  {
    assert Holders(s.nodes.Keys, h, t, n) <= Support(s, h, t, n);
    LargerMajority(s.nodes.Keys, Holders(s.nodes.Keys, h, t, n), Support(s, h, t, n));
  }

  /** Two commitments never contradict each other. */
  lemma CommitmentsAgree(s: State, h: Past, t: nat, n: nat, u: nat, m: nat, c: nat)
    requires LeadersComplete(s, h)
    requires Committed(s.nodes.Keys, h, t, n) && Committed(s.nodes.Keys, h, u, m) && c <= n && c <= m
    ensures Agree(h.reigns[t].log, h.reigns[u].log, c)
  {
    CommittedIsChoosable(s, h, t, n);
    CommittedIsChoosable(s, h, u, m);
    if t < u {
      AgreeShorter(h.reigns[t].log, h.reigns[u].log, n, c);
    } else if u < t {
      AgreeShorter(h.reigns[u].log, h.reigns[t].log, m, c);
    }
  }

  /** What was committed up to term `t` is in the log of the leader of `t`. */
  lemma CertifiedInReign(s: State, h: Past, t: nat, c: nat)
    requires LeadersComplete(s, h) && DecidedOk(s, h) && t in h.reigns
    requires Certified(s.nodes.Keys, h, t, c) && c <= |h.decided|
    ensures Agree(h.decided, h.reigns[t].log, c)
  {
    if c > 0 {
      var u: nat, n: nat :| u <= t && c <= n && Committed(s.nodes.Keys, h, u, n);
      var d := h.decidedTerm;
      CommitmentsAgree(s, h, d, |h.decided|, u, n, c);
      CommittedIsChoosable(s, h, u, n);
      if u < t { AgreeShorter(h.reigns[u].log, h.reigns[t].log, n, c); }
      assert h.decided[..c] == h.reigns[d].log[..|h.decided|][..c];
    }
  }

  // ----- the accepting node -----

  ghost predicate Accepts(s: State, h: Past, i: NodeId, r: AppendRequest, s': State, h': Past)
  {
    && AppendReqOk(s, h, i, r) && s.nodes[i].currentTerm == r.term
    && Check(s.nodes[i].log, r.prevIndex, r.prevTerm) == Accept
    && s' == State(s.nodes[i := AcceptAppend(s.nodes[i], r)], s.net)
    && h' == h.(acks := h.acks[(i, r.term) := Max(Ack(h, i, r.term), r.prevIndex + |r.entries|)])
  }

  /** The log afterwards, with what every other proof needs to know about it. */
  lemma AcceptLog(s: State, h: Past, i: NodeId, r: AppendRequest, s': State, h': Past)
    requires ReignsOk(h) && Accepts(s, h, i, r, s', h') && NodeOk(s, h, i) && AckOk(s, h, i, r.term)
    ensures var g, out := h.reigns[r.term].log, s'.nodes[i].log;
            && out <= g && r.prevIndex + |r.entries| <= |out|
            && (out == s.nodes[i].log || out == g[..r.prevIndex + |r.entries|])
            && Ack(h', i, r.term) <= |out|
  {
    var n, t, prev, count := s.nodes[i], r.term, r.prevIndex, |r.entries|;
    var g := h.reigns[t].log;
    AcceptedIsPrefix(h, n, t, prev, count);
    if Ack(h, i, t) > 0 {
      assert n.log[..|n.log|] == n.log;
      AcceptedKeeps(h, n, t, prev, count, |n.log|);
    }
  }

  lemma LogRecsKeepHardState(wal: seq<WalRecord>, es: seq<Entry>)
    ensures var w, w' := Recover(wal), Recover(wal + LogRecs(es));
            w'.term == w.term && w'.votedFor == w.votedFor && w'.snapshotIndex == w.snapshotIndex
    decreases |es|
  {
    if es == [] {
      assert wal + LogRecs(es) == wal;
    } else {
      var front, last := es[..|es| - 1], es[|es| - 1];
      LogRecsKeepHardState(wal, front);
      assert wal + LogRecs(es) == (wal + LogRecs(front)) + [LogRec(last)];
      RecoverSnoc(wal + LogRecs(front), LogRec(last));
    }
  }

  lemma AcceptStep(s: State, h: Past, i: NodeId, r: AppendRequest, s': State, h': Past)
    requires ReignsOk(h) && Accepts(s, h, i, r, s', h')
    requires s'.nodes[i].log <= h.reigns[r.term].log
    ensures Step(s, h, s', h', i)
  {
    assert Extends(h, h');
    assert ReignsOk(h') by {
      forall u | u in h'.reigns ensures ReignShape(u, h'.reigns[u]) && LogOk(h', h'.reigns[u].log) {
        LogOkExtends(h, h', h.reigns[u].log);
      }
    }
    assert AcksGrow(s, h, h', i);
  }

  lemma AcceptNodeOk(s: State, h: Past, i: NodeId, r: AppendRequest, s': State, h': Past)
    requires ReignsOk(h) && Accepts(s, h, i, r, s', h') && NodeOk(s, h, i)
    requires Extends(h, h') && s'.nodes[i].log <= h.reigns[r.term].log
    ensures NodeOk(s', h', i)
  {
    var g, out := h.reigns[r.term], s'.nodes[i].log;
    assert ReignShape(r.term, g);
    LogOkPrefix(h, g.log, |out|);
    assert out == g.log[..|out|];
    LogOkExtends(h, h', out);
    LogRecsKeepHardState(s.nodes[i].wal, r.entries);
  }

  lemma AcceptActor(s: State, h: Past, i: NodeId, r: AppendRequest, s': State, h': Past)
    requires ReignsOk(h) && Accepts(s, h, i, r, s', h') && ActorOk(s, h, i)
    requires Extends(h, h') && s'.nodes[i].log <= h.reigns[r.term].log
    ensures ActorOk(s', h', i)
  {
    AcceptNodeOk(s, h, i, r, s', h');
    assert s'.nodes[i].role != Leader;
    assert forall v :: v in s'.nodes[i].votes && s'.nodes[i].role == Candidate ==> Voted(h', v, r.term, i) by {
      forall v | v in s.nodes[i].votes && s.nodes[i].role == Candidate ensures Voted(h', v, r.term, i) {
        assert Voted(h, v, r.term, i);
      }
    }
  }

  /** The new commit index against the decided prefix, on logs alone. */
  lemma AcceptedCommit(log: Log, out: Log, g: Log, decided: Log, c: nat, leaderCommit: nat)
    requires out <= g && Agree(log, decided, c) && Agree(decided, g, c) && Agree(out, g, c)
    requires Agree(g, decided, leaderCommit)
    ensures Agree(log, out, c)
    ensures Agree(out, decided, if leaderCommit > c then Min(leaderCommit, |out|) else c)
    ensures leaderCommit > c ==> Min(leaderCommit, |out|) >= c
  {
  }

  lemma AcceptCertified(s: State, h: Past, i: NodeId, r: AppendRequest, s': State, h': Past)
    requires Accepts(s, h, i, r, s', h') && CommitOk(s, h, i) && Step(s, h, s', h', i)
    ensures Certified(s'.nodes.Keys, h', r.term, s'.nodes[i].commitIndex)
  {
    var n, n' := s.nodes[i], s'.nodes[i];
    CertifiedStep(s, h, s', h', i, r.term, r.term, n.commitIndex);
    CertifiedStep(s, h, s', h', i, r.term, r.term, r.leaderCommit);
    if r.leaderCommit > n.commitIndex {
      CertifiedBelow(s'.nodes.Keys, h', r.term, r.leaderCommit, n'.commitIndex);
    }
  }

  lemma AcceptedAgreesToCommit(s: State, h: Past, i: NodeId, r: AppendRequest, s': State, h': Past)
    requires ReignsOk(h) && LeadersComplete(s, h) && DecidedOk(s, h)
    requires Accepts(s, h, i, r, s', h') && NodeOk(s, h, i) && CommitOk(s, h, i)
    ensures Agree(h.decided, h.reigns[r.term].log, s.nodes[i].commitIndex)
    ensures Agree(s'.nodes[i].log, h.reigns[r.term].log, s.nodes[i].commitIndex)
  {
    var n := s.nodes[i];
    CertifiedInReign(s, h, r.term, n.commitIndex);
    AcceptedKeeps(h, n, r.term, r.prevIndex, |r.entries|, n.commitIndex);
  }

  /** No accepted AppendEntries cuts at or below the commit index, and the new commit index is decided. */
  lemma AcceptCommitOk(s: State, h: Past, i: NodeId, r: AppendRequest, s': State, h': Past)
    requires ReignsOk(h) && LeadersComplete(s, h) && DecidedOk(s, h)
    requires Accepts(s, h, i, r, s', h') && NodeOk(s, h, i) && CommitOk(s, h, i) && Step(s, h, s', h', i)
    requires s'.nodes[i].log <= h.reigns[r.term].log
    ensures CommitOk(s', h', i)
    ensures Agree(s.nodes[i].log, s'.nodes[i].log, s.nodes[i].commitIndex)
    ensures s.nodes[i].commitIndex <= s'.nodes[i].commitIndex
  {
    var n, n', g := s.nodes[i], s'.nodes[i], h.reigns[r.term].log;
    AcceptedAgreesToCommit(s, h, i, r, s', h');
    AcceptedCommit(n.log, n'.log, g, h.decided, n.commitIndex, r.leaderCommit);
    AcceptCertified(s, h, i, r, s', h');
  }

  lemma CertifiedBelow(members: set<NodeId>, h: Past, t: nat, c: nat, k: nat)
    requires Certified(members, h, t, c) && k <= c
    ensures Certified(members, h, t, k)
  {
  }

  lemma AcceptAcks(s: State, h: Past, i: NodeId, r: AppendRequest, s': State, h': Past)
    requires AcksOk(s, h) && Accepts(s, h, i, r, s', h') && Step(s, h, s', h', i)
    requires s'.nodes[i].log <= h.reigns[r.term].log && Ack(h', i, r.term) <= |s'.nodes[i].log|
    ensures AcksOk(s', h')
  {
    forall t ensures AckOk(s', h', i, t) {
      assert AckOk(s, h, i, t);
    }
    AcksStep(s, h, s', h', i);
  }

  lemma AcceptKeepsChoosable(s: State, h: Past, i: NodeId, r: AppendRequest, s': State, h': Past, t: nat, n: nat)
    requires ReignsOk(h) && NodesComplete(s, h) && LeadersComplete(s, h)
    requires Accepts(s, h, i, r, s', h') && NodeOk(s, h, i)
    requires Choosable(s, h, t, n) && Ack(h, i, t) >= n && t < r.term
    ensures Agree(h.reigns[t].log, s'.nodes[i].log, n)
  {
    var g := h.reigns[r.term].log;
    assert Agree(h.reigns[t].log, s.nodes[i].log, n) && Agree(h.reigns[t].log, g, n);
    AcceptedKeeps(h, s.nodes[i], r.term, r.prevIndex, |r.entries|, n);
  }

  lemma PrefixAgrees(out: Log, g: Log, n: nat)
    requires out <= g && n <= |out|
    ensures Agree(g, out, n)
  {
  }

  lemma AcceptKeepsAcked(s: State, h: Past, i: NodeId, r: AppendRequest, s': State, h': Past, t: nat, n: nat)
    requires ReignsOk(h) && AcksOk(s, h) && NodesComplete(s, h) && LeadersComplete(s, h)
    requires Accepts(s, h, i, r, s', h') && NodeOk(s, h, i) && Step(s, h, s', h', i)
    requires s'.nodes[i].log <= h.reigns[r.term].log && Ack(h', i, r.term) <= |s'.nodes[i].log|
    requires Choosable(s', h', t, n) && Ack(h', i, t) >= n
    ensures Agree(h'.reigns[t].log, s'.nodes[i].log, n)
  {
    if t == r.term {
      PrefixAgrees(s'.nodes[i].log, h.reigns[t].log, n);
    } else {
      assert AckOk(s, h, i, t);
      SupportShrinks(s, h, s', h', i, t, n);
      AcceptKeepsChoosable(s, h, i, r, s', h', t, n);
    }
  }

  lemma AcceptNodesComplete(s: State, h: Past, i: NodeId, r: AppendRequest, s': State, h': Past)
    requires ReignsOk(h) && AcksOk(s, h) && NodesComplete(s, h) && LeadersComplete(s, h)
    requires Accepts(s, h, i, r, s', h') && NodeOk(s, h, i) && Step(s, h, s', h', i)
    requires s'.nodes[i].log <= h.reigns[r.term].log && Ack(h', i, r.term) <= |s'.nodes[i].log|
    ensures NodesComplete(s', h')
  {
    forall t: nat, n: nat | Choosable(s', h', t, n) && Ack(h', i, t) >= n
      ensures Agree(h'.reigns[t].log, s'.nodes[i].log, n)
    {
      AcceptKeepsAcked(s, h, i, r, s', h', t, n);
    }
    NodesCompleteStep(s, h, s', h', i);
  }

  ghost predicate AcceptsWell(s: State, h: Past, i: NodeId, r: AppendRequest, s': State, h': Past)
  {
    && Accepts(s, h, i, r, s', h') && Step(s, h, s', h', i)
    && ActorOk(s', h', i) && CommitOk(s', h', i)
    && s'.nodes[i].log <= h.reigns[r.term].log && Ack(h', i, r.term) <= |s'.nodes[i].log|
  }

  lemma AcceptIsWell(s: State, h: Past, i: NodeId, r: AppendRequest, s': State, h': Past)
    requires ReignsOk(h) && LeadersComplete(s, h) && DecidedOk(s, h)
    requires Accepts(s, h, i, r, s', h') && ActorOk(s, h, i) && CommitOk(s, h, i) && AckOk(s, h, i, r.term)
    ensures AcceptsWell(s, h, i, r, s', h')
  {
    AcceptLog(s, h, i, r, s', h');
    AcceptStep(s, h, i, r, s', h');
    AcceptActor(s, h, i, r, s', h');
    AcceptCommitOk(s, h, i, r, s', h');
  }

  lemma AcceptInv(s: State, h: Past, i: NodeId, r: AppendRequest, s': State, h': Past)
    requires Inv(s, h) && AcceptsWell(s, h, i, r, s', h')
    ensures Inv(s', h')
  {
    ElectedStep(s, h, s', h', i);
    BallotsStep(s, h, s', h', i);
    NodesStep(s, h, s', h', i);
    CandidatesStep(s, h, s', h', i);
    LeadersStep(s, h, s', h', i);
    CommitsStep(s, h, s', h', i);
    AcceptAcks(s, h, i, r, s', h');
    NetStep(s, h, s', h', i);
    LeadersCompleteStep(s, h, s', h', i);
    BallotsCompleteStep(s, h, s', h', i);
    AcceptNodesComplete(s, h, i, r, s', h');
    DecidedStep(s, h, s', h', i);
  }

  lemma AcceptedReplyInv(s: State, h: Past, i: NodeId, r: AppendRequest, reply: AppendReply, s2: State, h': Past, s': State)
    requires Inv(s, h) && Accepts(s, h, i, r, s2, h') && reply.success && reply.term <= r.term
    requires s' == State(s2.nodes, s2.net + {AppendResp(i, r.leader, r.term, r.prevIndex, |r.entries|, reply)})
    ensures Inv(s', h')
  {
    assert AckOk(s, h, i, r.term);
    AcceptIsWell(s, h, i, r, s2, h');
    AcceptInv(s, h, i, r, s2, h');
    assert Elected(s2, h', r.term);
    assert AppendRespOk(s2, h', i, r.leader, r.term, r.prevIndex, |r.entries|, reply);
    SendInv(s2, h', s', i, AppendResp(i, r.leader, r.term, r.prevIndex, |r.entries|, reply));
  }

  ghost function WithAck(h: Past, i: NodeId, r: AppendRequest): Past
  {
    h.(acks := h.acks[(i, r.term) := Max(Ack(h, i, r.term), r.prevIndex + |r.entries|)])
  }

  /** Deciding on a request of the node's own term. */
  lemma DecideInv(s: State, h: Past, i: NodeId, r: AppendRequest, oldTerm: nat, s': State, h': Past)
    requires Inv(s, h) && AppendReqOk(s, h, i, r) && s.nodes[i].currentTerm == r.term && oldTerm <= r.term
    requires match Check(s.nodes[i].log, r.prevIndex, r.prevTerm)
             case Reject(ci, ct) =>
               && h' == h
               && s' == State(s.nodes, s.net + {AppendResp(i, r.leader, r.term, r.prevIndex, |r.entries|, AppendReply(oldTerm, false, ci, ct))})
             case Accept =>
               && h' == WithAck(h, i, r)
               && s' == State(s.nodes[i := AcceptAppend(s.nodes[i], r)],
                              s.net + {AppendResp(i, r.leader, r.term, r.prevIndex, |r.entries|, AppendReply(oldTerm, true, 0, 0))})
    ensures Inv(s', h')
  {
    match Check(s.nodes[i].log, r.prevIndex, r.prevTerm)
    case Reject(ci, ct) => RefusalInv(s, h, i, r, AppendReply(oldTerm, false, ci, ct), s');
    case Accept =>
      var s2 := State(s.nodes[i := AcceptAppend(s.nodes[i], r)], s.net);
      AcceptedReplyInv(s, h, i, r, AppendReply(oldTerm, true, 0, 0), s2, h', s');
  }

  /** The state after handling a request of a term at least the node's own, by way of the adopted term. */
  lemma HandleAppendSplits(s: State, i: NodeId, r: AppendRequest, s1: State)
    requires i in s.nodes && s.nodes[i].currentTerm <= r.term
    requires s1 == State(s.nodes[i := AdoptTerm(s.nodes[i], r.term)], s.net)
    ensures s1.nodes[i].currentTerm == r.term
    ensures var (n', reply) := HandleAppend(s.nodes[i], r);
            match Check(s1.nodes[i].log, r.prevIndex, r.prevTerm)
            case Reject(ci, ct) => s.nodes[i := n'] == s1.nodes && reply == AppendReply(s.nodes[i].currentTerm, false, ci, ct)
            case Accept => s.nodes[i := n'] == s1.nodes[i := AcceptAppend(s1.nodes[i], r)] && reply == AppendReply(s.nodes[i].currentTerm, true, 0, 0)
  {
  }

  lemma AppendReqInv(s: State, h: Past, i: NodeId, r: AppendRequest, s': State, h': Past)
    requires Inv(s, h) && AppendReq(i, r) in s.net && i in s.nodes
    requires var (n', reply) := HandleAppend(s.nodes[i], r);
             && s' == State(s.nodes[i := n'], s.net + {AppendResp(i, r.leader, r.term, r.prevIndex, |r.entries|, reply)})
             && h' == if reply.success then WithAck(h, i, r) else h
    ensures Inv(s', h')
  {
    var n := s.nodes[i];
    assert MsgOk(s, h, AppendReq(i, r));
    if r.term < n.currentTerm {
      RewriteSame(s, i);
      RefusalInv(s, h, i, r, AppendReply(n.currentTerm, false, 0, 0), s');
    } else {
      var s1 := State(s.nodes[i := AdoptTerm(n, r.term)], s.net);
      AdoptInv(s, h, i, r.term, s1);
      assert MsgOk(s1, h, AppendReq(i, r));
      HandleAppendSplits(s, i, r, s1);
      DecideInv(s1, h, i, r, n.currentTerm, s', h');
    }
  }
}
