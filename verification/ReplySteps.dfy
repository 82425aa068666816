/** A leader handling the reply to AppendEntries, and advancing its commit index. */
module ReplySteps {
  import opened Types
  import opened Logs
  import opened Backtracking
  import opened NodeSpec
  import opened Cluster
  import opened History
  import opened Invariants
  import opened Stability
  import opened CalmSteps
  import opened LeaderSteps
  import opened FollowerSteps

  // ----- the peer tables -----

  /** Only the entries of peer `j` change in the leader's tables. */
  ghost predicate TablesMove(s: State, i: NodeId, j: NodeId, s': State)
  {
    && i in s.nodes && j in s.nodes && i != j && s'.net == s.net && s'.nodes.Keys == s.nodes.Keys
    && (forall k :: k in s.nodes && k != i ==> s'.nodes[k] == s.nodes[k])
    && var n, n' := s.nodes[i], s'.nodes[i];
       && n' == n.(nextIndex := n'.nextIndex, matchIndex := n'.matchIndex)
       && n'.matchIndex.Keys <= n.matchIndex.Keys + {j}
       && (forall p :: p in n.nextIndex && p != j ==> p in n'.nextIndex && n'.nextIndex[p] == n.nextIndex[p])
       && (forall p :: p in n.matchIndex && p != j ==> p in n'.matchIndex && n'.matchIndex[p] == n.matchIndex[p])
  }

  lemma TablesActor(s: State, h: Past, i: NodeId, j: NodeId, s': State)
    requires TablesMove(s, i, j, s') && ActorOk(s, h, i) && s.nodes[i].role == Leader
    requires s'.nodes[i].currentTerm in h.reigns && PeerOk(s', h, i, j)
    ensures ActorOk(s', h, i)
  {
  }

  lemma TablesInv(s: State, h: Past, i: NodeId, j: NodeId, s': State)
    requires Inv(s, h) && TablesMove(s, i, j, s') && s.nodes[i].role == Leader
    requires s'.nodes[i].currentTerm in h.reigns && PeerOk(s', h, i, j)
    ensures Inv(s', h)
  {
    TablesActor(s, h, i, j, s');
    assert CommitOk(s, h, i);
    SameInv(s, h, s', i);
  }

  lemma SuccessPeerOk(s: State, h: Past, i: NodeId, j: NodeId, m: nat, s': State)
    requires i in s.nodes && j in s.nodes && i != j && LeaderOk(s, h, i) && s.nodes[i].role == Leader
    requires AckOk(s, h, j, s.nodes[i].currentTerm) && 1 <= m <= Ack(h, j, s.nodes[i].currentTerm)
    requires var n := s.nodes[i];
             s' == State(s.nodes[i := n.(matchIndex := n.matchIndex[j := m], nextIndex := n.nextIndex[j := m + 1])], s.net)
    ensures TablesMove(s, i, j, s') && PeerOk(s', h, i, j)
  {
  }

  // ----- committing -----

  lemma MatchedHold(s: State, h: Past, i: NodeId, k: nat)
    requires i in s.nodes && NodeOk(s, h, i) && LeaderOk(s, h, i) && s.nodes[i].role == Leader
    requires k <= |s.nodes[i].log|
    ensures MatchedPeers(s.nodes[i].matchIndex, k) + {i} <= Holders(s.nodes.Keys, h, s.nodes[i].currentTerm, k)
    ensures i !in MatchedPeers(s.nodes[i].matchIndex, k)
  {
  }

  lemma PlusOne(a: set<NodeId>, i: NodeId)
    requires i !in a
    ensures |a + {i}| == |a| + 1
  {
  }

  /** The commit rule counts a real majority of acknowledgements. */
  lemma MayCommitIsCommitted(s: State, h: Past, i: NodeId, k: nat)
    requires ReignsOk(h) && i in s.nodes && NodeOk(s, h, i) && LeaderOk(s, h, i) && s.nodes[i].role == Leader
    requires 1 <= k <= |s.nodes[i].log| && MayCommit(s.nodes[i], k, Quorum(s, i))
    ensures Committed(s.nodes.Keys, h, s.nodes[i].currentTerm, k)
  {
    var n := s.nodes[i];
    var q := MatchedPeers(n.matchIndex, k);
    MatchedHold(s, h, i, k);
    PlusOne(q, i);
    QuorumIsMajority(s, i, q + {i});
    LargerMajority(s.nodes.Keys, q + {i}, Holders(s.nodes.Keys, h, n.currentTerm, k));
    assert ReignShape(n.currentTerm, h.reigns[n.currentTerm]);
  }

  /** The leader's commit index moves to `c`, which a majority has acknowledged. */
  ghost predicate Commits(s: State, h: Past, i: NodeId, c: nat, s': State, h': Past)
  {
    && i in s.nodes && s.nodes[i].role == Leader && s.nodes[i].commitIndex < c <= |s.nodes[i].log|
    && Committed(s.nodes.Keys, h, s.nodes[i].currentTerm, c)
    && s' == State(s.nodes[i := s.nodes[i].(commitIndex := c)], s.net)
    && h' == (if |h.decided| < c then h.(decided := s.nodes[i].log[..c], decidedTerm := s.nodes[i].currentTerm) else h)
  }

  lemma CommitAgreesWithDecided(s: State, h: Past, i: NodeId, c: nat, s': State, h': Past)
    requires LeadersComplete(s, h) && DecidedOk(s, h) && Commits(s, h, i, c, s', h') && LeaderOk(s, h, i)
    ensures h.decided <= h'.decided && Agree(s.nodes[i].log, h'.decided, c)
  {
    var n := s.nodes[i];
    var k := Min(c, |h.decided|);
    if h.decided != [] {
      CommitmentsAgree(s, h, n.currentTerm, c, h.decidedTerm, |h.decided|, k);
      assert h.decided[..k] == h.reigns[h.decidedTerm].log[..|h.decided|][..k];
    }
    if |h.decided| < c {
      assert h'.decided[..k] == n.log[..k];
      assert h.decided[..k] == h.decided;
      assert h'.decided[..c] == h'.decided;
    }
  }

  lemma CommitStep(s: State, h: Past, i: NodeId, c: nat, s': State, h': Past)
    requires ReignsOk(h) && Commits(s, h, i, c, s', h') && h.decided <= h'.decided
    ensures Step(s, h, s', h', i)
  {
    assert Extends(h, h');
    assert ReignsOk(h') by {
      forall u | u in h'.reigns ensures ReignShape(u, h'.reigns[u]) && LogOk(h', h'.reigns[u].log) {
        LogOkExtends(h, h', h.reigns[u].log);
      }
    }
  }

  lemma CommitLeader(s: State, h: Past, i: NodeId, c: nat, s': State, h': Past)
    requires ReignsOk(h) && NodesOk(s, h) && Commits(s, h, i, c, s', h') && LeaderOk(s, h, i) && Step(s, h, s', h', i)
    ensures LeaderOk(s', h', i)
  {
    forall j | j in s'.nodes && j != i ensures PeerOk(s', h', i, j) {
      assert PeerOk(s, h, i, j) && NodeOk(s, h, j);
      PeerStep(s, h, s', h', i, i, j);
    }
  }

  lemma CommitActor(s: State, h: Past, i: NodeId, c: nat, s': State, h': Past)
    requires ReignsOk(h) && NodesOk(s, h) && Commits(s, h, i, c, s', h') && ActorOk(s, h, i) && Step(s, h, s', h', i)
    ensures ActorOk(s', h', i)
  {
    LogOkExtends(h, h', s.nodes[i].log);
    CommitLeader(s, h, i, c, s', h');
  }

  lemma CommitCommitOk(s: State, h: Past, i: NodeId, c: nat, s': State, h': Past)
    requires Commits(s, h, i, c, s', h') && CommitOk(s, h, i) && Step(s, h, s', h', i)
    requires Agree(s.nodes[i].log, h'.decided, c)
    ensures CommitOk(s', h', i)
  {
    var n := s.nodes[i];
    CommittedStep(s, h, s', h', i, n.currentTerm, c);
    assert n.currentTerm <= n.currentTerm && c <= c && Committed(s'.nodes.Keys, h', n.currentTerm, c);
    assert h'.decided[..n.lastApplied] == h'.decided[..|h.decided|][..n.lastApplied];
  }

  lemma CommitDecidedOk(s: State, h: Past, i: NodeId, c: nat, s': State, h': Past)
    requires DecidedOk(s, h) && Commits(s, h, i, c, s', h') && LeaderOk(s, h, i) && Step(s, h, s', h', i)
    ensures DecidedOk(s', h')
  {
    if |h.decided| < c {
      CommittedStep(s, h, s', h', i, s.nodes[i].currentTerm, c);
    } else {
      DecidedStep(s, h, s', h', i);
    }
  }

  lemma CommitAcks(s: State, h: Past, i: NodeId, c: nat, s': State, h': Past)
    requires AcksOk(s, h) && Commits(s, h, i, c, s', h') && Step(s, h, s', h', i)
    ensures AcksOk(s', h')
  {
    forall t ensures AckOk(s', h', i, t) {
      assert AckOk(s, h, i, t);
    }
    AcksStep(s, h, s', h', i);
  }

  lemma CommitNodesComplete(s: State, h: Past, i: NodeId, c: nat, s': State, h': Past)
    requires AcksOk(s, h) && NodesComplete(s, h) && Commits(s, h, i, c, s', h') && Step(s, h, s', h', i)
    ensures NodesComplete(s', h')
  {
    forall t: nat, n: nat | Choosable(s', h', t, n) && Ack(h', i, t) >= n
      ensures Agree(h'.reigns[t].log, s'.nodes[i].log, n)
    {
      SupportShrinks(s, h, s', h', i, t, n);
    }
    NodesCompleteStep(s, h, s', h', i);
  }

  ghost predicate CommitsWell(s: State, h: Past, i: NodeId, c: nat, s': State, h': Past)
  {
    && Commits(s, h, i, c, s', h') && Step(s, h, s', h', i)
    && ActorOk(s', h', i) && CommitOk(s', h', i) && DecidedOk(s', h')
  }

  lemma CommitIsWell(s: State, h: Past, i: NodeId, c: nat, s': State, h': Past)
    requires ReignsOk(h) && NodesOk(s, h) && LeadersComplete(s, h) && DecidedOk(s, h)
    requires Commits(s, h, i, c, s', h') && ActorOk(s, h, i) && CommitOk(s, h, i)
    ensures CommitsWell(s, h, i, c, s', h')
  {
    CommitAgreesWithDecided(s, h, i, c, s', h');
    CommitStep(s, h, i, c, s', h');
    CommitActor(s, h, i, c, s', h');
    CommitCommitOk(s, h, i, c, s', h');
    CommitDecidedOk(s, h, i, c, s', h');
  }

  lemma CommitInv(s: State, h: Past, i: NodeId, c: nat, s': State, h': Past)
    requires Inv(s, h) && CommitsWell(s, h, i, c, s', h')
    ensures Inv(s', h')
  {
    ElectedStep(s, h, s', h', i);
    BallotsStep(s, h, s', h', i);
    NodesStep(s, h, s', h', i);
    CandidatesStep(s, h, s', h', i);
    LeadersStep(s, h, s', h', i);
    CommitsStep(s, h, s', h', i);
    CommitAcks(s, h, i, c, s', h');
    NetStep(s, h, s', h', i);
    LeadersCompleteStep(s, h, s', h', i);
    BallotsCompleteStep(s, h, s', h', i);
    CommitNodesComplete(s, h, i, c, s', h');
  }

  ghost function WithDecision(h: Past, n: Node): Past
  {
    if |h.decided| < n.commitIndex <= |n.log| then h.(decided := n.log[..n.commitIndex], decidedTerm := n.currentTerm) else h
  }

  lemma AdvanceCommits(s: State, h: Past, i: NodeId, c: nat, s': State, h': Past)
    requires ReignsOk(h) && i in s.nodes && NodeOk(s, h, i) && LeaderOk(s, h, i) && CommitOk(s, h, i)
    requires s.nodes[i].role == Leader && c == CommitSearch(s.nodes[i], |s.nodes[i].log|, Quorum(s, i))
    requires s' == State(s.nodes[i := AdvanceCommit(s.nodes[i], Quorum(s, i))], s.net)
    requires h' == WithDecision(h, s'.nodes[i])
    ensures if c == s.nodes[i].commitIndex then s' == s && h' == h else Commits(s, h, i, c, s', h')
  {
    CommitSearchFinds(s.nodes[i], |s.nodes[i].log|, Quorum(s, i));
    if c == s.nodes[i].commitIndex {
      RewriteSame(s, i);
    } else {
      MayCommitIsCommitted(s, h, i, c);
    }
  }

  lemma AdvanceInv(s: State, h: Past, i: NodeId, s': State, h': Past)
    requires Inv(s, h) && i in s.nodes && s.nodes[i].role == Leader
    requires s' == State(s.nodes[i := AdvanceCommit(s.nodes[i], Quorum(s, i))], s.net)
    requires h' == WithDecision(h, s'.nodes[i])
    ensures Inv(s', h') && h.decided <= h'.decided && s.nodes[i].commitIndex <= s'.nodes[i].commitIndex
  {
    var c := CommitSearch(s.nodes[i], |s.nodes[i].log|, Quorum(s, i));
    AdvanceCommits(s, h, i, c, s', h');
    if c != s.nodes[i].commitIndex {
      CommitIsWell(s, h, i, c, s', h');
      CommitInv(s, h, i, c, s', h');
    }
  }

  // ----- the reply -----

  lemma SuccessTables(s: State, h: Past, i: NodeId, j: NodeId, m: nat, s1: State)
    requires Inv(s, h) && i in s.nodes && j in s.nodes && i != j && s.nodes[i].role == Leader
    requires 1 <= m <= Ack(h, j, s.nodes[i].currentTerm)
    requires var n := s.nodes[i];
             s1 == State(s.nodes[i := n.(matchIndex := n.matchIndex[j := m], nextIndex := n.nextIndex[j := m + 1])], s.net)
    ensures Inv(s1, h)
  {
    assert LeaderOk(s, h, i) && AckOk(s, h, j, s.nodes[i].currentTerm);
    SuccessPeerOk(s, h, i, j, m, s1);
    TablesInv(s, h, i, j, s1);
  }

  lemma RewriteTwice(s: State, i: NodeId, n1: Node, n2: Node)
    requires i in s.nodes
    ensures var s1 := State(s.nodes[i := n1], s.net);
            Quorum(s1, i) == Quorum(s, i) && State(s.nodes[i := n2], s.net) == State(s1.nodes[i := n2], s1.net)
  {
  }

  lemma SuccessInv(s: State, h: Past, i: NodeId, j: NodeId, m: nat, s': State, h': Past)
    requires Inv(s, h) && i in s.nodes && j in s.nodes && i != j && s.nodes[i].role == Leader
    requires 1 <= m <= Ack(h, j, s.nodes[i].currentTerm)
    requires var n := s.nodes[i];
             s' == State(s.nodes[i := AdvanceCommit(n.(matchIndex := n.matchIndex[j := m], nextIndex := n.nextIndex[j := m + 1]), Quorum(s, i))], s.net)
    requires h' == WithDecision(h, s'.nodes[i])
    ensures Inv(s', h') && h.decided <= h'.decided && s.nodes[i].commitIndex <= s'.nodes[i].commitIndex
  {
    var n := s.nodes[i];
    var n1 := n.(matchIndex := n.matchIndex[j := m], nextIndex := n.nextIndex[j := m + 1]);
    var s1 := State(s.nodes[i := n1], s.net);
    SuccessTables(s, h, i, j, m, s1);
    RewriteTwice(s, i, n1, AdvanceCommit(n1, Quorum(s, i)));
    AdvanceInv(s1, h, i, s', h');
  }

  lemma BackUpPeerOk(s: State, h: Past, i: NodeId, j: NodeId, next: nat, s': State)
    requires i in s.nodes && j in s.nodes && i != j && s.nodes[i].role == Leader && LeaderOk(s, h, i)
    requires 1 <= next <= |s.nodes[i].log| + 1
    requires MayProbe(s.nodes[j], s.nodes[i].currentTerm, h.reigns[s.nodes[i].currentTerm], next - 1)
    requires s' == State(s.nodes[i := s.nodes[i].(nextIndex := s.nodes[i].nextIndex[j := next])], s.net)
    ensures TablesMove(s, i, j, s') && PeerOk(s', h, i, j)
  {
  }

  lemma BackUpInv(s: State, h: Past, i: NodeId, j: NodeId, next: nat, s': State)
    requires Inv(s, h) && i in s.nodes && j in s.nodes && i != j && s.nodes[i].role == Leader && LeaderOk(s, h, i)
    requires 1 <= next <= |s.nodes[i].log| + 1
    requires MayProbe(s.nodes[j], s.nodes[i].currentTerm, h.reigns[s.nodes[i].currentTerm], next - 1)
    requires s' == State(s.nodes[i := s.nodes[i].(nextIndex := s.nodes[i].nextIndex[j := next])], s.net)
    ensures Inv(s', h)
  {
    BackUpPeerOk(s, h, i, j, next, s');
    TablesInv(s, h, i, j, s');
  }

  lemma NothingDecided(s: State, h: Past, i: NodeId, n': Node)
    requires i in s.nodes && CommitOk(s, h, i) && n'.commitIndex == s.nodes[i].commitIndex
    ensures WithDecision(h, n') == h
  {
  }

  lemma SuccessBounds(s: State, h: Past, i: NodeId, j: NodeId, prev: nat, count: nat, a: AppendReply)
    requires i in s.nodes && s.nodes[i].role == Leader && LeaderOk(s, h, i)
    requires AppendRespOk(s, h, j, i, s.nodes[i].currentTerm, prev, count, a) && a.success
    ensures 1 <= Max(MatchOf(s.nodes[i], j), prev + count) <= Ack(h, j, s.nodes[i].currentTerm)
  {
  }

  lemma HandleReplySuccess(n: Node, j: NodeId, prev: nat, count: nat, a: AppendReply, q: nat, m: nat, n1: Node)
    requires n.role == Leader && a.term == n.currentTerm && a.success && m == Max(MatchOf(n, j), prev + count)
    requires n1 == n.(matchIndex := n.matchIndex[j := m], nextIndex := n.nextIndex[j := m + 1])
    ensures HandleReply(n, j, prev, count, a, q) == AdvanceCommit(n1, q)
  {
  }

  lemma OwnSuccessInv(s: State, h: Past, i: NodeId, j: NodeId, prev: nat, count: nat, a: AppendReply, n': Node, s': State)
    requires Inv(s, h) && i in s.nodes && j in s.nodes && i != j
    requires s.nodes[i].role == Leader && a.success && a.term == s.nodes[i].currentTerm
    requires 1 <= Max(MatchOf(s.nodes[i], j), prev + count) <= Ack(h, j, s.nodes[i].currentTerm)
    requires n' == HandleReply(s.nodes[i], j, prev, count, a, Quorum(s, i))
    requires s' == State(s.nodes[i := n'], s.net)
    ensures Inv(s', WithDecision(h, n')) && h.decided <= WithDecision(h, n').decided && s.nodes[i].commitIndex <= n'.commitIndex
  {
    var n, m := s.nodes[i], Max(MatchOf(s.nodes[i], j), prev + count);
    var n1 := n.(matchIndex := n.matchIndex[j := m], nextIndex := n.nextIndex[j := m + 1]);
    HandleReplySuccess(n, j, prev, count, a, Quorum(s, i), m, n1);
    assert s'.nodes[i] == n';
    SuccessInv(s, h, i, j, m, s', WithDecision(h, n'));
  }

  lemma OwnFailureInv(s: State, h: Past, i: NodeId, j: NodeId, prev: nat, count: nat, a: AppendReply, s': State, h': Past)
    requires Inv(s, h) && i in s.nodes && s.nodes[i].role == Leader && !a.success
    requires AppendRespOk(s, h, j, i, s.nodes[i].currentTerm, prev, count, a) && a.term == s.nodes[i].currentTerm
    requires s' == State(s.nodes[i := HandleReply(s.nodes[i], j, prev, count, a, Quorum(s, i))], s.net)
    requires h' == WithDecision(h, s'.nodes[i])
    ensures Inv(s', h')
  {
    assert LeaderOk(s, h, i) && CommitOk(s, h, i);
    NothingDecided(s, h, i, s'.nodes[i]);
    BackUpInv(s, h, i, j, BackUp(s.nodes[i].log, a.conflictIndex, a.conflictTerm), s');
  }

  lemma AppendRespInv(s: State, h: Past, i: NodeId, j: NodeId, t: nat, prev: nat, count: nat, a: AppendReply, s': State, h': Past)
    requires Inv(s, h) && AppendRespOk(s, h, j, i, t, prev, count, a)
    requires s.nodes[i].role == Leader && a.term == s.nodes[i].currentTerm ==> t == s.nodes[i].currentTerm
    requires s' == State(s.nodes[i := HandleReply(s.nodes[i], j, prev, count, a, Quorum(s, i))], s.net)
    requires h' == WithDecision(h, s'.nodes[i])
    ensures Inv(s', h') && h.decided <= h'.decided && s.nodes[i].commitIndex <= s'.nodes[i].commitIndex
  {
    var n := s.nodes[i];
    if a.term > n.currentTerm {
      NothingDecided(s, h, i, s'.nodes[i]);
      StepDown(s, h, s', i, a.term);
    } else if n.role != Leader || a.term != n.currentTerm {
      NothingDecided(s, h, i, n);
      RewriteSame(s, i);
    } else if a.success {
      SuccessBounds(s, h, i, j, prev, count, a);
      OwnSuccessInv(s, h, i, j, prev, count, a, s'.nodes[i], s');
    } else {
      OwnFailureInv(s, h, i, j, prev, count, a, s', h');
    }
  }
}
