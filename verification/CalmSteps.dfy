/** Actions that leave every log as it is: elections, votes, sending, applying and restarting. */
module CalmSteps {
  import opened Types
  import opened Logs
  import opened WalRecords
  import opened NodeSpec
  import opened Cluster
  import opened History
  import opened Invariants
  import opened Stability

  /** An action of `i` that changes no log, elects no leader and decides nothing. */
  ghost predicate Calm(s: State, h: Past, s': State, h': Past, i: NodeId)
  {
    && Step(s, h, s', h', i)
    && h'.reigns == h.reigns && h'.acks == h.acks && h'.decided == h.decided && h'.decidedTerm == h.decidedTerm
    && s'.nodes[i].log == s.nodes[i].log
    && (forall v, t :: (v, t) in h'.ballots && (v, t) !in h.ballots ==> v == i && h'.ballots[(v, t)].log == s.nodes[i].log)
  }

  ghost predicate ActorOk(s: State, h: Past, i: NodeId)
    requires i in s.nodes
  {
    NodeOk(s, h, i) && CandidateOk(s, h, i) && LeaderOk(s, h, i)
  }

  lemma CalmCompleteness(s: State, h: Past, s': State, h': Past, i: NodeId)
    requires Inv(s, h) && Calm(s, h, s', h', i)
    ensures LeadersComplete(s', h') && BallotsComplete(s', h') && NodesComplete(s', h') && DecidedOk(s', h')
  {
    assert forall v, t :: Ack(h', v, t) == Ack(h, v, t);
    LeadersCompleteStep(s, h, s', h', i);
    BallotsCompleteStep(s, h, s', h', i);
    forall t: nat, n: nat | Choosable(s', h', t, n) && Ack(h', i, t) >= n
      ensures Agree(h'.reigns[t].log, s'.nodes[i].log, n)
    {
      SupportShrinks(s, h, s', h', i, t, n);
    }
    NodesCompleteStep(s, h, s', h', i);
    DecidedStep(s, h, s', h', i);
  }

  lemma CalmAcks(s: State, h: Past, s': State, h': Past, i: NodeId)
    requires AcksOk(s, h) && Calm(s, h, s', h', i)
    ensures AcksOk(s', h')
  {
    forall t ensures AckOk(s', h', i, t) {
      assert AckOk(s, h, i, t);
    }
    AcksStep(s, h, s', h', i);
  }

  lemma CalmInv(s: State, h: Past, s': State, h': Past, i: NodeId)
    requires Inv(s, h) && Calm(s, h, s', h', i)
    requires forall v, t :: (v, t) in h'.ballots && (v, t) !in h.ballots ==> BallotOk(s', h', v, t)
    requires ActorOk(s', h', i) && (CommitKept(s.nodes[i], s'.nodes[i]) || CommitOk(s', h', i))
    requires forall m :: m in s'.net && m !in s.net ==> MsgOk(s', h', m)
    ensures Inv(s', h')
  {
    ElectedStep(s, h, s', h', i);
    BallotsStep(s, h, s', h', i);
    NodesStep(s, h, s', h', i);
    CandidatesStep(s, h, s', h', i);
    LeadersStep(s, h, s', h', i);
    CommitsStep(s, h, s', h', i);
    CalmAcks(s, h, s', h', i);
    NetStep(s, h, s', h', i);
    CalmCompleteness(s, h, s', h', i);
  }

  /** The same for an action that leaves the past as it is. */
  ghost predicate Same(s: State, s': State, i: NodeId)
  {
    && i in s.nodes && s'.nodes.Keys == s.nodes.Keys && s.net <= s'.net
    && (forall j :: j in s.nodes && j != i ==> s'.nodes[j] == s.nodes[j])
    && s.nodes[i].currentTerm <= s'.nodes[i].currentTerm && s'.nodes[i].log == s.nodes[i].log
  }

  lemma SameIsCalm(s: State, h: Past, s': State, i: NodeId)
    requires Same(s, s', i) && ReignsOk(h)
    ensures Calm(s, h, s', h, i)
  {
  }

  lemma SameInv(s: State, h: Past, s': State, i: NodeId)
    requires Inv(s, h) && Same(s, s', i) && ActorOk(s', h, i)
    requires CommitKept(s.nodes[i], s'.nodes[i]) || CommitOk(s', h, i)
    requires forall m :: m in s'.net && m !in s.net ==> MsgOk(s', h, m)
    ensures Inv(s', h)
  {
    SameIsCalm(s, h, s', i);
    CalmInv(s, h, s', h, i);
  }

  /** The acting node keeps what the invariant asks of it, its log and its commits. */
  ghost predicate SameWell(s: State, h: Past, s': State, i: NodeId)
  {
    Same(s, s', i) && ActorOk(s', h, i) && CommitKept(s.nodes[i], s'.nodes[i])
  }

  lemma QuietInv(s: State, h: Past, s': State, i: NodeId)
    requires Inv(s, h) && SameWell(s, h, s', i) && s'.net == s.net
    ensures Inv(s', h)
  {
    SameInv(s, h, s', i);
  }

  /** What the invariant says of one node. */
  lemma ActorParts(s: State, h: Past, i: NodeId)
    requires NodesOk(s, h) && CandidatesOk(s, h) && LeadersOk(s, h) && CommitsOk(s, h) && i in s.nodes
    ensures ActorOk(s, h, i) && CommitOk(s, h, i)
  {
  }

  // ----- shared pieces -----

  /** A leader whose term, log and peer tables are unchanged stays in order. */
  lemma LeaderStays(s: State, h: Past, s': State, i: NodeId)
    requires ReignsOk(h) && NodesOk(s, h) && Same(s, s', i) && LeaderOk(s, h, i)
    requires var n, n' := s.nodes[i], s'.nodes[i];
             n'.role == n.role && n'.currentTerm == n.currentTerm && n'.nextIndex == n.nextIndex && n'.matchIndex == n.matchIndex
    ensures LeaderOk(s', h, i)
  {
    SameIsCalm(s, h, s', i);
    if s.nodes[i].role == Leader {
      forall j | j in s'.nodes && j != i ensures PeerOk(s', h, i, j) {
        assert NodeOk(s, h, j);
        PeerStep(s, h, s', h, i, i, j);
      }
    }
  }

  lemma HardStateWritten(n: Node, t: nat, v: Option<NodeId>)
    ensures var w := Recover(n.wal + [HardRec(t, v)]);
            w.term == t && w.votedFor == v && w.snapshotIndex == Recover(n.wal).snapshotIndex
  {
  }

  lemma NoBallotAhead(s: State, h: Past, i: NodeId, t: nat)
    requires BallotsOk(s, h) && i in s.nodes && t > s.nodes[i].currentTerm
    ensures (i, t) !in h.ballots
  {
  }

  /** Moving to a later term as a follower, nothing else changing. */
  lemma FollowerOk(s: State, h: Past, s': State, i: NodeId, t: nat)
    requires BallotsOk(s, h) && i in s.nodes && NodeOk(s, h, i)
    requires s'.nodes.Keys == s.nodes.Keys && t > s.nodes[i].currentTerm
    requires s'.nodes[i] == BecomeFollower(s.nodes[i], t)
    ensures ActorOk(s', h, i)
  {
  }

  lemma FollowerIsWell(s: State, h: Past, s': State, i: NodeId, t: nat)
    requires BallotsOk(s, h) && i in s.nodes && NodeOk(s, h, i) && CommitOk(s, h, i) && t > s.nodes[i].currentTerm
    requires s' == State(s.nodes[i := BecomeFollower(s.nodes[i], t)], s.net)
    ensures SameWell(s, h, s', i)
  {
    FollowerOk(s, h, s', i, t);
  }

  /** An action that only moves its node to a later term. */
  lemma StepDown(s: State, h: Past, s': State, i: NodeId, t: nat)
    requires Inv(s, h) && i in s.nodes && t > s.nodes[i].currentTerm
    requires s' == State(s.nodes[i := BecomeFollower(s.nodes[i], t)], s.net)
    ensures Inv(s', h)
  {
    ActorParts(s, h, i);
    FollowerIsWell(s, h, s', i, t);
    QuietInv(s, h, s', i);
  }

  lemma RewriteSame(s: State, i: NodeId)
    requires i in s.nodes
    ensures State(s.nodes[i := s.nodes[i]], s.net) == s
  {
  }

  /** The state between adopting a request's term and deciding on it. */
  lemma AdoptInv(s: State, h: Past, i: NodeId, t: nat, s1: State)
    requires Inv(s, h) && i in s.nodes && s1 == State(s.nodes[i := AdoptTerm(s.nodes[i], t)], s.net)
    ensures Inv(s1, h)
  {
    if t > s.nodes[i].currentTerm {
      StepDown(s, h, s1, i, t);
    } else {
      RewriteSame(s, i);
    }
  }

  lemma UnchangedIsWell(s: State, h: Past, s': State, i: NodeId)
    requires ReignsOk(h) && NodesOk(s, h) && i in s.nodes && s'.nodes == s.nodes && s.net <= s'.net
    requires CandidateOk(s, h, i) && LeaderOk(s, h, i) && CommitOk(s, h, i)
    ensures SameWell(s, h, s', i)
  {
    assert NodeOk(s, h, i);
    LeaderStays(s, h, s', i);
  }

  lemma OneSent(s: State, h: Past, s': State, m: Message)
    requires s'.net == s.net + {m} && MsgOk(s', h, m)
    ensures forall k :: k in s'.net && k !in s.net ==> MsgOk(s', h, k)
  {
  }

  lemma SendInv(s: State, h: Past, s': State, i: NodeId, m: Message)
    requires Inv(s, h) && i in s.nodes && s' == State(s.nodes, s.net + {m})
    requires MsgOk(s', h, m)
    ensures Inv(s', h)
  {
    ActorParts(s, h, i);
    UnchangedIsWell(s, h, s', i);
    OneSent(s, h, s', m);
    SameInv(s, h, s', i);
  }

  // ----- starting an election -----

  lemma ElectBallot(s: State, h: Past, i: NodeId, s': State, h': Past)
    requires ReignsOk(h) && BallotsOk(s, h) && i in s.nodes && NodeOk(s, h, i)
    requires s'.nodes == s.nodes[i := StartElection(s.nodes[i], i)] && s.net <= s'.net
    requires h' == h.(ballots := h.ballots[(i, s.nodes[i].currentTerm + 1) := Ballot(i, s.nodes[i].log)])
    ensures Calm(s, h, s', h', i)
    ensures BallotOk(s', h', i, s.nodes[i].currentTerm + 1)
  {
    var t := s.nodes[i].currentTerm + 1;
    NoBallotAhead(s, h, i, t);
    assert Extends(h, h');
    assert ReignsOk(h') by {
      forall u | u in h'.reigns ensures LogOk(h', h'.reigns[u].log) { LogOkExtends(h, h', h.reigns[u].log); }
    }
    LogOkExtends(h, h', s.nodes[i].log);
    assert Voted(h', i, t, i);
  }

  lemma ElectActor(s: State, h: Past, i: NodeId, s': State, h': Past)
    requires ElectedOk(s, h) && BallotsOk(s, h) && i in s.nodes && NodeOk(s, h, i)
    requires s'.nodes == s.nodes[i := StartElection(s.nodes[i], i)]
    requires h' == h.(ballots := h.ballots[(i, s.nodes[i].currentTerm + 1) := Ballot(i, s.nodes[i].log)])
    ensures ActorOk(s', h', i)
  {
    var t := s.nodes[i].currentTerm + 1;
    NoBallotAhead(s, h, i, t);
    HardStateWritten(s.nodes[i], t, Some(i));
    assert Extends(h, h');
    LogOkExtends(h, h', s.nodes[i].log);
    assert Voted(h', i, t, i);
    assert t in h.reigns ==> Elected(s, h, t);
  }

  lemma ElectInv(s: State, h: Past, i: NodeId, s': State, h': Past)
    requires Inv(s, h) && i in s.nodes
    requires s'.nodes == s.nodes[i := StartElection(s.nodes[i], i)]
    requires s'.net == s.net + set j | j in Peers(s, i) :: VoteReq(j, MakeVoteRequest(StartElection(s.nodes[i], i), i))
    requires h' == h.(ballots := h.ballots[(i, s.nodes[i].currentTerm + 1) := Ballot(i, s.nodes[i].log)])
    ensures Inv(s', h')
  {
    ElectBallot(s, h, i, s', h');
    ElectActor(s, h, i, s', h');
    forall m | m in s'.net && m !in s.net ensures MsgOk(s', h', m) {
      assert Voted(h', i, s.nodes[i].currentTerm + 1, i);
    }
    CalmInv(s, h, s', h', i);
  }

  // ----- handling a vote request -----

  /** Nobody who has entered its name in a term, as candidate or leader, grants another node's request of that term. */
  lemma CommittedVoteStands(s: State, h: Past, i: NodeId, r: VoteRequest)
    requires ElectedOk(s, h) && i in s.nodes && ActorOk(s, h, i)
    requires r.candidate != i && s.nodes[i].role != Follower
    ensures !Grants(s.nodes[i], r)
  {
  }

  function Granted(n: Node, cand: NodeId): Node
  {
    n.(votedFor := Some(cand), wal := n.wal + [HardRec(n.currentTerm, Some(cand))])
  }

  ghost function WithBallot(h: Past, i: NodeId, t: nat, cand: NodeId, log: Log): Past
  {
    if (i, t) in h.ballots then h else h.(ballots := h.ballots[(i, t) := Ballot(cand, log)])
  }

  lemma WithBallotExtends(h: Past, i: NodeId, t: nat, cand: NodeId, log: Log)
    requires ReignsOk(h)
    ensures var h' := WithBallot(h, i, t, cand, log); Extends(h, h') && ReignsOk(h') && BallotsGrow(h, h')
  {
    var h' := WithBallot(h, i, t, cand, log);
    assert Extends(h, h');
    forall u | u in h'.reigns ensures LogOk(h', h'.reigns[u].log) { LogOkExtends(h, h', h.reigns[u].log); }
  }

  lemma GrantActor(s: State, h: Past, i: NodeId, r: VoteRequest, s': State, h': Past)
    requires ReignsOk(h) && ElectedOk(s, h) && VoteReqOk(s, h, i, r) && ActorOk(s, h, i)
    requires s.nodes[i].currentTerm == r.term && Grants(s.nodes[i], r)
    requires s'.nodes == s.nodes[i := Granted(s.nodes[i], r.candidate)]
    requires h' == WithBallot(h, i, r.term, r.candidate, s.nodes[i].log)
    ensures ActorOk(s', h', i) && Voted(h', i, r.term, r.candidate)
  {
    var n := s.nodes[i];
    if n.role != Follower { CommittedVoteStands(s, h, i, r); }
    HardStateWritten(n, n.currentTerm, Some(r.candidate));
    WithBallotExtends(h, i, r.term, r.candidate, n.log);
    LogOkExtends(h, h', n.log);
  }

  lemma GrantBallot(s: State, h: Past, i: NodeId, r: VoteRequest, s': State, h': Past)
    requires ReignsOk(h) && BallotsOk(s, h) && VoteReqOk(s, h, i, r) && NodeOk(s, h, i)
    requires s.nodes[i].currentTerm == r.term && Grants(s.nodes[i], r)
    requires s'.nodes == s.nodes[i := Granted(s.nodes[i], r.candidate)] && s'.net == s.net
    requires h' == WithBallot(h, i, r.term, r.candidate, s.nodes[i].log)
    ensures Calm(s, h, s', h', i)
    ensures (i, r.term) !in h.ballots ==> BallotOk(s', h', i, r.term)
  {
    WithBallotExtends(h, i, r.term, r.candidate, s.nodes[i].log);
    LogOkExtends(h, h', s.nodes[i].log);
    assert BallotOk(s, h, r.candidate, r.term);
    assert Voted(h', r.candidate, r.term, r.candidate);
  }

  /** Recording a granted vote at a node already in the candidate's term. */
  lemma GrantInv(s: State, h: Past, i: NodeId, r: VoteRequest, s': State, h': Past)
    requires Inv(s, h) && VoteReqOk(s, h, i, r)
    requires s.nodes[i].currentTerm == r.term && Grants(s.nodes[i], r)
    requires s'.nodes == s.nodes[i := Granted(s.nodes[i], r.candidate)] && s'.net == s.net
    requires h' == WithBallot(h, i, r.term, r.candidate, s.nodes[i].log)
    ensures Inv(s', h') && Voted(h', i, r.term, r.candidate)
  {
    GrantActor(s, h, i, r, s', h');
    GrantBallot(s, h, i, r, s', h');
    CalmInv(s, h, s', h', i);
  }

  /** What handling the request comes to: nothing, adopting its term, or granting after that. */
  lemma HandleVoteShape(s: State, h: Past, i: NodeId, r: VoteRequest, s1: State, s2: State, granted: bool)
    requires VoteReqOk(s, h, i, r) && granted == HandleVote(s.nodes[i], r).1.granted
    requires s1 == State(s.nodes[i := AdoptTerm(s.nodes[i], r.term)], s.net)
    requires s2 == State(s.nodes[i := HandleVote(s.nodes[i], r).0], s.net)
    ensures r.term < s.nodes[i].currentTerm ==> s2 == s && !granted
    ensures r.term >= s.nodes[i].currentTerm && !granted ==> s2 == s1
    ensures granted ==>
              && VoteReqOk(s1, h, i, r) && s1.nodes[i].currentTerm == r.term && Grants(s1.nodes[i], r)
              && s1.nodes[i].log == s.nodes[i].log
              && s2.nodes == s1.nodes[i := Granted(s1.nodes[i], r.candidate)] && s2.net == s1.net
  {
  }

  /** Deciding on the request, before the reply is sent. */
  lemma DecideInv(s: State, h: Past, i: NodeId, r: VoteRequest, s2: State, h': Past, granted: bool)
    requires Inv(s, h) && VoteReqOk(s, h, i, r) && granted == HandleVote(s.nodes[i], r).1.granted
    requires s2 == State(s.nodes[i := HandleVote(s.nodes[i], r).0], s.net)
    requires h' == if granted then WithBallot(h, i, r.term, r.candidate, s.nodes[i].log) else h
    ensures Inv(s2, h') && (granted ==> Voted(h', i, r.term, r.candidate))
  {
    var s1 := State(s.nodes[i := AdoptTerm(s.nodes[i], r.term)], s.net);
    HandleVoteShape(s, h, i, r, s1, s2, granted);
    AdoptInv(s, h, i, r.term, s1);
    if granted {
      GrantInv(s1, h, i, r, s2, h');
    }
  }

  lemma VoteReqInv(s: State, h: Past, i: NodeId, r: VoteRequest, s': State, h': Past)
    requires Inv(s, h) && VoteReqOk(s, h, i, r)
    requires var (n', reply) := HandleVote(s.nodes[i], r);
             && s' == State(s.nodes[i := n'], s.net + {VoteResp(i, r.candidate, r.term, reply)})
             && h' == if reply.granted then WithBallot(h, i, r.term, r.candidate, s.nodes[i].log) else h
    ensures Inv(s', h')
  {
    var (n', reply) := HandleVote(s.nodes[i], r);
    var s2 := State(s.nodes[i := n'], s.net);
    DecideInv(s, h, i, r, s2, h', reply.granted);
    SendInv(s2, h', s', i, VoteResp(i, r.candidate, r.term, reply));
  }

  // ----- counting a vote -----

  lemma CountIsWell(s: State, h: Past, i: NodeId, v: NodeId, t: nat, reply: VoteReply, s': State)
    requires VoteRespOk(s, h, v, i, t, reply) && reply.term <= s.nodes[i].currentTerm
    requires ReignsOk(h) && NodesOk(s, h) && CandidateOk(s, h, i) && LeaderOk(s, h, i) && CommitOk(s, h, i)
    requires s' == State(s.nodes[i := CountVote(s.nodes[i], v, t, reply)], s.net)
    ensures SameWell(s, h, s', i)
  {
    assert NodeOk(s, h, i);
    CountActor(s, h, i, v, t, reply, s');
    LeaderStays(s, h, s', i);
  }

  lemma CountActor(s: State, h: Past, i: NodeId, v: NodeId, t: nat, reply: VoteReply, s': State)
    requires VoteRespOk(s, h, v, i, t, reply) && reply.term <= s.nodes[i].currentTerm && NodeOk(s, h, i) && CandidateOk(s, h, i)
    requires s' == State(s.nodes[i := CountVote(s.nodes[i], v, t, reply)], s.net)
    ensures Same(s, s', i) && NodeOk(s', h, i) && CandidateOk(s', h, i)
  {
  }

  lemma VoteRespInv(s: State, h: Past, i: NodeId, v: NodeId, t: nat, reply: VoteReply, s': State)
    requires Inv(s, h) && VoteRespOk(s, h, v, i, t, reply)
    requires s' == State(s.nodes[i := CountVote(s.nodes[i], v, t, reply)], s.net)
    ensures Inv(s', h)
  {
    if reply.term > s.nodes[i].currentTerm {
      StepDown(s, h, s', i, reply.term);
    } else {
      ActorParts(s, h, i);
      CountIsWell(s, h, i, v, t, reply, s');
      QuietInv(s, h, s', i);
    }
  }

  // ----- sending entries -----

  lemma MakeAppendOk(s: State, h: Past, i: NodeId, j: NodeId)
    requires ReignsOk(h) && i in s.nodes && j in s.nodes && j != i && s.nodes[i].role == Leader
    requires LeaderOk(s, h, i) && CommitOk(s, h, i)
    ensures NextFor(s.nodes[i], j) >= 1 && AppendReqOk(s, h, j, MakeAppend(s.nodes[i], i, j))
  {
    var n := s.nodes[i];
    assert PeerOk(s, h, i, j);
    assert ReignShape(n.currentTerm, h.reigns[n.currentTerm]);
  }

  lemma ReplicateInv(s: State, h: Past, i: NodeId, j: NodeId, s': State)
    requires Inv(s, h) && i in s.nodes && j in s.nodes && j != i && s.nodes[i].role == Leader && NextFor(s.nodes[i], j) >= 1
    requires s' == State(s.nodes, s.net + {AppendReq(j, MakeAppend(s.nodes[i], i, j))})
    ensures Inv(s', h)
  {
    MakeAppendOk(s, h, i, j);
    SendInv(s, h, s', i, AppendReq(j, MakeAppend(s.nodes[i], i, j)));
  }

  // ----- applying and restarting -----

  lemma ApplyCommitOk(s: State, h: Past, i: NodeId, s': State)
    requires i in s.nodes && CommitOk(s, h, i)
    requires s' == State(s.nodes[i := ApplyNext(s.nodes[i])], s.net)
    ensures CommitOk(s', h, i)
  {
    var n := s.nodes[i];
    assert s'.nodes.Keys == s.nodes.Keys;
    if n.lastApplied < n.commitIndex {
      AgreeAt(n.log, h.decided, n.commitIndex, n.lastApplied);
      assert h.decided[..n.lastApplied] + [h.decided[n.lastApplied]] == h.decided[..n.lastApplied + 1];
    }
  }

  lemma ApplyActor(s: State, h: Past, i: NodeId, s': State)
    requires ReignsOk(h) && NodesOk(s, h) && i in s.nodes && ActorOk(s, h, i)
    requires s' == State(s.nodes[i := ApplyNext(s.nodes[i])], s.net)
    ensures Same(s, s', i) && ActorOk(s', h, i)
  {
    LeaderStays(s, h, s', i);
  }

  lemma ApplyInv(s: State, h: Past, i: NodeId, s': State)
    requires Inv(s, h) && i in s.nodes
    requires s' == State(s.nodes[i := ApplyNext(s.nodes[i])], s.net)
    ensures Inv(s', h)
  {
    ApplyActor(s, h, i, s');
    ApplyCommitOk(s, h, i, s');
    SameInv(s, h, s', i);
  }

  lemma CrashActor(s: State, h: Past, i: NodeId, s': State)
    requires i in s.nodes && NodeOk(s, h, i) && Intact(s.nodes[i])
    requires s' == State(s.nodes[i := Restart(s.nodes[i])], s.net)
    ensures ActorOk(s', h, i) && CommitOk(s', h, i)
  {
    ReappendingKeepsRecovery(s.nodes[i].wal);
  }

  lemma CrashInv(s: State, h: Past, i: NodeId, s': State)
    requires Inv(s, h) && i in s.nodes && Intact(s.nodes[i])
    requires s' == State(s.nodes[i := Restart(s.nodes[i])], s.net)
    ensures Inv(s', h)
  {
    CrashActor(s, h, i, s');
    SameInv(s, h, s', i);
  }
}
