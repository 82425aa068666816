/** From any reachable state a majority can elect a leader of a term none of it is ahead of. */
module Elections {
  import opened Types
  import opened NodeSpec
  import opened Cluster
  import opened Scenarios
  import opened NodeLaws
  import opened Rounds

  // ----- the highest term and the best log -----

  lemma {:induction false} HighestTerm(nodes: map<NodeId, Node>, among: set<NodeId>) returns (k: NodeId)
    requires among != {} && among <= nodes.Keys
    ensures k in among && forall i :: i in among ==> nodes[i].currentTerm <= nodes[k].currentTerm
    decreases |among|
  {
    k :| k in among;
    if among != {k} {
      var m := HighestTerm(nodes, among - {k});
      if nodes[k].currentTerm < nodes[m].currentTerm { k := m; }
    }
  }

  /** The order of logs is total, so some log is behind none. */
  lemma {:induction false} BestLog(nodes: map<NodeId, Node>, among: set<NodeId>) returns (b: NodeId)
    requires among != {} && among <= nodes.Keys
    ensures b in among && forall i :: i in among ==> !Behind(nodes[b].log, nodes[i].log)
    decreases |among|
  {
    b :| b in among;
    if among != {b} {
      var m := BestLog(nodes, among - {b});
      if Behind(nodes[b].log, nodes[m].log) { b := m; }
    }
  }

  // ----- asking for votes -----

  /** Every node of `todo` has received the request `r` and answered it. */
  ghost predicate Canvassed(s: State, s': State, r: VoteRequest, todo: set<NodeId>)
  {
    && s'.nodes.Keys == s.nodes.Keys && todo <= s.nodes.Keys && s.net <= s'.net
    && (forall j :: j in s.nodes ==> s'.nodes[j] == if j in todo then Voter(s.nodes[j], r) else s.nodes[j])
    && forall j :: j in todo ==> VoteResp(j, r.candidate, r.term, HandleVote(s.nodes[j], r).1) in s'.net
  }

  lemma CanvassedOneMore(s: State, s1: State, s': State, r: VoteRequest, v: NodeId, todo: set<NodeId>)
    requires v in todo && todo <= s.nodes.Keys && s1.nodes == s.nodes[v := Voter(s.nodes[v], r)] && s.net <= s1.net
    requires VoteResp(v, r.candidate, r.term, HandleVote(s.nodes[v], r).1) in s1.net
    requires Canvassed(s1, s', r, todo - {v})
    ensures Canvassed(s, s', r, todo)
  {
  }

  lemma {:induction false} Canvass(g: Setting, run: seq<Action>, s: State, r: VoteRequest, todo: set<NodeId>)
    returns (run': seq<Action>, s': State)
    requires Reached(g, run, s) && todo <= s.nodes.Keys && todo <= g.active && forall j :: j in todo ==> VoteReq(j, r) in s.net
    ensures Reached(g, run', s') && Canvassed(s, s', r, todo)
    decreases |todo|
  {
    if todo == {} {
      run', s' := run, s;
    } else {
      var v :| v in todo;
      var s1 := Do(s, DeliverVoteReq(VoteReq(v, r)));
      Vote(g, run, s, v, r, s1);
      run', s' := Canvass(g, run + [DeliverVoteReq(VoteReq(v, r))], s1, r, todo - {v});
      CanvassedOneMore(s, s1, s', r, v, todo);
    }
  }

  lemma VoterAdopts(n: Node, r: VoteRequest)
    requires r.term > n.currentTerm
    ensures var n' := Voter(n, r); n'.currentTerm == r.term && n'.role == Follower && n'.log == n.log
    ensures HandleVote(n, r).1.term == n.currentTerm
  {
  }

  /** Every node of `q` is in term `t` and none leads. */
  ghost predicate Leaderless(q: set<NodeId>, s: State, t: nat)
  {
    q <= s.nodes.Keys && forall i :: i in q ==> s.nodes[i].currentTerm == t && s.nodes[i].role != Leader
  }

  lemma AllUnseated(q: set<NodeId>, s: State, s1: State, s': State, k: NodeId)
    requires k in q && q <= s.nodes.Keys && forall i :: i in q ==> s.nodes[i].currentTerm <= s.nodes[k].currentTerm
    requires s1.nodes == s.nodes[k := StartElection(s.nodes[k], k)] && Canvassed(s1, s', Ballot(s.nodes[k], k), q - {k})
    ensures Leaderless(q, s', s.nodes[k].currentTerm + 1)
  {
    forall i | i in q && i != k ensures s'.nodes[i].currentTerm == s.nodes[k].currentTerm + 1 && s'.nodes[i].role != Leader {
      VoterAdopts(s.nodes[i], Ballot(s.nodes[k], k));
    }
  }

  /** A candidate ahead of the others takes them all into its term, whether they vote for it or not. */
  lemma Unseat(g: Setting, run: seq<Action>, s: State, k: NodeId) returns (run': seq<Action>, s': State)
    requires Reached(g, run, s) && g.active <= s.nodes.Keys && k in g.active && s.nodes[k].role != Leader
    requires forall i :: i in g.active ==> s.nodes[i].currentTerm <= s.nodes[k].currentTerm
    ensures Reached(g, run', s') && s'.nodes.Keys == s.nodes.Keys && Leaderless(g.active, s', s.nodes[k].currentTerm + 1)
  {
    var s1 := Do(s, Elect(k));
    Stand(g, run, s, k, s1);
    run', s' := Canvass(g, run + [Elect(k)], s1, Ballot(s.nodes[k], k), g.active - {k});
    AllUnseated(g.active, s, s1, s', k);
  }

  // ----- winning -----

  /** The votes of `todo`, cast by nodes that were in term `t`, are on their way to `b`. */
  ghost predicate VotesSent(s: State, b: NodeId, t: nat, todo: set<NodeId>)
  {
    forall j :: j in todo ==> VoteResp(j, b, t + 1, VoteReply(t, true)) in s.net
  }

  /** Candidate `n` with these votes. */
  function Standing(n: Node, b: NodeId, votes: set<NodeId>): Node
  {
    StartElection(n, b).(votes := votes)
  }

  lemma {:induction false} CountAll(g: Setting, run: seq<Action>, s: State, b: NodeId, n: Node, todo: set<NodeId>, voted: set<NodeId>, all: set<NodeId>)
    returns (run': seq<Action>, s': State)
    requires Reached(g, run, s) && b in g.active && b in s.nodes && s.nodes[b] == Standing(n, b, voted) && VotesSent(s, b, n.currentTerm, todo)
    requires voted + todo == all
    ensures Reached(g, run', s') && s'.nodes == s.nodes[b := Standing(n, b, all)]
    decreases |todo|
  {
    if todo == {} {
      run', s' := run, s;
      assert voted == all && s.nodes[b := s.nodes[b]] == s.nodes;
    } else {
      var v :| v in todo;
      var run1, s1 := CountOne(g, run, s, b, v, n, voted);
      run', s' := CountAll(g, run1, s1, b, n, todo - {v}, voted + {v}, all);
      UpdateTwice(s.nodes, b, s1.nodes[b], s'.nodes[b]);
    }
  }

  lemma CountOne(g: Setting, run: seq<Action>, s: State, b: NodeId, v: NodeId, n: Node, voted: set<NodeId>) returns (run': seq<Action>, s': State)
    requires Reached(g, run, s) && b in g.active && b in s.nodes && s.nodes[b] == Standing(n, b, voted)
    requires VoteResp(v, b, n.currentTerm + 1, VoteReply(n.currentTerm, true)) in s.net
    ensures Reached(g, run', s') && s.net <= s'.net
    ensures s'.nodes == s.nodes[b := Standing(n, b, voted + {v})]
  {
    var reply := VoteReply(n.currentTerm, true);
    s' := Do(s, DeliverVoteResp(VoteResp(v, b, n.currentTerm + 1, reply)));
    Count(g, run, s, b, v, n.currentTerm + 1, reply, s');
    run' := run + [DeliverVoteResp(VoteResp(v, b, n.currentTerm + 1, reply))];
  }

  lemma MajorityWins(s: State, b: NodeId, n: Node, q: set<NodeId>)
    requires b in s.nodes && s.nodes[b] == Standing(n, b, q) && 2 * |q| > |s.nodes.Keys|
    ensures HasWon(s.nodes[b], Peers(s, b))
  {
    assert s.nodes.Keys == Peers(s, b) + {b};
  }

  /** `b` has stood in term `t + 1`, and every other node of `q` has granted it its vote. */
  ghost predicate Acclaimed(q: set<NodeId>, s: State, s': State, b: NodeId, t: nat)
  {
    && b in q && q <= s.nodes.Keys && s'.nodes.Keys == s.nodes.Keys && s'.nodes[b] == StartElection(s.nodes[b], b)
    && (forall j :: j in q ==> s'.nodes[j].currentTerm == t + 1)
    && VotesSent(s', b, t, q - {b})
  }

  ghost predicate BestOf(q: set<NodeId>, s: State, b: NodeId)
  {
    b in q && q <= s.nodes.Keys && forall i :: i in q ==> !Behind(s.nodes[b].log, s.nodes[i].log)
  }

  lemma AllAcclaim(q: set<NodeId>, s: State, s1: State, s': State, b: NodeId, t: nat)
    requires Leaderless(q, s, t) && BestOf(q, s, b)
    requires s1.nodes == s.nodes[b := StartElection(s.nodes[b], b)] && Canvassed(s1, s', Ballot(s.nodes[b], b), q - {b})
    ensures Acclaimed(q, s, s', b, t)
  {
    var r := Ballot(s.nodes[b], b);
    forall j | j in q && j != b
      ensures s'.nodes[j].currentTerm == t + 1 && VoteResp(j, b, t + 1, VoteReply(t, true)) in s'.net
    {
      VoterAdopts(s.nodes[j], r);
      GrantedIffNotBehind(s.nodes[j], s.nodes[b].log, t + 1, b);
      assert HandleVote(s.nodes[j], r).1 == VoteReply(t, true);
    }
  }

  lemma Acclaim(g: Setting, run: seq<Action>, s: State, b: NodeId, t: nat) returns (run': seq<Action>, s': State)
    requires Reached(g, run, s) && Leaderless(g.active, s, t) && BestOf(g.active, s, b)
    ensures Reached(g, run', s') && Acclaimed(g.active, s, s', b, t)
  {
    var s1 := Do(s, Elect(b));
    Stand(g, run, s, b, s1);
    run', s' := Canvass(g, run + [Elect(b)], s1, Ballot(s.nodes[b], b), g.active - {b});
    AllAcclaim(g.active, s, s1, s', b, t);
  }

  lemma Crowned(g: Setting, run: seq<Action>, s: State, b: NodeId, n: Node) returns (run': seq<Action>, s': State)
    requires Sound(g) && Reached(g, run, s) && b in g.active && g.active <= s.nodes.Keys && 2 * |g.active| > |s.nodes.Keys|
    requires s.nodes[b] == Standing(n, b, g.active) && forall i :: i in g.active ==> s.nodes[i].currentTerm <= n.currentTerm + 1
    ensures Led(g, run', s', b) && s'.nodes.Keys == s.nodes.Keys
  {
    MajorityWins(s, b, n, g.active);
    s' := Do(s, Win(b));
    Crown(g, run, s, b, s');
    run' := run + [Win(b)];
  }

  /** A node whose log is behind none wins the next term with the votes of a majority. */
  lemma WinMajority(g: Setting, run: seq<Action>, s: State, b: NodeId, t: nat) returns (run': seq<Action>, s': State)
    requires Sound(g) && Reached(g, run, s) && 2 * |g.active| > |s.nodes.Keys| && Leaderless(g.active, s, t) && BestOf(g.active, s, b)
    ensures Led(g, run', s', b) && s'.nodes.Keys == s.nodes.Keys
  {
    var run1, s1 := Acclaim(g, run, s, b, t);
    var run2, s2 := CountAll(g, run1, s1, b, s.nodes[b], g.active - {b}, {b}, g.active);
    assert s2.nodes.Keys == s.nodes.Keys;
    run', s' := Crowned(g, run2, s2, b, s.nodes[b]);
  }

  /** From any reachable state any majority can find itself a leader none of it is ahead of. */
  lemma LeaderCanBeFound(g: Setting, run: seq<Action>, s: State) returns (run': seq<Action>, s': State, l: NodeId)
    requires Sound(g) && Reached(g, run, s) && g.active <= s.nodes.Keys && 2 * |g.active| > |s.nodes.Keys|
    ensures Led(g, run', s', l) && s'.nodes.Keys == s.nodes.Keys
  {
    var k := HighestTerm(s.nodes, g.active);
    if s.nodes[k].role == Leader {
      run', s', l := run, s, k;
    } else {
      var run1, s1 := Unseat(g, run, s, k);
      l := BestLog(s1.nodes, g.active);
      run', s' := WinMajority(g, run1, s1, l, s.nodes[k].currentTerm + 1);
    }
  }
}
