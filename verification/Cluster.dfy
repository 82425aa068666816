/**
 The cluster: one node per member and every message ever sent.

 Messages stay in `net`, so a delivery may happen at any later time, in any order, more than once or
 never. Each action is one critical section of the code. An execution is any sequence of actions the
 code can take; a run is an execution that meets two conditions the code relies on.
 */
module Cluster {
  import opened Types
  import opened WalRecords
  import opened NodeSpec

  // A reply to AppendEntries is resolved against what the sender remembers of its request.
  datatype Message =
    | VoteReq(dst: NodeId, voteReq: VoteRequest)
    | VoteResp(src: NodeId, dst: NodeId, electionTerm: nat, vote: VoteReply)
    | AppendReq(dst: NodeId, appendReq: AppendRequest)
    | AppendResp(src: NodeId, dst: NodeId, sentTerm: nat, prevIndex: nat, count: nat, reply: AppendReply)

  datatype State = State(nodes: map<NodeId, Node>, net: set<Message>)

  datatype Action =
    | Elect(node: NodeId)
    | DeliverVoteReq(msg: Message)
    | DeliverVoteResp(msg: Message)
    | Win(node: NodeId)
    | Submit(node: NodeId, op: OpType, key: string, value: string, ttlMs: int)
    | Replicate(node: NodeId, peer: NodeId)
    | DeliverAppendReq(msg: Message)
    | DeliverAppendResp(msg: Message)
    | Apply(node: NodeId)
    | Crash(node: NodeId)

  function Peers(s: State, i: NodeId): set<NodeId>
  {
    s.nodes.Keys - {i}
  }

  function Quorum(s: State, i: NodeId): nat
  {
    QuorumSize(|Peers(s, i)|)
  }

  /**
   A leader takes a reply of its own term at face value without looking at the term in which it sent
   the request. This is the assumption that the two are the same, which the RPC timeout is there to give.
   */
  predicate FreshReply(n: Node, m: Message)
    requires m.AppendResp?
  {
    n.role == Leader && m.reply.term == n.currentTerm ==> m.sentTerm == n.currentTerm
  }

  /** The write-ahead log gives back the log held in memory. */
  predicate Intact(n: Node)
  {
    Recover(n.wal).entries == n.log
  }

  /** What the code can do. */
  predicate Enabled(s: State, a: Action)
  {
    match a
    case Elect(i) => i in s.nodes && s.nodes[i].role != Leader
    case DeliverVoteReq(m) => m in s.net && m.VoteReq? && m.dst in s.nodes
    case DeliverVoteResp(m) => m in s.net && m.VoteResp? && m.dst in s.nodes
    case Win(i) => i in s.nodes && HasWon(s.nodes[i], Peers(s, i))
    case Submit(i, _, _, _, _) => i in s.nodes && s.nodes[i].role == Leader
    case Replicate(i, j) => i in s.nodes && j in Peers(s, i) && s.nodes[i].role == Leader && NextFor(s.nodes[i], j) >= 1
    case DeliverAppendReq(m) => m in s.net && m.AppendReq? && m.dst in s.nodes
    case DeliverAppendResp(m) => m in s.net && m.AppendResp? && m.dst in s.nodes
    case Apply(i) => i in s.nodes
    case Crash(i) => i in s.nodes
  }

  /** What the code relies on: no stale reply is taken at face value, and no restart loses log entries. */
  predicate Regular(s: State, a: Action)
  {
    && Enabled(s, a)
    && (a.DeliverAppendResp? ==> FreshReply(s.nodes[a.msg.dst], a.msg))
    && (a.Crash? ==> Intact(s.nodes[a.node]))
  }

  function Update(s: State, i: NodeId, n: Node, sent: set<Message>): State
  {
    State(s.nodes[i := n], s.net + sent)
  }

  /** The node an action runs on. */
  function Actor(a: Action): NodeId
  {
    match a
    case DeliverVoteReq(m) => m.dst
    case DeliverVoteResp(m) => m.dst
    case DeliverAppendReq(m) => m.dst
    case DeliverAppendResp(m) => m.dst
    case _ => a.node
  }

  /** That node after the action. */
  function After(s: State, a: Action): Node
    requires Enabled(s, a)
  {
    match a
    case Elect(i) => StartElection(s.nodes[i], i)
    case DeliverVoteReq(m) => HandleVote(s.nodes[m.dst], m.voteReq).0
    case DeliverVoteResp(m) => CountVote(s.nodes[m.dst], m.src, m.electionTerm, m.vote)
    case Win(i) => BecomeLeader(s.nodes[i], Peers(s, i))
    case Submit(i, op, key, value, ttlMs) => Propose(s.nodes[i], op, key, value, ttlMs)
    case Replicate(i, _) => s.nodes[i]
    case DeliverAppendReq(m) => HandleAppend(s.nodes[m.dst], m.appendReq).0
    case DeliverAppendResp(m) => HandleReply(s.nodes[m.dst], m.src, m.prevIndex, m.count, m.reply, Quorum(s, m.dst))
    case Apply(i) => ApplyNext(s.nodes[i])
    case Crash(i) => Restart(s.nodes[i])
  }

  /** The messages it sends. */
  function Sent(s: State, a: Action): set<Message>
    requires Enabled(s, a)
  {
    match a
    case Elect(i) => set j | j in Peers(s, i) :: VoteReq(j, MakeVoteRequest(StartElection(s.nodes[i], i), i))
    case DeliverVoteReq(m) => {VoteResp(m.dst, m.voteReq.candidate, m.voteReq.term, HandleVote(s.nodes[m.dst], m.voteReq).1)}
    case Replicate(i, j) => {AppendReq(j, MakeAppend(s.nodes[i], i, j))}
    case DeliverAppendReq(m) =>
      var r := m.appendReq;
      {AppendResp(m.dst, r.leader, r.term, r.prevIndex, |r.entries|, HandleAppend(s.nodes[m.dst], r).1)}
    case _ => {}
  }

  function Do(s: State, a: Action): State
    requires Enabled(s, a)
  {
    Update(s, Actor(a), After(s, a), Sent(s, a))
  }

  function Init(members: set<NodeId>): State
  {
    State(map i | i in members :: FRESH, {})
  }

  /** Every action of the run is regular where it happens. */
  ghost predicate IsRun(members: set<NodeId>, run: seq<Action>)
  {
    run == [] || (IsRun(members, run[..|run| - 1]) && Regular(StateAfter(members, run[..|run| - 1]), run[|run| - 1]))
  }

  ghost function StateAfter(members: set<NodeId>, run: seq<Action>): State
  {
    if run == [] then Init(members)
    else
      var s := StateAfter(members, run[..|run| - 1]);
      var a := run[|run| - 1];
      if Enabled(s, a) then Do(s, a) else s
  }
}
