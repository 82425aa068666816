/** The values shared by every component: node ids, log entries and roles. */
module Types {

  datatype Option<+T> = None | Some(value: T)

  // Peers are named by strings in the configuration; only equality of names matters.
  type NodeId = nat

  datatype OpType = Put | Delete | NoOp

  datatype Entry = Entry(term: nat, index: nat, op: OpType, key: string, value: string, ttlMs: int)

  datatype Role = Follower | Candidate | Leader

  function Min(a: nat, b: nat): nat { if a <= b then a else b }

  function Max(a: nat, b: nat): nat { if a >= b then a else b }
}
