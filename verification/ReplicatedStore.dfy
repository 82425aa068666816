/** The cluster's promise to its clients: the stores of nodes that have applied equally far agree. */
module ReplicatedStore {
  import opened Types
  import opened NodeSpec
  import opened Cluster
  import opened Safety
  import StoreSpec

  /** The store of a node that started empty and applied what it has applied, at these times. */
  ghost function StoreOf(n: Node, times: seq<int>): StoreSpec.Store
    requires |times| == |n.applied|
  {
    StoreSpec.ApplyAll(map[], n.applied, times)
  }

  lemma SameAppliedPrefix(members: set<NodeId>, run: seq<Action>, j: nat, k: nat, a: NodeId, b: NodeId)
    requires IsRun(members, run) && j <= |run| && k <= |run| && a in members && b in members
    requires At(members, run, j, a).lastApplied == At(members, run, k, b).lastApplied
    ensures At(members, run, j, a).applied == At(members, run, k, b).applied
  {
    AppliedIsDecided(members, run, j, a);
    AppliedIsDecided(members, run, k, b);
    if j <= k {
      StateMachineSafety(members, run, j, k, a, b);
    } else {
      StateMachineSafety(members, run, k, j, b, a);
    }
  }

  /** At equal `lastApplied`, at any two moments of a run, any two nodes hold the same keys, values, versions and indices. */
  lemma StoresAgree(members: set<NodeId>, run: seq<Action>, j: nat, k: nat, a: NodeId, b: NodeId, s: seq<int>, t: seq<int>)
    requires IsRun(members, run) && j <= |run| && k <= |run| && a in members && b in members
    requires At(members, run, j, a).lastApplied == At(members, run, k, b).lastApplied
    requires |s| == |At(members, run, j, a).applied| && |t| == |At(members, run, k, b).applied|
    ensures StoreSpec.SameCore(StoreOf(At(members, run, j, a), s), StoreOf(At(members, run, k, b), t))
  {
    SameAppliedPrefix(members, run, j, k, a, b);
    StoreSpec.ReplicasAgree(At(members, run, j, a).applied, s, t);
  }
}
