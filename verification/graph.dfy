/** Workflow graphs: dependencies of a node and Kahn's topological order. */
module Graph {
  import opened Types
  import opened Bindings

  /** `dict.fromkeys`: first occurrences, in order. */
  function Dedup(ids: seq<string>): (r: seq<string>)
    ensures forall d :: d in r <==> d in ids
    ensures forall i, j | 0 <= i < j < |r| :: r[i] != r[j]
  {
    if ids == [] then []
    else
      var front := Dedup(ids[..|ids| - 1]);
      var last := ids[|ids| - 1];
      if last in front then front else front + [last]
  }

  function SourceNodes(slots: seq<Slot>): seq<string> {
    seq(|slots|, i requires 0 <= i < |slots| => slots[i].source.node)
  }

  function Dependencies(n: NodeDef): seq<string> {
    Dedup(n.dependsOn + SourceNodes(Slots(n)))
  }

  ghost predicate DistinctIds(nodes: seq<NodeDef>) {
    forall i, j | 0 <= i < j < |nodes| :: nodes[i].id != nodes[j].id
  }

  function Ids(nodes: seq<NodeDef>): (ids: seq<string>)
    ensures |ids| == |nodes|
  {
    seq(|nodes|, i requires 0 <= i < |nodes| => nodes[i].id)
  }

  ghost predicate KnownIds(nodes: seq<NodeDef>) {
    forall n, d | n in nodes && d in Dependencies(n) :: d in Ids(nodes)
  }

  /** The node named `k` depends on the node named `d`. */
  ghost predicate Edge(nodes: seq<NodeDef>, d: string, k: string) {
    exists n | n in nodes :: n.id == k && d in Dependencies(n)
  }

  ghost predicate IsCycle(nodes: seq<NodeDef>, p: seq<string>) {
    2 <= |p| && p[0] == p[|p| - 1] && forall i | 0 <= i < |p| - 1 :: Edge(nodes, p[i], p[i + 1])
  }

  ghost predicate HasCycle(nodes: seq<NodeDef>) { exists p :: IsCycle(nodes, p) }

  /** What `DAGNode` and `DAGWorkflow` check when they are constructed. */
  ghost predicate WellFormed(nodes: seq<NodeDef>) {
    && nodes != [] && DistinctIds(nodes) && KnownIds(nodes) && !HasCycle(nodes)
    && forall n | n in nodes :: Disjoint(Slots(n))
  }
}
