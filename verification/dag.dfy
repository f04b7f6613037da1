/** Workflow definitions (`dag.py`): Kahn's order with its queue and counters, the overlap check of a
    node and the resolution of its bindings, each against its specification. */
module Dag {
  import opened Types
  import opened Bindings
  import opened Graph
  import opened Orders

  // ---------------------------------------------------------------- bindings

  /** `_path_value`. */
  method WalkPath(v: Json, path: seq<Part>) returns (found: Option<Json>)
    ensures found == PathValue(v, path)
  {
    var value := v;
    for i := 0 to |path|
      invariant PathValue(v, path) == PathValue(value, path[i..])
    {
      match Child(value, path[i]) {
        case None => return None;
        case Some(child) => value := child;
      }
    }
    return Some(value);
  }

  method OutputValue(outputs: map<string, Json>, source: OutputRef) returns (found: Option<Json>)
    ensures found == Fetch(outputs, source)
  {
    if source.node !in outputs { return None; }
    found := WalkPath(outputs[source.node], source.path);
  }

  lemma {:induction false} FillAppend(v: Json, slots: seq<Slot>, last: Slot, outputs: map<string, Json>)
    ensures Fill(v, slots + [last], outputs) ==
            if Fill(v, slots, outputs).None? then None else FillOne(Fill(v, slots, outputs).value, last, outputs)
    decreases |slots|
  {
    if slots == [] {
      assert (slots + [last])[1..] == [];
    } else {
      assert (slots + [last])[1..] == slots[1..] + [last];
      if FillOne(v, slots[0], outputs).Some? { FillAppend(FillOne(v, slots[0], outputs).value, slots[1..], last, outputs); }
    }
  }

  /** Once a slot does not fit, the rest does not matter. */
  lemma {:induction false} FillFails(v: Json, slots: seq<Slot>, n: nat, outputs: map<string, Json>)
    requires n <= |slots| && Fill(v, slots[..n], outputs).None?
    ensures Fill(v, slots, outputs).None?
    decreases |slots|
  {
    if n > 0 {
      assert slots[..n][1..] == slots[1..][..n - 1];
      if FillOne(v, slots[0], outputs).Some? {
        FillFails(FillOne(v, slots[0], outputs).value, slots[1..], n - 1, outputs);
      }
    }
  }

  /** Filling keeps an object an object. */
  lemma {:induction false} FillKeepsObject(v: Json, slots: seq<Slot>, outputs: map<string, Json>)
    requires v.Obj?
    ensures Fill(v, slots, outputs).Some? ==> Fill(v, slots, outputs).value.Obj?
    decreases |slots|
  {
    if slots != [] && FillOne(v, slots[0], outputs).Some? {
      FillKeepsObject(FillOne(v, slots[0], outputs).value, slots[1..], outputs);
    }
  }

  /** What resolving the bindings of a node means: it fails exactly when some binding alone does not fit the
      static arguments; every target holds the value of its source; every path apart from the targets is
      unchanged; and no other order of the bindings changes the result or the failure. */
  lemma MaterializeMeans(n: NodeDef, outputs: map<string, Json>)
    requires Disjoint(Slots(n))
    ensures var kwargs, m, slots := Obj(n.kwargs), Materialize(n, outputs), Slots(n);
      && (m.Some? <==> forall i | 0 <= i < |slots| :: FillOne(kwargs, slots[i], outputs).Some?)
      && (m.Some? ==> forall i | 0 <= i < |slots| ::
            Fetch(outputs, slots[i].source).Some? && PathValue(Obj(m.value), slots[i].target) == Fetch(outputs, slots[i].source))
      && (m.Some? ==> forall q | q != [] && (forall i | 0 <= i < |slots| :: Apart(slots[i].target, q)) ::
            PathValue(Obj(m.value), q) == PathValue(kwargs, q))
      && (forall other | multiset(other) == multiset(slots) ::
            Fill(kwargs, other, outputs) == if m.Some? then Some(Obj(m.value)) else None)
  {
    var kwargs, m, slots := Obj(n.kwargs), Materialize(n, outputs), Slots(n);
    FillKeepsObject(kwargs, slots, outputs);
    FillSucceeds(kwargs, slots, outputs);
    forall other | multiset(other) == multiset(slots) ensures Fill(kwargs, other, outputs) == Fill(kwargs, slots, outputs) {
      FillOrderIrrelevant(kwargs, slots, other, outputs);
    }
    if m.Some? {
      hide Fill, FillOne;
      forall i | 0 <= i < |slots|
        ensures Fetch(outputs, slots[i].source).Some? && PathValue(Obj(m.value), slots[i].target) == Fetch(outputs, slots[i].source)
      {
        FillWrites(kwargs, slots, outputs, i);
      }
      forall q | q != [] && (forall i | 0 <= i < |slots| :: Apart(slots[i].target, q))
        ensures PathValue(Obj(m.value), q) == PathValue(kwargs, q)
      {
        FillElsewhere(kwargs, slots, outputs, q);
      }
    }
  }

  /** `materialize_kwargs`: the inputs, then the bindings, written one after the other. */
  method MaterializeKwargs(n: NodeDef, outputs: map<string, Json>) returns (kwargs: Option<map<string, Json>>)
    requires forall i | 0 <= i < |n.bindings| :: n.bindings[i].target != []
    ensures kwargs == Materialize(n, outputs)
  {
    var slots := Slots(n);
    var value := Obj(n.kwargs);
    FillKeepsObject(value, slots, outputs);
    for i := 0 to |slots|
      invariant Fill(Obj(n.kwargs), slots[..i], outputs) == Some(value)
    {
      FillAppend(Obj(n.kwargs), slots[..i], slots[i], outputs);
      assert slots[..i + 1] == slots[..i] + [slots[i]];
      var x := OutputValue(outputs, slots[i].source);
      var written := None;
      if x.Some? { written := Assign(value, slots[i].target, x.value); }
      if written.None? {
        FillFails(Obj(n.kwargs), slots, i + 1, outputs);
        return None;
      }
      value := written.value;
    }
    assert slots[..|slots|] == slots;
    return Some(value.fields);
  }

  /** The check of `DAGNode.__post_init__` that no target is a prefix of another one. */
  method TargetsDisjoint(n: NodeDef) returns (ok: bool)
    requires forall i, j | 0 <= i < j < |n.inputs| :: n.inputs[i].0 != n.inputs[j].0
    requires forall i | 0 <= i < |n.bindings| :: n.bindings[i].target != []
    ensures ok <==> Disjoint(Slots(n))
  {
    var slots, m := Slots(n), |n.inputs|;
    forall i, j | 0 <= i < j < m ensures Apart(slots[i].target, slots[j].target) {
      assert slots[i].target[..1] == [Key(n.inputs[i].0)] && slots[j].target[..1] == [Key(n.inputs[j].0)];
    }
    for b := 0 to |n.bindings|
      invariant forall i, j | 0 <= i < j < m + b :: Apart(slots[i].target, slots[j].target)
    {
      var target := n.bindings[b].target;
      assert slots[m + b].target == target;
      for i := 0 to m + b
        invariant forall k | 0 <= k < i :: Apart(slots[k].target, target)
      {
        if Prefix(slots[i].target, target) || Prefix(target, slots[i].target) {
          assert !Apart(slots[i].target, slots[m + b].target);
          return false;
        }
      }
    }
    return true;
  }

  // ---------------------------------------------------------------- counting what a node waits for

  /** How many of the predecessors are not done. */
  function Pending(deps: seq<string>, done: set<string>): nat {
    if deps == [] then 0 else Pending(deps[..|deps| - 1], done) + (if deps[|deps| - 1] in done then 0 else 1)
  }

  lemma {:induction false} PendingOfNone(deps: seq<string>)
    ensures Pending(deps, {}) == |deps|
  {
    if deps != [] { PendingOfNone(deps[..|deps| - 1]); }
  }

  lemma {:induction false} PendingWithOneMore(deps: seq<string>, done: set<string>, x: string)
    requires NoRepeats(deps) && x !in done
    ensures Pending(deps, done + {x}) == Pending(deps, done) - (if x in deps then 1 else 0)
  {
    if deps != [] {
      PendingWithOneMore(deps[..|deps| - 1], done, x);
      assert x in deps <==> x in deps[..|deps| - 1] || x == deps[|deps| - 1];
    }
  }

  lemma {:induction false} NothingPending(deps: seq<string>, done: set<string>)
    ensures Pending(deps, done) == 0 <==> forall d | d in deps :: d in done
  {
    if deps != [] {
      NothingPending(deps[..|deps| - 1], done);
      assert forall d :: d in deps <==> d in deps[..|deps| - 1] || d == deps[|deps| - 1];
    }
  }

  // ---------------------------------------------------------------- the tables of Kahn's algorithm

  datatype OrderReply = Order(ids: seq<string>) | DuplicateIds | UnknownDependency(id: string) | CycleFound

  type ById = map<string, NodeDef>

  ghost predicate Indexes(nodes: seq<NodeDef>, byId: ById) {
    && byId.Keys == Elements(Ids(nodes))
    && forall k | k in byId :: byId[k] in nodes && byId[k].id == k
  }

  /** `{node.id: node for node in self.nodes}` is as long as the nodes exactly when their ids differ. */
  method Index(nodes: seq<NodeDef>) returns (byId: ById, distinct: bool)
    ensures distinct <==> DistinctIds(nodes)
    ensures distinct ==> Indexes(nodes, byId)
  {
    hide DistinctIds;
    byId, distinct := map[], true;
    NoneIndexed(nodes);
    for i := 0 to |nodes|
      invariant distinct <==> DistinctIds(nodes[..i])
      invariant Indexes(nodes[..i], byId)
    {
      assert nodes[..i + 1] == nodes[..i] + [nodes[i]];
      IdsAppend(nodes[..i], nodes[i]);
      DistinctAppend(nodes[..i], nodes[i]);
      if nodes[i].id in byId { distinct := false; }
      byId := byId[nodes[i].id := nodes[i]];
    }
    assert nodes[..|nodes|] == nodes;
  }

  lemma NoneIndexed(nodes: seq<NodeDef>)
    ensures DistinctIds(nodes[..0]) && Indexes(nodes[..0], map[])
  {
    assert Ids(nodes[..0]) == [];
  }

  lemma IdsAppend(nodes: seq<NodeDef>, n: NodeDef)
    ensures Ids(nodes + [n]) == Ids(nodes) + [n.id]
    ensures Elements(Ids(nodes + [n])) == Elements(Ids(nodes)) + {n.id}
  {
    assert Ids(nodes + [n]) == Ids(nodes) + [n.id];
    forall x ensures x in Ids(nodes) + [n.id] <==> x in Ids(nodes) || x == n.id {}
  }

  lemma DistinctAppend(nodes: seq<NodeDef>, n: NodeDef)
    ensures DistinctIds(nodes + [n]) <==> DistinctIds(nodes) && n.id !in Elements(Ids(nodes))
  {
    var all := nodes + [n];
    if DistinctIds(all) {
      forall i, j | 0 <= i < j < |nodes| ensures nodes[i].id != nodes[j].id { assert all[i].id != all[j].id; }
      forall i | 0 <= i < |nodes| ensures Ids(nodes)[i] != n.id { assert all[i].id != all[|nodes|].id; }
    } else if n.id !in Elements(Ids(nodes)) {
      var i, j :| 0 <= i < j < |all| && all[i].id == all[j].id;
      assert Ids(nodes)[i] in Ids(nodes);
      assert j < |nodes| && nodes[i].id == nodes[j].id;
    }
  }

  /** The nodes of the list that depend on `d`, in order. */
  function Children(nodes: seq<NodeDef>, d: string): seq<string> {
    if nodes == [] then []
    else
      var last := nodes[|nodes| - 1];
      Children(nodes[..|nodes| - 1], d) + (if d in Dependencies(last) then [last.id] else [])
  }

  lemma {:induction false} ChildrenAre(nodes: seq<NodeDef>, d: string)
    requires DistinctIds(nodes)
    ensures NoRepeats(Children(nodes, d))
    ensures forall k :: k in Children(nodes, d) <==> Edge(nodes, d, k)
  {
    if nodes != [] {
      var front, last := nodes[..|nodes| - 1], nodes[|nodes| - 1];
      ChildrenAre(front, d);
      forall k ensures Edge(nodes, d, k) <==> Edge(front, d, k) || (k == last.id && d in Dependencies(last)) {
        assert forall n :: n in nodes <==> n in front || n == last;
      }
      assert !Edge(front, d, last.id);
    }
  }

  /** The edges into `k` come from the dependencies of its node. */
  lemma EdgesInto(nodes: seq<NodeDef>, byId: ById, k: string)
    requires DistinctIds(nodes) && Indexes(nodes, byId) && k in byId
    ensures forall d :: Edge(nodes, d, k) <==> d in Dependencies(byId[k])
    ensures NoRepeats(Dependencies(byId[k]))
  {
    forall d | Edge(nodes, d, k) ensures d in Dependencies(byId[k]) {
      var n :| n in nodes && n.id == k && d in Dependencies(n);
      var i :| 0 <= i < |nodes| && nodes[i] == n;
      var j :| 0 <= j < |nodes| && nodes[j] == byId[k];
    }
  }

  // ---------------------------------------------------------------- Kahn's algorithm

  ghost predicate Counted(byId: ById, degrees: map<string, nat>, done: set<string>) {
    && degrees.Keys == byId.Keys
    && forall k | k in byId :: degrees[k] == Pending(Dependencies(byId[k]), done)
  }

  ghost predicate Linked(nodes: seq<NodeDef>, byId: ById, successors: map<string, seq<string>>) {
    && successors.Keys == byId.Keys
    && forall d | d in byId :: successors[d] == Children(nodes, d)
  }

  ghost predicate KnownTo(byId: ById, n: NodeDef) { forall d | d in Dependencies(n) :: d in byId }

  /** The inner loop of the successor lists; it stops at a dependency that no node has. */
  method LinkNode(byId: ById, before: map<string, seq<string>>, n: NodeDef)
    returns (successors: map<string, seq<string>>, unknown: Option<string>)
    requires before.Keys == byId.Keys
    ensures unknown.None? <==> KnownTo(byId, n)
    ensures unknown.None? ==> successors.Keys == byId.Keys
    ensures unknown.None? ==> forall d | d in byId ::
              successors[d] == before[d] + (if d in Dependencies(n) then [n.id] else [])
  {
    hide Dependencies;
    var deps := Dependencies(n);
    DependenciesDiffer(n);
    successors := before;
    for j := 0 to |deps|
      invariant successors.Keys == byId.Keys
      invariant forall d | d in byId :: successors[d] == before[d] + (if d in deps[..j] then [n.id] else [])
      invariant forall d | d in deps[..j] :: d in byId
    {
      if deps[j] !in byId { return successors, Some(deps[j]); }
      successors := successors[deps[j] := successors[deps[j]] + [n.id]];
      assert deps[..j + 1] == deps[..j] + [deps[j]];
    }
    assert deps[..|deps|] == deps;
    return successors, None;
  }

  lemma DependenciesDiffer(n: NodeDef)
    ensures NoRepeats(Dependencies(n))
  {
  }

  lemma KnownToAll(nodes: seq<NodeDef>, byId: ById)
    requires Indexes(nodes, byId)
    ensures KnownIds(nodes) <==> forall n | n in nodes :: KnownTo(byId, n)
  {
    hide Dependencies;
    assert forall d :: d in byId <==> d in Ids(nodes);
    if KnownIds(nodes) {
      forall n | n in nodes ensures KnownTo(byId, n) {}
    }
  }

  lemma ChildrenNext(nodes: seq<NodeDef>, i: nat, d: string)
    requires i < |nodes|
    ensures Children(nodes[..i + 1], d) == Children(nodes[..i], d) + (if d in Dependencies(nodes[i]) then [nodes[i].id] else [])
  {
    hide Dependencies;
    assert nodes[..i + 1][..i] == nodes[..i];
  }

  lemma EveryNode(nodes: seq<NodeDef>)
    ensures forall n :: n in nodes <==> exists k | 0 <= k < |nodes| :: nodes[k] == n
    ensures nodes[..0] == [] && forall d :: Children([], d) == []
  {
  }

  /** The successor lists, or the first dependency that no node has. */
  method Link(nodes: seq<NodeDef>, byId: ById) returns (successors: map<string, seq<string>>, unknown: Option<string>)
    requires DistinctIds(nodes) && Indexes(nodes, byId)
    ensures unknown.None? <==> KnownIds(nodes)
    ensures unknown.None? ==> Linked(nodes, byId, successors)
  {
    hide Dependencies, KnownTo, Children, KnownIds, Indexes, DistinctIds;
    KnownToAll(nodes, byId);
    EveryNode(nodes);
    successors := map k | k in byId :: [];
    for i := 0 to |nodes|
      invariant Linked(nodes[..i], byId, successors)
      invariant forall k | 0 <= k < i :: KnownTo(byId, nodes[k])
    {
      successors, unknown := LinkNode(byId, successors, nodes[i]);
      if unknown.Some? { return; }
      forall d
        ensures Children(nodes[..i + 1], d)
             == Children(nodes[..i], d) + (if d in Dependencies(nodes[i]) then [nodes[i].id] else [])
      {
        ChildrenNext(nodes, i, d);
      }
    }
    assert nodes[..|nodes|] == nodes;
    return successors, None;
  }

  /** The nodes done so far, each after all it depends on. */
  ghost predicate Done(nodes: seq<NodeDef>, byId: ById, order: seq<string>) {
    && NoRepeats(order) && Elements(order) <= byId.Keys
    && forall i | 0 <= i < |order| :: ReadyAfter(nodes, order[i], Elements(order[..i]))
  }

  ghost predicate Queued(byId: ById, degrees: map<string, nat>, ready: seq<string>, order: seq<string>)
    requires degrees.Keys == byId.Keys
  {
    NoRepeats(ready) && forall k :: k in ready <==> k in byId && k !in order && degrees[k] == 0
  }

  /** What holds between two turns of the loop. */
  ghost predicate Sorting(nodes: seq<NodeDef>, byId: ById, degrees: map<string, nat>, ready: seq<string>,
                          order: seq<string>)
  {
    Done(nodes, byId, order) && Counted(byId, degrees, Elements(order)) && Queued(byId, degrees, ready, order)
  }

  method InitiallyReady(nodes: seq<NodeDef>, byId: ById, degrees: map<string, nat>) returns (ready: seq<string>)
    requires DistinctIds(nodes) && Indexes(nodes, byId) && degrees.Keys == byId.Keys
    ensures NoRepeats(ready) && forall k :: k in ready <==> k in byId && degrees[k] == 0
  {
    ready := [];
    for i := 0 to |nodes|
      invariant NoRepeats(ready)
      invariant forall k :: k in ready <==> k in Ids(nodes)[..i] && degrees[k] == 0
    {
      var key := nodes[i].id;
      assert Ids(nodes)[i] == key && Ids(nodes)[..i + 1] == Ids(nodes)[..i] + [key];
      assert key !in Ids(nodes)[..i];
      if degrees[key] == 0 { ready := ready + [key]; }
    }
    assert Ids(nodes)[..|nodes|] == Ids(nodes);
  }

  /** A child of a node that is only now done is neither done nor that node. */
  lemma ChildIsLater(nodes: seq<NodeDef>, byId: ById, degrees: map<string, nat>, ready: seq<string>,
                     order: seq<string>, child: string)
    requires DistinctIds(nodes) && Indexes(nodes, byId) && Sorting(nodes, byId, degrees, ready, order) && ready != []
    requires Edge(nodes, ready[0], child) && child in byId
    ensures child !in order && child != ready[0] && degrees[child] > 0
  {
    hide Dependencies, Edge, Pending;
    var key := ready[0];
    assert key in ready;
    EdgesInto(nodes, byId, child);
    NothingPending(Dependencies(byId[child]), Elements(order));
    if child in order {
      var i := PlaceOf(order, child);
      DoneBefore(nodes, byId, order, i, key);
    }
  }

  lemma DoneBefore(nodes: seq<NodeDef>, byId: ById, order: seq<string>, i: nat, d: string)
    requires Done(nodes, byId, order) && i < |order| && Edge(nodes, d, order[i])
    ensures d in order
  {
    hide Edge;
    assert d in Elements(order[..i]);
  }

  /** The inner loop of `topological_order`: the first ready node is done. */
  method Complete(nodes: seq<NodeDef>, byId: ById, successors: map<string, seq<string>>,
                  before: map<string, nat>, waiting: seq<string>, order: seq<string>)
    returns (degrees: map<string, nat>, ready: seq<string>)
    requires DistinctIds(nodes) && Indexes(nodes, byId) && Linked(nodes, byId, successors)
    requires Sorting(nodes, byId, before, waiting, order) && waiting != []
    ensures Sorting(nodes, byId, degrees, ready, order + [waiting[0]])
  {
    hide Dependencies, Edge, Pending, Children, Done, Indexes, DistinctIds;
    var key := waiting[0];
    assert key in waiting;
    degrees, ready := before, waiting[1..];
    var children := successors[key];
    ghost var done := Elements(order);
    ChildrenAre(nodes, key);
    for j := 0 to |children|
      invariant degrees.Keys == byId.Keys
      invariant forall k | k in byId :: degrees[k] + (if k in children[..j] then 1 else 0) == before[k]
      invariant NoRepeats(ready) && forall k :: k in ready <==> k in byId && k !in order && k != key && degrees[k] == 0
    {
      var child := children[j];
      assert child in children && child !in children[..j] && children[..j + 1] == children[..j] + [child];
      ChildIsNode(nodes, byId, key, child);
      ChildIsLater(nodes, byId, before, waiting, order, child);
      degrees := degrees[child := degrees[child] - 1];
      if degrees[child] == 0 { ready := ready + [child]; }
    }
    assert children[..|children|] == children;
    Recounted(nodes, byId, before, order, key, children, degrees);
    Extended(nodes, byId, before, waiting, order);
  }

  /** Taking one off for each child leaves the right counts. */
  lemma Recounted(nodes: seq<NodeDef>, byId: ById, before: map<string, nat>, order: seq<string>, key: string,
                  children: seq<string>, degrees: map<string, nat>)
    requires DistinctIds(nodes) && Indexes(nodes, byId) && Counted(byId, before, Elements(order)) && key !in order
    requires degrees.Keys == byId.Keys && children == Children(nodes, key)
    requires forall k | k in byId :: degrees[k] + (if k in children then 1 else 0) == before[k]
    ensures Counted(byId, degrees, Elements(order + [key]))
  {
    hide Dependencies, Edge, Pending, Children;
    ChildrenAre(nodes, key);
    assert Elements(order + [key]) == Elements(order) + {key};
    forall k | k in byId ensures degrees[k] == Pending(Dependencies(byId[k]), Elements(order + [key])) {
      EdgesInto(nodes, byId, k);
      PendingWithOneMore(Dependencies(byId[k]), Elements(order), key);
    }
  }

  lemma ChildIsNode(nodes: seq<NodeDef>, byId: ById, d: string, k: string)
    requires Indexes(nodes, byId) && Edge(nodes, d, k)
    ensures k in byId
  {
    var n :| n in nodes && n.id == k;
    var i :| 0 <= i < |nodes| && nodes[i] == n;
    assert Ids(nodes)[i] == k;
  }

  lemma Extended(nodes: seq<NodeDef>, byId: ById, degrees: map<string, nat>, ready: seq<string>, order: seq<string>)
    requires DistinctIds(nodes) && Indexes(nodes, byId) && Sorting(nodes, byId, degrees, ready, order) && ready != []
    ensures Done(nodes, byId, order + [ready[0]])
  {
    hide Dependencies, Edge, Pending;
    var key, more := ready[0], order + [ready[0]];
    assert key in ready;
    EdgesInto(nodes, byId, key);
    NothingPending(Dependencies(byId[key]), Elements(order));
    forall i | 0 <= i < |more| ensures ReadyAfter(nodes, more[i], Elements(more[..i])) {
      assert more[..i] == order[..i];
      if i == |order| { assert order[..i] == order; }
    }
  }

  /** When nothing is ready, either every node is done or the rest waits in circles. */
  lemma NothingReady(nodes: seq<NodeDef>, byId: ById, degrees: map<string, nat>, order: seq<string>)
    requires DistinctIds(nodes) && Indexes(nodes, byId) && KnownIds(nodes) && Sorting(nodes, byId, degrees, [], order)
    ensures if |order| == |byId| then IsOrder(nodes, order) && !HasCycle(nodes) else HasCycle(nodes)
  {
    hide Dependencies, Pending, Edge;
    SizeOfDistinct(order);
    SubsetOfSameSize(Elements(order), byId.Keys);
    if |order| == |byId| {
      OrderedIsAcyclic(nodes, order);
    } else {
      var rest := byId.Keys - Elements(order);
      SomeRemain(byId, order);
      forall k | k in rest ensures WaitsInside(nodes, rest, k) { WaitsForRest(nodes, byId, degrees, order, k); }
      StuckHasCycle(nodes, rest);
    }
  }

  lemma SomeRemain(byId: ById, order: seq<string>)
    requires Elements(order) <= byId.Keys && Elements(order) != byId.Keys
    ensures byId.Keys - Elements(order) != {}
  {
    var k :| k in byId.Keys && k !in Elements(order);
    assert k in byId.Keys - Elements(order);
  }

  lemma WaitsForRest(nodes: seq<NodeDef>, byId: ById, degrees: map<string, nat>, order: seq<string>, k: string)
    requires DistinctIds(nodes) && Indexes(nodes, byId) && KnownIds(nodes) && Sorting(nodes, byId, degrees, [], order)
    requires k in byId && k !in order
    ensures WaitsInside(nodes, byId.Keys - Elements(order), k)
  {
    hide Dependencies, Pending, Edge;
    var none: seq<string> := [];
    assert k !in none && degrees[k] != 0;
    EdgesInto(nodes, byId, k);
    NothingPending(Dependencies(byId[k]), Elements(order));
    var d :| d in Dependencies(byId[k]) && d !in Elements(order);
    assert d in Ids(nodes);
    assert d in byId.Keys - Elements(order) && Edge(nodes, d, k);
  }

  /** `topological_order`. */
  method TopologicalOrder(nodes: seq<NodeDef>) returns (reply: OrderReply)
    ensures reply.Order? <==> DistinctIds(nodes) && KnownIds(nodes) && !HasCycle(nodes)
    ensures reply.Order? ==> IsOrder(nodes, reply.ids)
    ensures reply.DuplicateIds? <==> !DistinctIds(nodes)
    ensures reply.UnknownDependency? <==> DistinctIds(nodes) && !KnownIds(nodes)
    ensures reply.CycleFound? <==> DistinctIds(nodes) && KnownIds(nodes) && HasCycle(nodes)
  {
    hide Dependencies, Pending, Sorting, DistinctIds, KnownIds, HasCycle, Indexes, Linked;
    var byId, distinct := Index(nodes);
    if !distinct { return DuplicateIds; }
    var degrees: map<string, nat> := map k | k in byId :: |Dependencies(byId[k])|;
    var successors, unknown := Link(nodes, byId);
    if unknown.Some? { return UnknownDependency(unknown.value); }
    var ready := InitiallyReady(nodes, byId, degrees);
    var order: seq<string> := [];
    StartSorting(nodes, byId, degrees, ready);
    while ready != []
      invariant Sorting(nodes, byId, degrees, ready, order)
      decreases byId.Keys - Elements(order)
    {
      var key := ready[0];
      OneMoreDone(nodes, byId, degrees, ready, order);
      degrees, ready := Complete(nodes, byId, successors, degrees, ready, order);
      order := order + [key];
    }
    NothingReady(nodes, byId, degrees, order);
    if |order| != |byId| { return CycleFound; }
    return Order(order);
  }

  lemma StartSorting(nodes: seq<NodeDef>, byId: ById, degrees: map<string, nat>, ready: seq<string>)
    requires degrees.Keys == byId.Keys && forall k | k in byId :: degrees[k] == |Dependencies(byId[k])|
    requires NoRepeats(ready) && forall k :: k in ready <==> k in byId && degrees[k] == 0
    ensures Sorting(nodes, byId, degrees, ready, [])
  {
    hide Dependencies;
    assert Elements([]) == {};
    forall k | k in byId ensures degrees[k] == Pending(Dependencies(byId[k]), {}) { PendingOfNone(Dependencies(byId[k])); }
  }

  lemma OneMoreDone(nodes: seq<NodeDef>, byId: ById, degrees: map<string, nat>, ready: seq<string>, order: seq<string>)
    requires Sorting(nodes, byId, degrees, ready, order) && ready != []
    ensures byId.Keys - Elements(order + [ready[0]]) < byId.Keys - Elements(order)
  {
    hide Dependencies, Pending;
    assert ready[0] in ready;
    assert Elements(order + [ready[0]]) == Elements(order) + {ready[0]};
    assert ready[0] in byId.Keys - Elements(order);
  }
}
