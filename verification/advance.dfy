/** What one pass of reconciliation computes: the unique solution of the node-state equations. */
module Advance {
  import opened Types
  import opened Rows
  import opened Bindings
  import opened Graph
  import opened Orders
  import opened Protocol
  import opened Invariants

  type States = map<string, NodeState>

  predicate DependencyFailed(n: NodeDef, st: States) {
    exists d | d in Dependencies(n) :: d in st && (st[d] == NodeFailed || st[d] == Skipped)
  }

  predicate DependenciesSucceeded(n: NodeDef, st: States) {
    forall d | d in Dependencies(n) :: d in st && st[d] == NodeSuccess
  }

  /** The equation of one node, from its stored row and task and the states of its predecessors. */
  function Target(s: Db, wf: string, n: NodeDef, st: States): NodeState
    requires HasNode(s, wf, n)
  {
    var t := NodeTask(wf, n.id);
    var stored := s.nodes[t].state;
    if stored == Waiting then
      if DependencyFailed(n, st) then Skipped
      else if !DependenciesSucceeded(n, st) then Waiting
      else if Materialize(n, Outputs(s.tasks, wf, n)).Some? then Ready
      else NodeFailed
    else if stored == Skipped || stored == NodeFailed then stored
    else Mirror(s.tasks[t].status)
  }

  ghost predicate Complete(s: Db, wf: string) {
    wf in s.runs && forall n | n in s.runs[wf].def.nodes :: HasNode(s, wf, n)
  }

  ghost predicate SolvesAt(s: Db, wf: string, st: States, n: NodeDef)
    requires HasNode(s, wf, n)
  {
    n.id in st && st[n.id] == Target(s, wf, n, st)
  }

  ghost predicate Solves(s: Db, wf: string, st: States) {
    && Complete(s, wf)
    && st.Keys == Elements(Ids(s.runs[wf].def.nodes))
    && forall n | n in s.runs[wf].def.nodes :: SolvesAt(s, wf, st, n)
  }

  // ---------------------------------------------------------------- what the pass writes

  function NodeWritten(x: NodeRow, state: NodeState): NodeRow {
    x.(state := state,
       error := if x.state == Waiting && state == Skipped then Some(DEPENDENCY_FAILED)
                else if x.state == Waiting && state == NodeFailed then Some(BINDING_FAILED)
                else x.error)
  }

  /** The gate opens, with the resolved arguments, exactly when a waiting node becomes READY. */
  function TaskWritten(x: NodeRow, r: TaskRow, state: NodeState, kwargs: Option<map<string, Json>>): TaskRow {
    if x.state == Waiting && state == Ready && kwargs.Some? && RowGuard(r, OpenGate(kwargs.value))
    then RowApply(r, OpenGate(kwargs.value))
    else if x.state == Waiting && state == NodeFailed && RowGuard(r, FailBinding) then RowApply(r, FailBinding)
    else r
  }

  function RunStatusOf(nodes: seq<NodeDef>, st: States): RunStatus {
    if forall n | n in nodes :: n.id in st && st[n.id] == NodeSuccess then RunSuccess
    else if forall n | n in nodes :: n.id in st && st[n.id] in {NodeSuccess, NodeFailed, Skipped} then RunFailed
    else RunRunning
  }

  ghost predicate WrittenAt(s: Db, s': Db, wf: string, st: States, n: NodeDef) {
    var t := NodeTask(wf, n.id);
    && n.id in st && t in s.nodes && t in s.tasks && t in s'.nodes && t in s'.tasks
    && s'.nodes[t] == NodeWritten(s.nodes[t], st[n.id])
    && s'.tasks[t] == TaskWritten(s.nodes[t], s.tasks[t], st[n.id], Materialize(n, Outputs(s.tasks, wf, n)))
  }

  /** The nodes with these ids were written, and no other row. */
  ghost predicate Written(s: Db, s': Db, wf: string, st: States, ids: set<string>) {
    && wf in s.runs
    && s'.nodes.Keys == s.nodes.Keys && s'.tasks.Keys == s.tasks.Keys
    && (forall n | n in s.runs[wf].def.nodes && n.id in ids :: WrittenAt(s, s', wf, st, n))
    && (forall t | t in s.nodes && !(t.NodeTask? && t.workflow == wf && t.node in ids) :: s'.nodes[t] == s.nodes[t])
    && (forall t | t in s.tasks && !(t.NodeTask? && t.workflow == wf && t.node in ids) :: s'.tasks[t] == s.tasks[t])
  }

  ghost predicate PassedWith(s: Db, s': Db, wf: string, st: States) {
    && Solves(s, wf, st) && Written(s, s', wf, st, st.Keys)
    && s' == s.(tasks := s'.tasks, nodes := s'.nodes,
                runs := s.runs[wf := s.runs[wf].(status := RunStatusOf(s.runs[wf].def.nodes, st))])
  }

  /** What `_advance` does: it pauses a held run, and otherwise writes the solution. */
  ghost predicate Advanced(s: Db, s': Db, wf: string) {
    && wf in s.runs
    && if HeldWorkflow(s, wf) then s' == s.(runs := s.runs[wf := s.runs[wf].(status := Paused)])
       else exists st :: PassedWith(s, s', wf, st)
  }

  // ---------------------------------------------------------------- uniqueness

  lemma SameStatesSameTarget(s: Db, wf: string, n: NodeDef, st: States, st': States)
    requires HasNode(s, wf, n) && forall d | d in Dependencies(n) :: d in st && d in st' && st[d] == st'[d]
    ensures Target(s, wf, n, st) == Target(s, wf, n, st')
  {
  }

  ghost predicate DiffersAt(st: States, st': States, k: string) { k in st && k in st' && st[k] != st'[k] }

  ghost function Differing(st: States, st': States): set<string> { set d | (d in st && DiffersAt(st, st', d)) }

  lemma DifferenceHasCause(s: Db, wf: string, st: States, st': States, k: string)
    requires Solves(s, wf, st) && Solves(s, wf, st') && KnownIds(s.runs[wf].def.nodes) && DiffersAt(st, st', k)
    ensures WaitsInside(s.runs[wf].def.nodes, Differing(st, st'), k)
  {
    hide Target, Dependencies;
    var nodes := s.runs[wf].def.nodes;
    assert k in Ids(nodes);
    var i :| 0 <= i < |nodes| && Ids(nodes)[i] == k;
    var n := nodes[i];
    assert SolvesAt(s, wf, st, n) && SolvesAt(s, wf, st', n);
    if forall d | d in Dependencies(n) :: d in st && d in st' && st[d] == st'[d] {
      SameStatesSameTarget(s, wf, n, st, st');
      assert false;
    } else {
      var d :| d in Dependencies(n) && !(d in st && d in st' && st[d] == st'[d]);
      assert d in Ids(nodes) && d in Elements(Ids(nodes));
      assert DiffersAt(st, st', d) && Edge(nodes, d, k);
    }
  }

  /** The node-state equations of an acyclic workflow have at most one solution, so the result of a pass
      does not depend on the topological order in which it visits the nodes. */
  lemma UniqueSolution(s: Db, wf: string, st: States, st': States)
    requires Solves(s, wf, st) && Solves(s, wf, st') && WellFormed(s.runs[wf].def.nodes)
    ensures st == st'
  {
    hide Solves, WaitsInside, HasCycle, Edge;
    SameKeys(s, wf, st, st');
    var differing := Differing(st, st');
    if differing != {} {
      forall k | k in differing ensures WaitsInside(s.runs[wf].def.nodes, differing, k) {
        DifferenceHasCause(s, wf, st, st', k);
      }
      StuckHasCycle(s.runs[wf].def.nodes, differing);
    } else {
      forall k | k in st ensures st[k] == st'[k] {
        assert k in differing <==> DiffersAt(st, st', k);
      }
    }
  }

  lemma SameKeys(s: Db, wf: string, st: States, st': States)
    requires Solves(s, wf, st) && Solves(s, wf, st')
    ensures st.Keys == st'.Keys && wf in s.runs
  {
  }

  lemma SameAt(s: Db, a: Db, b: Db, wf: string, st: States, t: TaskId)
    requires wf in s.runs && st.Keys == Elements(Ids(s.runs[wf].def.nodes))
    requires Written(s, a, wf, st, st.Keys) && Written(s, b, wf, st, st.Keys)
    ensures t in s.nodes ==> t in a.nodes && t in b.nodes && a.nodes[t] == b.nodes[t]
    ensures t in s.tasks ==> t in a.tasks && t in b.tasks && a.tasks[t] == b.tasks[t]
  {
    hide NodeWritten, TaskWritten, Materialize, Outputs;
    assert t in s.nodes.Keys <==> t in a.nodes.Keys;
    assert t in s.tasks.Keys <==> t in a.tasks.Keys;
    if t.NodeTask? && t.workflow == wf && t.node in st.Keys {
      var i :| 0 <= i < |Ids(s.runs[wf].def.nodes)| && Ids(s.runs[wf].def.nodes)[i] == t.node;
      var n := s.runs[wf].def.nodes[i];
      assert n in s.runs[wf].def.nodes && n.id in st.Keys;
      assert WrittenAt(s, a, wf, st, n) && WrittenAt(s, b, wf, st, n);
    }
  }

  lemma SameWritten(s: Db, a: Db, b: Db, wf: string, st: States)
    requires PassedWith(s, a, wf, st) && PassedWith(s, b, wf, st)
    ensures a == b
  {
    hide Solves, Elements, RunStatusOf, Written;
    assert wf in s.runs && st.Keys == Elements(Ids(s.runs[wf].def.nodes)) by { SolutionKeys(s, wf, st); }
    forall t ensures t in s.nodes ==> t in a.nodes && t in b.nodes && a.nodes[t] == b.nodes[t]
      ensures t in s.tasks ==> t in a.tasks && t in b.tasks && a.tasks[t] == b.tasks[t]
    {
      SameAt(s, a, b, wf, st, t);
    }
    SameKeysOf(s, a, b, wf, st);
    assert a.nodes == b.nodes && a.tasks == b.tasks;
  }

  lemma SameKeysOf(s: Db, a: Db, b: Db, wf: string, st: States)
    requires Written(s, a, wf, st, st.Keys) && Written(s, b, wf, st, st.Keys)
    ensures a.nodes.Keys == b.nodes.Keys == s.nodes.Keys && a.tasks.Keys == b.tasks.Keys == s.tasks.Keys
  {
    hide WrittenAt;
  }

  lemma SolutionKeys(s: Db, wf: string, st: States)
    requires Solves(s, wf, st)
    ensures wf in s.runs && st.Keys == Elements(Ids(s.runs[wf].def.nodes))
    ensures forall n | n in s.runs[wf].def.nodes :: n.id in st && HasNode(s, wf, n) && SolvesAt(s, wf, st, n)
  {
  }

  /** A pass has one possible result, whatever topological order it follows. */
  lemma PassIsDeterministic(s: Db, a: Db, b: Db, wf: string)
    requires Advanced(s, a, wf) && Advanced(s, b, wf) && WellFormed(s.runs[wf].def.nodes)
    ensures a == b
  {
    if !HeldWorkflow(s, wf) {
      var x :| PassedWith(s, a, wf, x);
      var y :| PassedWith(s, b, wf, y);
      hide Solves, WellFormed, Written, HeldWorkflow;
      UniqueSolution(s, wf, x, y);
      SameWritten(s, a, b, wf, x);
    }
  }

  // ---------------------------------------------------------------- running a pass again

  /** What a pass wrote solves the equations of the state it left, and would be written again. */
  lemma SolvedAgain(s: Db, s': Db, wf: string, st: States, n: NodeDef)
    requires HasNode(s, wf, n) && NodeOk(s.nodes, s.tasks, wf, n) && SolvesAt(s, wf, st, n) && WrittenAt(s, s', wf, st, n)
    requires wf in s'.runs && s'.runs[wf].def == s.runs[wf].def
    ensures HasNode(s', wf, n) && SolvesAt(s', wf, st, n) && WrittenAt(s', s', wf, st, n)
  {
    hide Materialize, Outputs, Frozen, AllSucceeded, SomeFailed, DependencyFailed, DependenciesSucceeded;
  }

  lemma PassedNode(s: Db, s': Db, wf: string, st: States, n: NodeDef)
    requires PassedWith(s, s', wf, st) && n in s.runs[wf].def.nodes
    ensures HasNode(s, wf, n) && SolvesAt(s, wf, st, n) && WrittenAt(s, s', wf, st, n)
  {
    hide Target, NodeWritten, TaskWritten, WrittenAt;
    SolutionKeys(s, wf, st);
    assert n.id in st.Keys;
  }

  lemma NodeOfFlow(s: Db, wf: string, n: NodeDef)
    requires FlowOk(s.runs, s.nodes, s.tasks) && wf in s.runs && n in s.runs[wf].def.nodes
    ensures NodeOk(s.nodes, s.tasks, wf, n) && HasNode(s, wf, n)
  {
    hide HasDefinition, WellFormed;
    assert NodeOk(s.nodes, s.tasks, wf, n);
  }

  lemma PassedAgain(s: Db, s': Db, wf: string, st: States)
    requires FlowOk(s.runs, s.nodes, s.tasks) && PassedWith(s, s', wf, st)
    ensures PassedWith(s', s', wf, st)
  {
    hide SolvesAt, WrittenAt, NodeOk, FlowOk, RunStatusOf, HasNode;
    SolutionKeys(s, wf, st);
    forall n | n in s.runs[wf].def.nodes
      ensures HasNode(s', wf, n) && SolvesAt(s', wf, st, n) && WrittenAt(s', s', wf, st, n)
    {
      PassedNode(s, s', wf, st, n);
      NodeOfFlow(s, wf, n);
      SolvedAgain(s, s', wf, st, n);
    }
    assert Solves(s', wf, st);
    assert Written(s', s', wf, st, st.Keys);
  }

  /** Running the pass again with no other change alters nothing. */
  lemma PassIsIdempotent(s: Db, s': Db, s'': Db, wf: string)
    requires FlowOk(s.runs, s.nodes, s.tasks) && Advanced(s, s', wf) && Advanced(s', s'', wf)
    ensures s'' == s'
  {
    if !HeldWorkflow(s, wf) {
      var st :| PassedWith(s, s', wf, st);
      PassedAgain(s, s', wf, st);
      hide Solves, Written, NodeOk, HasDefinition;
      assert WellFormed(s.runs[wf].def.nodes);
      hide WellFormed;
      assert Advanced(s', s', wf);
      PassIsDeterministic(s', s', s'', wf);
    }
  }

  // ---------------------------------------------------------------- progress

  predicate Active(state: NodeState) { state == Ready || state == NodeRunning || state == NodeRetrying }

  predicate Terminal(state: NodeState) { state == NodeSuccess || state == NodeFailed || state == Skipped }

  ghost function WaitingIds(st: States): set<string> { set k | k in st && st[k] == Waiting }

  lemma WaitingHasCause(s: Db, wf: string, st: States, k: string)
    requires Solves(s, wf, st) && KnownIds(s.runs[wf].def.nodes) && k in WaitingIds(st)
    requires forall d | d in st :: !Active(st[d])
    ensures WaitsInside(s.runs[wf].def.nodes, WaitingIds(st), k)
  {
    hide Dependencies, Materialize, Outputs;
    var nodes := s.runs[wf].def.nodes;
    assert k in Ids(nodes);
    var i :| 0 <= i < |nodes| && Ids(nodes)[i] == k;
    var n := nodes[i];
    assert SolvesAt(s, wf, st, n);
    assert !DependencyFailed(n, st) && !DependenciesSucceeded(n, st);
    var d :| d in Dependencies(n) && !(d in st && st[d] == NodeSuccess);
    assert d in Ids(nodes) && d in Elements(Ids(nodes));
    assert d in WaitingIds(st) && Edge(nodes, d, k);
  }

  lemma StatusMeans(nodes: seq<NodeDef>, st: States)
    requires st.Keys == Elements(Ids(nodes))
    requires (forall d | d in st :: !Active(st[d])) ==> WaitingIds(st) == {}
    ensures forall n | n in nodes :: n.id in st
    ensures RunStatusOf(nodes, st) == RunSuccess <==> forall n | n in nodes :: st[n.id] == NodeSuccess
    ensures RunStatusOf(nodes, st) in {RunSuccess, RunFailed} <==> forall n | n in nodes :: Terminal(st[n.id])
    ensures RunStatusOf(nodes, st) in {RunSuccess, RunFailed} || exists n | n in nodes :: Active(st[n.id])
  {
    forall n | n in nodes ensures n.id in st.Keys {
      var i :| 0 <= i < |nodes| && nodes[i] == n;
      assert Ids(nodes)[i] == n.id;
    }
    if forall n | n in nodes :: !Active(st[n.id]) {
      forall d | d in st ensures !Active(st[d]) { IdHasNode(nodes, d); }
      forall n | n in nodes ensures Terminal(st[n.id]) { assert n.id !in WaitingIds(st); }
    }
  }

  lemma NoStuckPass(s: Db, s': Db, wf: string, st: States)
    requires wf in s.runs && WellFormed(s.runs[wf].def.nodes) && PassedWith(s, s', wf, st)
    ensures var nodes, status := s.runs[wf].def.nodes, s'.runs[wf].status;
      && (forall n | n in nodes :: n.id in st)
      && (status == RunSuccess <==> forall n | n in nodes :: st[n.id] == NodeSuccess)
      && (status in {RunSuccess, RunFailed} <==> forall n | n in nodes :: Terminal(st[n.id]))
      && (status in {RunSuccess, RunFailed} || exists n | n in nodes :: Active(st[n.id]))
  {
    SolutionKeys(s, wf, st);
    hide Written, SolvesAt, WellFormed, HasNode, RunStatusOf;
    if forall d | d in st :: !Active(st[d]) { NothingWaits(s, wf, st); }
    StatusMeans(s.runs[wf].def.nodes, st);
  }

  ghost function StateNow(s: Db, wf: string, n: NodeDef): NodeState {
    if NodeTask(wf, n.id) in s.nodes then s.nodes[NodeTask(wf, n.id)].state else Waiting
  }

  /** No workflow gets stuck: after a pass that nothing holds, either every node is terminal, and then the
      run is SUCCESS or FAILED, or some node is READY, RUNNING or RETRYING. */
  lemma NoStuckWorkflow(s: Db, s': Db, wf: string)
    requires FlowOk(s.runs, s.nodes, s.tasks) && Advanced(s, s', wf) && !HeldWorkflow(s, wf)
    ensures var nodes := s.runs[wf].def.nodes;
      && wf in s'.runs
      && (s'.runs[wf].status == RunSuccess <==> forall n | n in nodes :: StateNow(s', wf, n) == NodeSuccess)
      && (s'.runs[wf].status in {RunSuccess, RunFailed} <==> forall n | n in nodes :: Terminal(StateNow(s', wf, n)))
      && (s'.runs[wf].status in {RunSuccess, RunFailed} || exists n | n in nodes :: Active(StateNow(s', wf, n)))
  {
    var st :| PassedWith(s, s', wf, st);
    assert WellFormed(s.runs[wf].def.nodes);
    NoStuckPass(s, s', wf, st);
    forall n | n in s.runs[wf].def.nodes ensures StateNow(s', wf, n) == st[n.id] { PassedNode(s, s', wf, st, n); }
    hide Solves, Written, WellFormed, NodeOk, HasDefinition, HeldWorkflow;
  }

  lemma IdHasNode(nodes: seq<NodeDef>, d: string)
    requires d in Elements(Ids(nodes))
    ensures exists n | n in nodes :: n.id == d
  {
    var i :| 0 <= i < |nodes| && Ids(nodes)[i] == d;
    assert nodes[i] in nodes;
  }

  lemma NothingWaits(s: Db, wf: string, st: States)
    requires Solves(s, wf, st) && WellFormed(s.runs[wf].def.nodes) && forall d | d in st :: !Active(st[d])
    ensures WaitingIds(st) == {}
  {
    SolutionKeys(s, wf, st);
    hide Solves, WaitsInside, HasCycle, Edge;
    if WaitingIds(st) != {} {
      forall k | k in WaitingIds(st) ensures WaitsInside(s.runs[wf].def.nodes, WaitingIds(st), k) {
        WaitingHasCause(s, wf, st, k);
      }
      StuckHasCycle(s.runs[wf].def.nodes, WaitingIds(st));
    }
  }
}
