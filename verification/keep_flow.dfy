/** Workflow nodes: what each step does to the agreement between nodes, tasks and definitions. */
module KeepFlow {
  import opened Types
  import opened Rows
  import opened Bindings
  import opened Graph
  import opened Protocol
  import opened Invariants

  // ---------------------------------------------------------------- results that are read

  lemma SourcesAreDependencies(n: NodeDef)
    ensures forall d | d in SourceIds(n) :: d in Dependencies(n)
  {
    forall d | d in SourceIds(n) ensures d in Dependencies(n) {
      var slot :| slot in Slots(n) && slot.source.node == d;
      var i :| 0 <= i < |Slots(n)| && Slots(n)[i] == slot;
      assert SourceNodes(Slots(n))[i] == d;
    }
  }

  lemma OutputsUnchanged(tasks: map<TaskId, TaskRow>, tasks': map<TaskId, TaskRow>, wf: string, n: NodeDef)
    requires forall d | d in SourceIds(n) :: var t := NodeTask(wf, d);
               (t in tasks <==> t in tasks') && (t in tasks ==> tasks[t].result == tasks'[t].result)
    ensures Outputs(tasks, wf, n) == Outputs(tasks', wf, n)
  {
  }

  /** The results a dispatched node reads belong to successful tasks, which no step changes. */
  ghost predicate DependenciesDone(nodes: map<TaskId, NodeRow>, tasks: map<TaskId, TaskRow>, wf: string, n: NodeDef) {
    AllSucceeded(nodes, wf, n) ==>
      forall d | d in Dependencies(n) :: NodeTask(wf, d) in tasks && tasks[NodeTask(wf, d)].status == Success
  }

  lemma DependencyNode(defs: seq<NodeDef>, n: NodeDef, d: string) returns (m: NodeDef)
    requires KnownIds(defs) && n in defs && d in Dependencies(n)
    ensures m in defs && m.id == d
  {
    assert d in Ids(defs);
    var i :| 0 <= i < |Ids(defs)| && Ids(defs)[i] == d;
    m := defs[i];
  }

  /** What the invariant says about one node. */
  lemma NodeFacts(runs: map<string, RunRow>, nodes: map<TaskId, NodeRow>, tasks: map<TaskId, TaskRow>,
                  wf: string, n: NodeDef)
    requires FlowOk(runs, nodes, tasks) && wf in runs && n in runs[wf].def.nodes
    ensures NodeOk(nodes, tasks, wf, n) && DependenciesDone(nodes, tasks, wf, n)
  {
    forall d | d in Dependencies(n)
      ensures StateOf(nodes, wf, d) == Some(NodeSuccess) ==>
                NodeTask(wf, d) in tasks && tasks[NodeTask(wf, d)].status == Success
    {
      var m := DependencyNode(runs[wf].def.nodes, n, d);
      assert NodeOk(nodes, tasks, wf, m);
    }
  }

  lemma FrozenKept(tasks: map<TaskId, TaskRow>, tasks': map<TaskId, TaskRow>, wf: string, n: NodeDef, r: TaskRow)
    requires Frozen(tasks, wf, n, r)
    requires forall d | d in Dependencies(n) :: var t := NodeTask(wf, d);
               t in tasks && t in tasks' && tasks'[t].result == tasks[t].result
    ensures Frozen(tasks', wf, n, r)
  {
    SourcesAreDependencies(n);
    OutputsUnchanged(tasks, tasks', wf, n);
  }

  // ---------------------------------------------------------------- one row changes

  lemma NodeKeptByRow(nodes: map<TaskId, NodeRow>, tasks: map<TaskId, TaskRow>, t: TaskId, r': TaskRow, wf: string,
                      n: NodeDef)
    requires NodeOk(nodes, tasks, wf, n) && DependenciesDone(nodes, tasks, wf, n)
    requires t in tasks && tasks[t].status != Success
    requires t == NodeTask(wf, n.id) ==>
      r'.def == tasks[t].def && !r'.blocked && !tasks[t].blocked && tasks[t].status != Failed
    ensures NodeOk(nodes, tasks[t := r'], wf, n)
  {
    var r := tasks[NodeTask(wf, n.id)];
    if !r.blocked {
      FrozenKept(tasks, tasks[t := r'], wf, n, r);
    }
  }

  lemma RowKeepsDef(r: TaskRow, a: RowAction)
    requires RowGuard(r, a) && !r.blocked
    ensures RowApply(r, a).def == r.def && !RowApply(r, a).blocked && r.status != Success
  {
  }

  /** Starting, ending or refusing an attempt keeps every node in step. */
  lemma FlowKeptByRow(runs: map<string, RunRow>, nodes: map<TaskId, NodeRow>, tasks: map<TaskId, TaskRow>, t: TaskId,
                      r': TaskRow)
    requires FlowOk(runs, nodes, tasks) && t in tasks
    requires r'.def == tasks[t].def && !r'.blocked && !tasks[t].blocked
    requires tasks[t].status != Failed && tasks[t].status != Success
    ensures FlowOk(runs, nodes, tasks[t := r'])
  {
    forall wf, n | wf in runs && n in runs[wf].def.nodes ensures NodeOk(nodes, tasks[t := r'], wf, n) {
      NodeFacts(runs, nodes, tasks, wf, n);
      NodeKeptByRow(nodes, tasks, t, r', wf, n);
    }
  }

  // ---------------------------------------------------------------- one node changes

  /** The nodes of a graph other than `t` rely on the successes and on the reasons to skip. */
  predicate Reliable(nodes: map<TaskId, NodeRow>, tasks: map<TaskId, TaskRow>, t: TaskId, x: NodeRow, r: TaskRow) {
    && t in nodes && t in tasks
    && (nodes[t].state == NodeSuccess ==> x.state == NodeSuccess)
    && nodes[t].state != NodeFailed && nodes[t].state != Skipped
    && (tasks[t].status == Success ==> r == tasks[t])
  }

  lemma SucceededKept(nodes: map<TaskId, NodeRow>, t: TaskId, x: NodeRow, wf: string, n: NodeDef)
    requires AllSucceeded(nodes, wf, n) && t in nodes && (nodes[t].state == NodeSuccess ==> x.state == NodeSuccess)
    ensures AllSucceeded(nodes[t := x], wf, n)
  {
    forall d | d in Dependencies(n) ensures StateOf(nodes[t := x], wf, d) == Some(NodeSuccess) {
      assert StateOf(nodes, wf, d) == Some(NodeSuccess);
    }
  }

  lemma FailureKept(nodes: map<TaskId, NodeRow>, t: TaskId, x: NodeRow, wf: string, n: NodeDef)
    requires SomeFailed(nodes, wf, n) && t in nodes && nodes[t].state != NodeFailed && nodes[t].state != Skipped
    ensures SomeFailed(nodes[t := x], wf, n)
  {
    var d :| d in Dependencies(n) && (StateOf(nodes, wf, d) == Some(NodeFailed) || StateOf(nodes, wf, d) == Some(Skipped));
    assert StateOf(nodes[t := x], wf, d) == StateOf(nodes, wf, d);
  }

  lemma NodeKeptByOther(nodes: map<TaskId, NodeRow>, tasks: map<TaskId, TaskRow>, t: TaskId, x: NodeRow, r: TaskRow,
                        wf: string, n: NodeDef)
    requires NodeOk(nodes, tasks, wf, n) && DependenciesDone(nodes, tasks, wf, n)
    requires Reliable(nodes, tasks, t, x, r) && t != NodeTask(wf, n.id)
    ensures NodeOk(nodes[t := x], tasks[t := r], wf, n)
  {
    var u := NodeTask(wf, n.id);
    if AllSucceeded(nodes, wf, n) { SucceededKept(nodes, t, x, wf, n); }
    if SomeFailed(nodes, wf, n) { FailureKept(nodes, t, x, wf, n); }
    if !tasks[u].blocked { FrozenKept(tasks, tasks[t := r], wf, n, tasks[u]); }
  }

  predicate OnOneNode(a: FlowAction) { a.Dispatch? || a.RejectBinding? || a.SkipNode? || a.SyncNode? }

  /** What a step on one node writes to the node and to its task. */
  function NodeAfter(s: Db, a: FlowAction): NodeRow
    requires FlowGuard(s, a) && OnOneNode(a)
  {
    var x := s.nodes[NodeTask(a.wf, a.n.id)];
    match a
    case Dispatch(_, _) => x.(state := Ready)
    case RejectBinding(_, _) => x.(state := NodeFailed, error := Some(BINDING_FAILED))
    case SkipNode(_, _) => x.(state := Skipped, error := Some(DEPENDENCY_FAILED))
    case SyncNode(wf, n) => x.(state := Mirror(s.tasks[NodeTask(wf, n.id)].status))
  }

  function TaskAfter(s: Db, a: FlowAction): TaskRow
    requires FlowGuard(s, a) && OnOneNode(a)
  {
    var r := s.tasks[NodeTask(a.wf, a.n.id)];
    match a
    case Dispatch(wf, n) => RowApply(r, OpenGate(Materialize(n, Outputs(s.tasks, wf, n)).value))
    case RejectBinding(_, _) => RowApply(r, FailBinding)
    case _ => r
  }

  lemma NodeStepShape(s: Db, a: FlowAction)
    requires FlowGuard(s, a) && OnOneNode(a)
    ensures var t := NodeTask(a.wf, a.n.id);
      && t in s.nodes && t in s.tasks
      && FlowApply(s, a) == s.(nodes := s.nodes[t := NodeAfter(s, a)], tasks := s.tasks[t := TaskAfter(s, a)])
  {
    var t := NodeTask(a.wf, a.n.id);
    assert s.tasks[t := s.tasks[t]] == s.tasks;
  }

  lemma NodeStepReliable(s: Db, a: FlowAction)
    requires FlowGuard(s, a) && OnOneNode(a) && NodeOk(s.nodes, s.tasks, a.wf, a.n)
    ensures Reliable(s.nodes, s.tasks, NodeTask(a.wf, a.n.id), NodeAfter(s, a), TaskAfter(s, a))
  {
  }

  lemma DispatchedNode(nodes: map<TaskId, NodeRow>, tasks: map<TaskId, TaskRow>, wf: string, n: NodeDef, x: NodeRow,
                       r: TaskRow)
    requires NodeOk(nodes, tasks, wf, n) && DependenciesDone(nodes, tasks, wf, n) && AllSucceeded(nodes, wf, n)
    requires var t := NodeTask(wf, n.id);
      && tasks[t].blocked && nodes[t].state == Waiting && x.state == Ready && !r.blocked
      && Materialize(n, Outputs(tasks, wf, n)) == Some(r.def.kwargs) && r.def == tasks[t].def.(kwargs := r.def.kwargs)
      && r.result == tasks[t].result
    ensures var t := NodeTask(wf, n.id); NodeOk(nodes[t := x], tasks[t := r], wf, n)
  {
    var t := NodeTask(wf, n.id);
    SucceededKept(nodes, t, x, wf, n);
    FrozenKept(tasks, tasks[t := r], wf, n, r);
  }

  lemma RejectedNode(nodes: map<TaskId, NodeRow>, tasks: map<TaskId, TaskRow>, wf: string, n: NodeDef, x: NodeRow,
                     r: TaskRow)
    requires NodeOk(nodes, tasks, wf, n) && AllSucceeded(nodes, wf, n)
    requires var t := NodeTask(wf, n.id);
      && tasks[t].blocked && nodes[t].state == Waiting && x.state == NodeFailed
      && r.blocked && r.status == Failed && r.def == tasks[t].def
    ensures var t := NodeTask(wf, n.id); NodeOk(nodes[t := x], tasks[t := r], wf, n)
  {
    SucceededKept(nodes, NodeTask(wf, n.id), x, wf, n);
  }

  lemma SkippedNode(nodes: map<TaskId, NodeRow>, tasks: map<TaskId, TaskRow>, wf: string, n: NodeDef, x: NodeRow)
    requires NodeOk(nodes, tasks, wf, n) && SomeFailed(nodes, wf, n)
    requires nodes[NodeTask(wf, n.id)].state == Waiting && x.state == Skipped
    ensures NodeOk(nodes[NodeTask(wf, n.id) := x], tasks, wf, n)
  {
    FailureKept(nodes, NodeTask(wf, n.id), x, wf, n);
  }

  lemma SyncedNode(nodes: map<TaskId, NodeRow>, tasks: map<TaskId, TaskRow>, wf: string, n: NodeDef, x: NodeRow)
    requires NodeOk(nodes, tasks, wf, n)
    requires var t := NodeTask(wf, n.id);
      && !Undispatched(nodes[t].state) && nodes[t].state != NodeFailed && x.state == Mirror(tasks[t].status)
      && StatusShape(tasks[t])
    ensures NodeOk(nodes[NodeTask(wf, n.id) := x], tasks, wf, n)
  {
    SucceededKept(nodes, NodeTask(wf, n.id), x, wf, n);
  }

  lemma SameRow(tasks: map<TaskId, TaskRow>, t: TaskId)
    ensures t in tasks ==> tasks[t := tasks[t]] == tasks
  {
  }

  lemma TouchedNode(s: Db, a: FlowAction)
    requires FlowGuard(s, a) && OnOneNode(a) && NodeOk(s.nodes, s.tasks, a.wf, a.n) && DependenciesDone(s.nodes, s.tasks, a.wf, a.n)
    requires StatusShape(s.tasks[NodeTask(a.wf, a.n.id)])
    ensures var t := NodeTask(a.wf, a.n.id);
      NodeOk(s.nodes[t := NodeAfter(s, a)], s.tasks[t := TaskAfter(s, a)], a.wf, a.n)
  {
    hide NodeOk, Dependencies, Outputs, Materialize, Slots;
    var t := NodeTask(a.wf, a.n.id);
    SameRow(s.tasks, t);
    match a
    case Dispatch(wf, n) => DispatchedNode(s.nodes, s.tasks, wf, n, NodeAfter(s, a), TaskAfter(s, a));
    case RejectBinding(wf, n) => RejectedNode(s.nodes, s.tasks, wf, n, NodeAfter(s, a), TaskAfter(s, a));
    case SkipNode(wf, n) => SkippedNode(s.nodes, s.tasks, wf, n, NodeAfter(s, a));
    case SyncNode(wf, n) => SyncedNode(s.nodes, s.tasks, wf, n, NodeAfter(s, a));
  }

  lemma SameNode(defs: seq<NodeDef>, n: NodeDef, m: NodeDef)
    requires DistinctIds(defs) && n in defs && m in defs && n.id == m.id
    ensures n == m
  {
    var i :| 0 <= i < |defs| && defs[i] == n;
    var j :| 0 <= j < |defs| && defs[j] == m;
  }

  lemma EveryNodeKept(s: Db, a: FlowAction, wf: string, n: NodeDef)
    requires FlowOk(s.runs, s.nodes, s.tasks) && RowsOk(s.tasks) && FlowGuard(s, a) && OnOneNode(a)
    requires wf in s.runs && n in s.runs[wf].def.nodes
    ensures var t := NodeTask(a.wf, a.n.id);
      NodeOk(s.nodes[t := NodeAfter(s, a)], s.tasks[t := TaskAfter(s, a)], wf, n)
  {
    NodeFacts(s.runs, s.nodes, s.tasks, wf, n);
    NodeFacts(s.runs, s.nodes, s.tasks, a.wf, a.n);
    if wf == a.wf && n.id == a.n.id {
      SameNode(s.runs[wf].def.nodes, n, a.n);
      assert RowInv(s.tasks[NodeTask(wf, n.id)]);
      TouchedNode(s, a);
    } else {
      NodeStepReliable(s, a);
      NodeKeptByOther(s.nodes, s.tasks, NodeTask(a.wf, a.n.id), NodeAfter(s, a), TaskAfter(s, a), wf, n);
    }
  }

  lemma FlowAssembled(runs: map<string, RunRow>, nodes: map<TaskId, NodeRow>, tasks: map<TaskId, TaskRow>,
                      nodes': map<TaskId, NodeRow>, tasks': map<TaskId, TaskRow>)
    requires FlowOk(runs, nodes, tasks) && nodes'.Keys == nodes.Keys
    requires forall wf, n | wf in runs && n in runs[wf].def.nodes :: NodeOk(nodes', tasks', wf, n)
    ensures FlowOk(runs, nodes', tasks')
  {
    forall t | t in nodes' ensures HasDefinition(runs, t) { assert t in nodes; }
  }

  lemma FlowKeptByNode(s: Db, a: FlowAction)
    requires FlowOk(s.runs, s.nodes, s.tasks) && RowsOk(s.tasks) && FlowGuard(s, a) && OnOneNode(a)
    ensures var t := NodeTask(a.wf, a.n.id);
      FlowOk(s.runs, s.nodes[t := NodeAfter(s, a)], s.tasks[t := TaskAfter(s, a)])
  {
    var t := NodeTask(a.wf, a.n.id);
    var nodes', tasks' := s.nodes[t := NodeAfter(s, a)], s.tasks[t := TaskAfter(s, a)];
    forall wf, n | wf in s.runs && n in s.runs[wf].def.nodes ensures NodeOk(nodes', tasks', wf, n) {
      EveryNodeKept(s, a, wf, n);
    }
    FlowAssembled(s.runs, s.nodes, s.tasks, nodes', tasks');
  }
}
