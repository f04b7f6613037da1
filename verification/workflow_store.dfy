/** The workflow journal (`workflow_store.py`): submission of a run and reconciliation of its nodes. */
module WorkflowStore {
  import opened Types
  import opened Rows
  import opened Bindings
  import opened Graph
  import opened Orders
  import opened Protocol
  import opened Invariants
  import opened Reachable
  import opened Tables
  import opened Advance
  import Dag
  import KeepFlow
  import NodeLaws

  // ---------------------------------------------------------------- one node

  /** The states of the predecessors are the ones in the table. */
  ghost predicate Shows(s: Db, wf: string, n: NodeDef, st: States) {
    forall d | d in Dependencies(n) :: d in st && StateOf(s.nodes, wf, d) == Some(st[d])
  }

  ghost function NodeStep(s: Db, wf: string, n: NodeDef, st: States): Db
    requires HasNode(s, wf, n)
  {
    var t, state := NodeTask(wf, n.id), Target(s, wf, n, st);
    s.(nodes := s.nodes[t := NodeWritten(s.nodes[t], state)],
       tasks := s.tasks[t := TaskWritten(s.nodes[t], s.tasks[t], state, Materialize(n, Outputs(s.tasks, wf, n)))])
  }

  /** The step of the protocol that a node takes, if any. */
  function FlowStepOf(s: Db, wf: string, n: NodeDef, st: States): Option<FlowAction>
    requires HasNode(s, wf, n)
  {
    var stored, state := s.nodes[NodeTask(wf, n.id)].state, Target(s, wf, n, st);
    if stored == Waiting then
      match state
      case Skipped => Some(SkipNode(wf, n))
      case Ready => Some(FlowAction.Dispatch(wf, n))
      case NodeFailed => Some(RejectBinding(wf, n))
      case _ => None
    else if stored == Skipped || stored == NodeFailed then None
    else Some(SyncNode(wf, n))
  }

  lemma ShownStates(s: Db, wf: string, n: NodeDef, st: States)
    requires Shows(s, wf, n, st)
    ensures DependencyFailed(n, st) <==> SomeFailed(s.nodes, wf, n)
    ensures DependenciesSucceeded(n, st) <==> AllSucceeded(s.nodes, wf, n)
  {
    hide Dependencies;
  }

  lemma NodeUnchanged(s: Db, t: TaskId)
    requires t in s.nodes && t in s.tasks
    ensures s.(nodes := s.nodes[t := s.nodes[t]], tasks := s.tasks[t := s.tasks[t]]) == s
    ensures s.tasks[t := s.tasks[t]] == s.tasks
  {
    assert s.nodes[t := s.nodes[t]] == s.nodes && s.tasks[t := s.tasks[t]] == s.tasks;
  }

  lemma NodeStepStays(s: Db, wf: string, n: NodeDef, st: States)
    requires HasNode(s, wf, n) && FlowStepOf(s, wf, n, st).None?
    ensures NodeStep(s, wf, n, st) == s
  {
    hide Materialize, Outputs, DependencyFailed, DependenciesSucceeded;
    var t := NodeTask(wf, n.id);
    NodeUnchanged(s, t);
    assert NodeWritten(s.nodes[t], s.nodes[t].state) == s.nodes[t];
    assert Target(s, wf, n, st) == s.nodes[t].state;
    hide Target, NodeWritten;
  }

  lemma NodeStepSkips(s: Db, wf: string, n: NodeDef, st: States)
    requires HasNode(s, wf, n) && Shows(s, wf, n, st) && FlowStepOf(s, wf, n, st) == Some(SkipNode(wf, n))
    ensures FlowGuard(s, SkipNode(wf, n)) && NodeStep(s, wf, n, st) == FlowApply(s, SkipNode(wf, n))
  {
    ShownStates(s, wf, n, st);
    NodeUnchanged(s, NodeTask(wf, n.id));
    hide Materialize, Outputs, DependencyFailed, DependenciesSucceeded, SomeFailed, AllSucceeded, Shows, RowApply;
  }

  lemma NodeStepDispatches(s: Db, wf: string, n: NodeDef, st: States)
    requires HasNode(s, wf, n) && NodeOk(s.nodes, s.tasks, wf, n) && Shows(s, wf, n, st) && !HeldWorkflow(s, wf)
    requires FlowStepOf(s, wf, n, st) == Some(FlowAction.Dispatch(wf, n))
    ensures FlowGuard(s, FlowAction.Dispatch(wf, n)) && NodeStep(s, wf, n, st) == FlowApply(s, FlowAction.Dispatch(wf, n))
  {
    ShownStates(s, wf, n, st);
    hide Materialize, Outputs, Frozen, DependencyFailed, DependenciesSucceeded, SomeFailed, AllSucceeded, HeldWorkflow, Shows, RowApply;
  }

  lemma NodeStepRejects(s: Db, wf: string, n: NodeDef, st: States)
    requires HasNode(s, wf, n) && NodeOk(s.nodes, s.tasks, wf, n) && Shows(s, wf, n, st) && !HeldWorkflow(s, wf)
    requires FlowStepOf(s, wf, n, st) == Some(RejectBinding(wf, n))
    ensures FlowGuard(s, RejectBinding(wf, n)) && NodeStep(s, wf, n, st) == FlowApply(s, RejectBinding(wf, n))
  {
    ShownStates(s, wf, n, st);
    hide Materialize, Outputs, Frozen, DependencyFailed, DependenciesSucceeded, SomeFailed, AllSucceeded, HeldWorkflow, Shows, RowApply;
  }

  lemma NodeStepSyncs(s: Db, wf: string, n: NodeDef, st: States)
    requires HasNode(s, wf, n) && s.nodes[NodeTask(wf, n.id)].state !in {Waiting, Skipped, NodeFailed}
    ensures FlowStepOf(s, wf, n, st) == Some(SyncNode(wf, n)) && FlowGuard(s, SyncNode(wf, n))
    ensures NodeStep(s, wf, n, st) == FlowApply(s, SyncNode(wf, n))
  {
    hide Materialize, Outputs, Frozen, DependencyFailed, DependenciesSucceeded, SomeFailed, AllSucceeded, RowApply;
    NodeUnchanged(s, NodeTask(wf, n.id));
  }

  lemma NodeStepIsFlowStep(s: Db, wf: string, n: NodeDef, st: States)
    requires HasNode(s, wf, n) && NodeOk(s.nodes, s.tasks, wf, n) && Shows(s, wf, n, st) && !HeldWorkflow(s, wf)
    ensures var a := FlowStepOf(s, wf, n, st);
      if a.Some? then FlowGuard(s, a.value) && NodeStep(s, wf, n, st) == FlowApply(s, a.value)
      else NodeStep(s, wf, n, st) == s
  {
    var a := FlowStepOf(s, wf, n, st);
    hide NodeStep, NodeOk, Shows, Target, HeldWorkflow;
    if a.None? {
      NodeStepStays(s, wf, n, st);
    } else {
      match a.value
      case SkipNode(_, _) => NodeStepSkips(s, wf, n, st);
      case Dispatch(_, _) => NodeStepDispatches(s, wf, n, st);
      case RejectBinding(_, _) => NodeStepRejects(s, wf, n, st);
      case SyncNode(_, _) => NodeStepSyncs(s, wf, n, st);
    }
  }

  lemma NodeOfInv(s: Db, wf: string, n: NodeDef)
    requires Inv(s) && wf in s.runs && n in s.runs[wf].def.nodes
    ensures NodeOk(s.nodes, s.tasks, wf, n) && HasNode(s, wf, n) && WellFormed(s.runs[wf].def.nodes)
  {
    hide RowsOk, SessionsOk, CallsOk, HoldsOk, BudgetsOk;
  }

  lemma NodeStepReaches(s: Db, wf: string, n: NodeDef, st: States)
    requires Inv(s) && HasNode(s, wf, n) && Shows(s, wf, n, st) && !HeldWorkflow(s, wf)
    ensures Reaches(s, NodeStep(s, wf, n, st)) && Inv(NodeStep(s, wf, n, st))
  {
    hide Inv, Reaches, NodeStep, NodeOk, Shows, HeldWorkflow, WellFormed, FlowGuard, FlowApply, FlowStepOf;
    NodeOfInv(s, wf, n);
    NodeStepIsFlowStep(s, wf, n, st);
    ReachesSelf(s);
    var a := FlowStepOf(s, wf, n, st);
    if a.Some? { ReachesStep(s, s, ByWorkflow(a.value)); }
    ReachesInv(s, NodeStep(s, wf, n, st));
  }

  /** Resolving the bindings of a node whose predecessors succeeded: the arguments are stored and the gate
      opens, or the node fails before it ever runs. */
  method BindNode(db: Database, wf: string, n: NodeDef) returns (state: NodeState)
    requires HasNode(db.State(), wf, n)
    requires forall i | 0 <= i < |n.bindings| :: n.bindings[i].target != []
    requires var t := NodeTask(wf, n.id); db.nodes[t].state == Waiting && db.tasks[t].status == Pending && db.tasks[t].blocked
    modifies db`tasks
    ensures var t, kwargs := NodeTask(wf, n.id), Materialize(n, Outputs(old(db.tasks), wf, n));
      && state == (if kwargs.Some? then Ready else NodeFailed)
      && db.tasks == old(db.tasks)[t := TaskWritten(db.nodes[t], old(db.tasks)[t], state, kwargs)]
  {
    hide Materialize, Outputs, Fill;
    var t := NodeTask(wf, n.id);
    var task := db.tasks[t];
    var kwargs := Dag.MaterializeKwargs(n, Outputs(db.tasks, wf, n));
    if kwargs.Some? {
      OpenedTask(task, kwargs.value);
      db.tasks := db.tasks[t := task.(def := task.def.(kwargs := kwargs.value), blocked := false)];
      return Ready;
    }
    var failed := task.(status := Failed, error := Some(BINDING_ERROR));
    failed := failed.(log := failed.log + [Event(FailedEvent, failed.status, task.attempts, task.retries, NoDetail)]);
    db.tasks := db.tasks[t := failed];
    return NodeFailed;
  }

  /** The body of the loop of `_advance`, for one node. */
  method AdvanceNode(db: Database, wf: string, n: NodeDef, st: States) returns (state: NodeState)
    requires HasNode(db.State(), wf, n) && (forall d | d in Dependencies(n) :: d in st)
    requires forall i | 0 <= i < |n.bindings| :: n.bindings[i].target != []
    requires db.nodes[NodeTask(wf, n.id)].state == Waiting ==>
               db.tasks[NodeTask(wf, n.id)].status == Pending && db.tasks[NodeTask(wf, n.id)].blocked
    modifies db
    ensures state == Target(old(db.State()), wf, n, st)
    ensures db.State() == NodeStep(old(db.State()), wf, n, st)
  {
    hide Materialize, Outputs, RowApply, Dependencies;
    var t := NodeTask(wf, n.id);
    var row, task := db.nodes[t], db.tasks[t];
    state := row.state;
    var error := row.error;
    NodeUnchanged(db.State(), t);
    if state == Waiting {
      if exists d | d in Dependencies(n) :: st[d] == NodeFailed || st[d] == Skipped {
        state := Skipped;
        error := Some(DEPENDENCY_FAILED);
      } else if forall d | d in Dependencies(n) :: st[d] == NodeSuccess {
        state := BindNode(db, wf, n);
        if state == NodeFailed { error := Some(BINDING_FAILED); }
      }
    } else if state != Skipped && state != NodeFailed {
      state := if task.status == Pending then Ready else Mirror(task.status);
    }
    if state != row.state || error != row.error {
      db.nodes := db.nodes[t := row.(state := state, error := error)];
    }
  }

  lemma OpenedTask(r: TaskRow, kwargs: map<string, Json>)
    requires r.status == Pending && r.blocked
    ensures RowApply(r, OpenGate(kwargs)) == r.(def := r.def.(kwargs := kwargs), blocked := false)
  {
    assert r.log + [] == r.log;
  }

  // ---------------------------------------------------------------- the loop

  /** The nodes with these ids are done: `st` holds their solutions, and the tables show them. */
  ghost predicate Halfway(s: Db, m: Db, wf: string, st: States) {
    && Complete(s, wf) && Written(s, m, wf, st, st.Keys) && st.Keys <= Elements(Ids(s.runs[wf].def.nodes))
    && m == s.(tasks := m.tasks, nodes := m.nodes)
    && forall n | n in s.runs[wf].def.nodes && n.id in st :: SolvesAt(s, wf, st, n)
  }

  lemma NotYet(s: Db, m: Db, wf: string, st: States, n: NodeDef)
    requires Halfway(s, m, wf, st) && n in s.runs[wf].def.nodes && n.id !in st
    ensures HasNode(s, wf, n) && HasNode(m, wf, n)
    ensures m.nodes[NodeTask(wf, n.id)] == s.nodes[NodeTask(wf, n.id)] && m.tasks[NodeTask(wf, n.id)] == s.tasks[NodeTask(wf, n.id)]
  {
    hide WrittenAt, SolvesAt;
    assert NodeTask(wf, n.id) in m.nodes.Keys && NodeTask(wf, n.id) in m.tasks.Keys;
  }

  lemma NodeOfId(nodes: seq<NodeDef>, k: string) returns (n: NodeDef)
    requires k in Elements(Ids(nodes))
    ensures n in nodes && n.id == k
  {
    var i :| 0 <= i < |nodes| && Ids(nodes)[i] == k;
    n := nodes[i];
  }

  /** Opening gates and rejecting bindings change no result. */
  lemma ResultsKept(s: Db, m: Db, wf: string, st: States, t: TaskId)
    requires Halfway(s, m, wf, st) && t in s.tasks
    ensures t in m.tasks && m.tasks[t].result == s.tasks[t].result
  {
    hide SolvesAt, Materialize, Outputs, TaskWritten, NodeWritten;
    assert t in m.tasks.Keys;
    if t.NodeTask? && t.workflow == wf && t.node in st.Keys {
      var n := NodeOfId(s.runs[wf].def.nodes, t.node);
      assert WrittenAt(s, m, wf, st, n);
      ResultNotWritten(s.nodes[t], s.tasks[t], st[n.id], Materialize(n, Outputs(s.tasks, wf, n)));
    }
  }

  lemma ResultNotWritten(x: NodeRow, r: TaskRow, state: NodeState, kwargs: Option<map<string, Json>>)
    ensures TaskWritten(x, r, state, kwargs).result == r.result
  {
  }

  lemma OutputsKept(s: Db, m: Db, wf: string, st: States, n: NodeDef)
    requires Halfway(s, m, wf, st)
    ensures Outputs(m.tasks, wf, n) == Outputs(s.tasks, wf, n)
  {
    forall t ensures t in s.tasks <==> t in m.tasks { assert t in s.tasks.Keys <==> t in m.tasks.Keys; }
    forall t | t in s.tasks ensures m.tasks[t].result == s.tasks[t].result { ResultsKept(s, m, wf, st, t); }
    hide Halfway, Slots;
  }

  /** The tables show the states of the predecessors that are done. */
  lemma StatesShown(s: Db, m: Db, wf: string, st: States, n: NodeDef)
    requires Halfway(s, m, wf, st) && forall d | d in Dependencies(n) :: d in st
    ensures Shows(m, wf, n, st)
  {
    hide Dependencies, SolvesAt, Materialize, Outputs, TaskWritten;
    forall d | d in Dependencies(n) ensures StateOf(m.nodes, wf, d) == Some(st[d]) {
      var k := NodeOfId(s.runs[wf].def.nodes, d);
      assert WrittenAt(s, m, wf, st, k);
    }
  }

  /** The node whose turn it is. */
  lemma ThisNodeWritten(s: Db, m: Db, wf: string, st: States, n: NodeDef)
    requires Halfway(s, m, wf, st) && n in s.runs[wf].def.nodes && n.id !in st
    requires forall d | d in Dependencies(n) :: d in st
    ensures HasNode(m, wf, n) && HasNode(s, wf, n) && Target(m, wf, n, st) == Target(s, wf, n, st)
    ensures var st' := st[n.id := Target(m, wf, n, st)];
      SolvesAt(s, wf, st', n) && WrittenAt(s, NodeStep(m, wf, n, st), wf, st', n)
  {
    hide Dependencies, Materialize, Outputs, RowApply, TaskWritten, NodeWritten, Halfway;
    NotYet(s, m, wf, st, n);
    OutputsKept(s, m, wf, st, n);
    assert Target(m, wf, n, st) == Target(s, wf, n, st);
    SameStatesSameTarget(s, wf, n, st, st[n.id := Target(m, wf, n, st)]);
  }

  /** The nodes before it. */
  lemma OtherNodeWritten(s: Db, m: Db, wf: string, st: States, n: NodeDef, k: NodeDef)
    requires Halfway(s, m, wf, st) && k in s.runs[wf].def.nodes && k.id in st && k.id != n.id && n.id !in st
    requires HasNode(m, wf, n) && forall d | d in Dependencies(k) :: d in st
    ensures HasNode(s, wf, k)
    ensures var st' := st[n.id := Target(m, wf, n, st)];
      SolvesAt(s, wf, st', k) && WrittenAt(s, NodeStep(m, wf, n, st), wf, st', k)
  {
    hide Dependencies, Materialize, Outputs, RowApply, TaskWritten, NodeWritten, Target;
    assert SolvesAt(s, wf, st, k) && WrittenAt(s, m, wf, st, k);
    SameStatesSameTarget(s, wf, k, st, st[n.id := Target(m, wf, n, st)]);
  }

  lemma WrittenGrows(s: Db, m: Db, m': Db, wf: string, st: States, st': States, n: NodeDef)
    requires Written(s, m, wf, st, st.Keys) && st'.Keys == st.Keys + {n.id}
    requires var t := NodeTask(wf, n.id);
      && t in m.nodes && t in m.tasks && t in m'.nodes && t in m'.tasks
      && m'.nodes == m.nodes[t := m'.nodes[t]] && m'.tasks == m.tasks[t := m'.tasks[t]]
    requires forall k | k in s.runs[wf].def.nodes && k.id in st' :: WrittenAt(s, m', wf, st', k)
    ensures Written(s, m', wf, st', st'.Keys)
  {
    hide WrittenAt;
    assert m'.nodes.Keys == m.nodes.Keys && m'.tasks.Keys == m.tasks.Keys;
  }

  lemma HalfwayNext(s: Db, m: Db, wf: string, st: States, n: NodeDef)
    requires Halfway(s, m, wf, st) && n in s.runs[wf].def.nodes && n.id !in st && DistinctIds(s.runs[wf].def.nodes)
    requires forall k, d | k in s.runs[wf].def.nodes && k.id in st && d in Dependencies(k) :: d in st
    requires forall d | d in Dependencies(n) :: d in st
    ensures HasNode(m, wf, n)
    ensures Halfway(s, NodeStep(m, wf, n, st), wf, st[n.id := Target(m, wf, n, st)])
  {
    hide Dependencies, Target, SolvesAt, WrittenAt, TaskWritten, NodeWritten, DistinctIds, HasNode, Materialize, Outputs, Written;
    ThisNodeWritten(s, m, wf, st, n);
    var st', m' := st[n.id := Target(m, wf, n, st)], NodeStep(m, wf, n, st);
    forall k | k in s.runs[wf].def.nodes && k.id in st'
      ensures HasNode(s, wf, k) && SolvesAt(s, wf, st', k) && WrittenAt(s, m', wf, st', k)
    {
      if k.id == n.id { KeepFlow.SameNode(s.runs[wf].def.nodes, k, n); } else { OtherNodeWritten(s, m, wf, st, n, k); }
    }
    IdOfNode(s.runs[wf].def.nodes, n);
    NodeStepTouches(m, wf, n, st);
    WrittenGrows(s, m, m', wf, st, st', n);
  }

  lemma NodeStepTouches(m: Db, wf: string, n: NodeDef, st: States)
    requires HasNode(m, wf, n)
    ensures var t, m' := NodeTask(wf, n.id), NodeStep(m, wf, n, st);
      && t in m.nodes && t in m.tasks && t in m'.nodes && t in m'.tasks
      && m'.nodes == m.nodes[t := m'.nodes[t]] && m'.tasks == m.tasks[t := m'.tasks[t]]
      && m' == m.(nodes := m'.nodes, tasks := m'.tasks)
  {
    hide Target, TaskWritten, NodeWritten, Materialize, Outputs;
  }

  lemma IdOfNode(nodes: seq<NodeDef>, n: NodeDef)
    requires n in nodes
    ensures n.id in Elements(Ids(nodes))
  {
    var i :| 0 <= i < |nodes| && nodes[i] == n;
    assert Ids(nodes)[i] == n.id;
  }

  lemma Begun(s: Db, wf: string)
    requires Inv(s) && wf in s.runs
    ensures Halfway(s, s, wf, map[]) && WellFormed(s.runs[wf].def.nodes)
  {
    forall n | n in s.runs[wf].def.nodes ensures HasNode(s, wf, n) { NodeOfInv(s, wf, n); }
    assert WellFormed(s.runs[wf].def.nodes);
    hide Inv;
  }

  /** Everything the next node depends on comes earlier in the order. */
  lemma PredecessorsDone(nodes: seq<NodeDef>, order: seq<string>, i: nat, n: NodeDef)
    requires IsOrder(nodes, order) && i < |order| && n in nodes && n.id == order[i]
    ensures forall d | d in Dependencies(n) :: d in Elements(order[..i])
  {
    hide Dependencies;
    assert ReadyAfter(nodes, order[i], Elements(order[..i]));
    forall d | d in Dependencies(n) ensures d in Elements(order[..i]) { assert Edge(nodes, d, n.id); }
  }

  lemma EarlierPredecessors(nodes: seq<NodeDef>, order: seq<string>, i: nat, k: NodeDef)
    requires IsOrder(nodes, order) && i <= |order| && k in nodes && k.id in Elements(order[..i])
    ensures forall d | d in Dependencies(k) :: d in Elements(order[..i])
  {
    hide Dependencies;
    var j := PlaceOf(order[..i], k.id);
    PredecessorsDone(nodes, order, j, k);
    assert order[..j] == order[..i][..j];
  }

  /** Writing looks at tasks and nodes only. */
  lemma WrittenSame(s: Db, m: Db, m': Db, wf: string, st: States)
    requires m'.nodes == m.nodes && m'.tasks == m.tasks && Written(s, m, wf, st, st.Keys)
    ensures Written(s, m', wf, st, st.Keys)
  {
    forall n | n in s.runs[wf].def.nodes && n.id in st.Keys ensures WrittenAt(s, m', wf, st, n) {
      assert WrittenAt(s, m, wf, st, n);
    }
  }

  lemma FinishedPass(s: Db, m: Db, wf: string, st: States)
    requires Halfway(s, m, wf, st) && st.Keys == Elements(Ids(s.runs[wf].def.nodes)) && !HeldWorkflow(s, wf)
    ensures wf in m.runs
    ensures Advanced(s, m.(runs := m.runs[wf := m.runs[wf].(status := RunStatusOf(s.runs[wf].def.nodes, st))]), wf)
  {
    hide SolvesAt, WrittenAt, HasNode, RunStatusOf, HeldWorkflow;
    forall n | n in s.runs[wf].def.nodes ensures n.id in st { IdOfNode(s.runs[wf].def.nodes, n); }
    var m' := m.(runs := m.runs[wf := m.runs[wf].(status := RunStatusOf(s.runs[wf].def.nodes, st))]);
    WrittenSame(s, m, m', wf, st);
    assert PassedWith(s, m', wf, st);
  }

  lemma RunReaches(s: Db, m: Db, wf: string, status: RunStatus)
    requires Reaches(s, m) && Inv(m) && wf in m.runs
    ensures var m' := m.(runs := m.runs[wf := m.runs[wf].(status := status)]); Reaches(s, m') && Inv(m')
  {
    hide Reaches, Inv;
    ReachesStep(s, m, ByWorkflow(SetRun(wf, status)));
    ReachesSelf(m);
    ReachesStep(m, m, ByWorkflow(SetRun(wf, status)));
    ReachesInv(m, m.(runs := m.runs[wf := m.runs[wf].(status := status)]));
  }

  method SetRunStatus(db: Database, wf: string, status: RunStatus)
    requires wf in db.runs
    modifies db
    ensures wf in old(db.runs)
    ensures db.State() == old(db.State()).(runs := old(db.runs)[wf := old(db.runs)[wf].(status := status)])
  {
    assert db.runs[wf := db.runs[wf]] == db.runs;
    if db.runs[wf].status != status { db.runs := db.runs[wf := db.runs[wf].(status := status)]; }
  }

  /** One turn of the loop of `_advance`. */
  method AdvanceNext(db: Database, ghost s: Db, wf: string, nodes: seq<NodeDef>, byId: Dag.ById,
                     ghost order: seq<string>, ghost i: nat,
                     key: string, states: States)
    returns (state: NodeState)
    requires db.Valid() && Reaches(s, db.State()) && Halfway(s, db.State(), wf, states) && !HeldWorkflow(s, wf)
    requires nodes == s.runs[wf].def.nodes && WellFormed(nodes) && Dag.Indexes(nodes, byId)
    requires IsOrder(nodes, order) && i < |order| && states.Keys == Elements(order[..i]) && key == order[i]
    modifies db
    ensures db.Valid() && Reaches(s, db.State()) && Halfway(s, db.State(), wf, states[key := state])
  {
    ghost var m := db.State();
    var n := TurnOf(nodes, byId, order, i, key);
    TurnIsReady(s, m, wf, order, i, states, n);
    hide Inv, Reaches, Halfway, HasNode, NodeStep, Target, Dependencies, IsOrder, Shows, WellFormed, HeldWorkflow, Elements;
    state := AdvanceNode(db, wf, n, states);
    NodeStepReaches(m, wf, n, states);
    ReachesTransitive(s, m, db.State());
  }

  lemma OneMoreElement(order: seq<string>, i: nat, states: States, state: NodeState)
    requires i < |order| && states.Keys == Elements(order[..i])
    ensures states[order[i] := state].Keys == Elements(order[..i + 1])
  {
    assert order[..i + 1] == order[..i] + [order[i]];
  }

  method TurnOf(nodes: seq<NodeDef>, byId: Dag.ById, ghost order: seq<string>, ghost i: nat, key: string)
    returns (n: NodeDef)
    requires Dag.Indexes(nodes, byId) && IsOrder(nodes, order) && i < |order| && key == order[i]
    ensures n in nodes && n.id == key
  {
    assert key in Elements(order);
    n := byId[key];
  }

  /** All that the body of the loop relies on. */
  lemma TurnIsReady(s: Db, m: Db, wf: string, order: seq<string>, i: nat, states: States, n: NodeDef)
    requires Inv(m) && Halfway(s, m, wf, states) && !HeldWorkflow(s, wf)
    requires wf in s.runs && WellFormed(s.runs[wf].def.nodes) && IsOrder(s.runs[wf].def.nodes, order)
    requires i < |order| && states.Keys == Elements(order[..i]) && n in s.runs[wf].def.nodes && n.id == order[i]
    ensures HasNode(m, wf, n) && (forall d | d in Dependencies(n) :: d in states) && Shows(m, wf, n, states) && !HeldWorkflow(m, wf)
    ensures forall b | 0 <= b < |n.bindings| :: n.bindings[b].target != []
    ensures m.nodes[NodeTask(wf, n.id)].state == Waiting ==>
              m.tasks[NodeTask(wf, n.id)].status == Pending && m.tasks[NodeTask(wf, n.id)].blocked
    ensures Halfway(s, NodeStep(m, wf, n, states), wf, states[n.id := Target(m, wf, n, states)])
  {
    hide Inv, HasNode, NodeStep, Target, Dependencies, Shows, HeldWorkflow, HasCycle, KnownIds, Halfway, WellFormed;
    var nodes := s.runs[wf].def.nodes;
    HalfwayFrame(s, m, wf, states);
    NodeOfInv(m, wf, n);
    TargetsStart(nodes, n);
    assert order[i] !in Elements(order[..i]);
    PredecessorsDone(nodes, order, i, n);
    forall k, d | k in nodes && k.id in states && d in Dependencies(k) ensures d in states { EarlierPredecessors(nodes, order, i, k); }
    StatesShown(s, m, wf, states, n);
    DistinctNodes(nodes);
    HalfwayNext(s, m, wf, states, n);
  }

  lemma DistinctNodes(nodes: seq<NodeDef>)
    requires WellFormed(nodes)
    ensures DistinctIds(nodes)
  {
  }

  lemma HalfwayFrame(s: Db, m: Db, wf: string, st: States)
    requires Halfway(s, m, wf, st)
    ensures m.runs == s.runs && (HeldWorkflow(m, wf) <==> HeldWorkflow(s, wf))
  {
    hide SolvesAt, WrittenAt;
  }

  lemma TargetsStart(nodes: seq<NodeDef>, n: NodeDef)
    requires WellFormed(nodes) && n in nodes
    ensures forall b | 0 <= b < |n.bindings| :: n.bindings[b].target != []
  {
    assert Disjoint(Slots(n));
    forall b | 0 <= b < |n.bindings| ensures n.bindings[b].target != [] {
      assert Slots(n)[|n.inputs| + b].target == n.bindings[b].target;
    }
  }

  lemma PrefixElements(order: seq<string>)
    ensures Elements(order[..0]) == {} && order[..|order|] == order
  {
  }

  /** The loop of `_advance`. */
  method VisitNodes(db: Database, wf: string, nodes: seq<NodeDef>, order: seq<string>, byId: Dag.ById)
    returns (states: States)
    requires db.Valid() && wf in db.runs && !HeldWorkflow(db.State(), wf) && nodes == db.runs[wf].def.nodes
    requires WellFormed(nodes) && IsOrder(nodes, order) && Dag.Indexes(nodes, byId)
    modifies db
    ensures Halfway(old(db.State()), db.State(), wf, states) && states.Keys == Elements(order)
    ensures db.Valid() && Reaches(old(db.State()), db.State())
  {
    hide Inv, Reaches, Halfway, WellFormed, IsOrder, Dag.Indexes, HeldWorkflow, Elements;
    ghost var s := db.State();
    ReachesSelf(s);
    Begun(s, wf);
    PrefixElements(order);
    states := map[];
    for i := 0 to |order|
      invariant db.Valid() && Reaches(s, db.State()) && Halfway(s, db.State(), wf, states)
      invariant states.Keys == Elements(order[..i])
    {
      var state := AdvanceNext(db, s, wf, nodes, byId, order, i, order[i], states);
      OneMoreElement(order, i, states, state);
      states := states[order[i] := state];
    }
  }

  method PassOverNodes(db: Database, wf: string)
    requires db.Valid() && wf in db.runs && !HeldWorkflow(db.State(), wf)
    modifies db
    ensures Advanced(old(db.State()), db.State(), wf)
    ensures db.Valid() && Reaches(old(db.State()), db.State())
  {
    hide Inv, Reaches, Halfway, WellFormed, IsOrder, Dag.Indexes, HeldWorkflow, Advanced, RunStatusOf, Elements;
    ghost var s := db.State();
    var nodes := db.runs[wf].def.nodes;
    Begun(s, wf);
    var order, byId := SortedNodes(nodes);
    var states := VisitNodes(db, wf, nodes, order, byId);
    AllDone(nodes, order);
    FinishedPass(s, db.State(), wf, states);
    var status := RunStatusOf(nodes, states);
    RunReaches(s, db.State(), wf, status);
    SetRunStatus(db, wf, status);
  }

  /** `_advance`. */
  method AdvanceRun(db: Database, wf: string) returns (reply: Reply<Unit>)
    requires db.Valid()
    modifies db
    ensures reply.Ok? <==> wf in old(db.runs)
    ensures !reply.Ok? ==> reply == Rejected(UnknownWorkflow) && db.State() == old(db.State())
    ensures reply.Ok? ==> Advanced(old(db.State()), db.State(), wf)
    ensures reply.Ok? ==> NodeLaws.Reconciled(old(db.State()), db.State(), wf)
    ensures db.Valid() && Reaches(old(db.State()), db.State())
  {
    ghost var s := db.State();
    ReachesSelf(s);
    hide Inv, Reaches, NodeLaws.Reconciled;
    if wf !in db.runs { return Rejected(UnknownWorkflow); }
    if exists h | h in db.holds :: h.scope == WorkflowScope(wf) {
      RunReaches(s, s, wf, Paused);
      SetRunStatus(db, wf, Paused);
    } else {
      PassOverNodes(db, wf);
    }
    NodeLaws.ReconciledExactly(s, db.State(), wf);
    return Ok(Unit);
  }

  lemma AllDone(nodes: seq<NodeDef>, order: seq<string>)
    requires IsOrder(nodes, order)
    ensures Elements(order) == Elements(Ids(nodes))
  {
  }

  method SortedNodes(nodes: seq<NodeDef>) returns (order: seq<string>, byId: Dag.ById)
    requires WellFormed(nodes)
    ensures IsOrder(nodes, order) && Dag.Indexes(nodes, byId)
  {
    var sorted := Dag.TopologicalOrder(nodes);
    order := sorted.ids;
    var distinct;
    byId, distinct := Dag.Index(nodes);
  }
}
