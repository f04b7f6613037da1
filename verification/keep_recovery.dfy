/** Steps of recovery: incidents and holds, operator decisions and reopened workflows. */
module KeepRecovery {
  import opened Types
  import opened Rows
  import opened Graph
  import opened Protocol
  import opened Invariants
  import opened UsageFacts
  import opened KeepRows
  import opened KeepFlow
  import opened KeepStore
  import Usage

  // ---------------------------------------------------------------- incidents and holds

  lemma OpenedIncidents(s: Db, t: TaskId, kind: IncidentKind, reason: Reason, d: Case)
    requires HoldsOk(s.incidents, s.holds, s.tasks, s.nodes) && t in s.tasks && (t in s.nodes ==> t.NodeTask?)
    requires d in Opened(s, t, kind, reason).incidents
    ensures var s' := Opened(s, t, kind, reason); IncidentOk(d, s'.incidents[d], s'.holds, s.tasks, s.nodes)
  {
    assert d in s.incidents ==> IncidentOk(d, s.incidents[d], s.holds, s.tasks, s.nodes);
  }

  lemma OpenedHolds(s: Db, t: TaskId, kind: IncidentKind, reason: Reason, h: Hold)
    requires HoldsOk(s.incidents, s.holds, s.tasks, s.nodes) && t in s.tasks && (t in s.nodes ==> t.NodeTask?)
    requires h in Opened(s, t, kind, reason).holds
    ensures HoldOk(h, Opened(s, t, kind, reason).incidents)
  {
    var c := Case(t, s.tasks[t].attempts);
    assert h in s.holds ==> HoldOk(h, s.incidents);
    assert c in s.incidents ==> IncidentOk(c, s.incidents[c], s.holds, s.tasks, s.nodes);
  }

  lemma OpenedKeeps(s: Db, t: TaskId, kind: IncidentKind, reason: Reason)
    requires HoldsOk(s.incidents, s.holds, s.tasks, s.nodes) && t in s.tasks && (t in s.nodes ==> t.NodeTask?)
    ensures var s' := Opened(s, t, kind, reason); HoldsOk(s'.incidents, s'.holds, s.tasks, s.nodes)
  {
    var s' := Opened(s, t, kind, reason);
    forall d | d in s'.incidents ensures IncidentOk(d, s'.incidents[d], s'.holds, s.tasks, s.nodes) {
      OpenedIncidents(s, t, kind, reason, d);
    }
    forall h | h in s'.holds ensures HoldOk(h, s'.incidents) { OpenedHolds(s, t, kind, reason, h); }
  }

  lemma OperatorHoldsKeep(s: Db, wf: string)
    requires HoldsOk(s.incidents, s.holds, s.tasks, s.nodes)
    ensures var h := Hold(WorkflowScope(wf), ByOperator);
      && HoldsOk(s.incidents, s.holds + {h}, s.tasks, s.nodes)
      && HoldsOk(s.incidents, s.holds - {h}, s.tasks, s.nodes)
  {
    var h := Hold(WorkflowScope(wf), ByOperator);
    forall c | c in s.incidents
      ensures IncidentOk(c, s.incidents[c], s.holds + {h}, s.tasks, s.nodes)
      ensures IncidentOk(c, s.incidents[c], s.holds - {h}, s.tasks, s.nodes)
    {
      assert IncidentOk(c, s.incidents[c], s.holds, s.tasks, s.nodes);
    }
  }

  lemma HoldsKeptByNodes(incidents: map<Case, Incident>, holds: set<Hold>, tasks: map<TaskId, TaskRow>,
                         nodes: map<TaskId, NodeRow>, nodes': map<TaskId, NodeRow>)
    requires HoldsOk(incidents, holds, tasks, nodes) && nodes'.Keys == nodes.Keys
    ensures HoldsOk(incidents, holds, tasks, nodes')
  {
    forall c | c in incidents ensures IncidentOk(c, incidents[c], holds, tasks, nodes') {
      assert IncidentOk(c, incidents[c], holds, tasks, nodes);
      assert c.task in nodes <==> c.task in nodes.Keys;
    }
  }

  // ---------------------------------------------------------------- nodes and runs as the budgets see them

  ghost predicate SameDefinitions(runs: map<string, RunRow>, runs': map<string, RunRow>) {
    runs'.Keys == runs.Keys && forall wf | wf in runs :: runs'[wf].def == runs[wf].def
  }

  ghost predicate SameFlags(nodes: map<TaskId, NodeRow>, nodes': map<TaskId, NodeRow>) {
    nodes'.Keys == nodes.Keys && forall t | t in nodes :: nodes'[t].llm == nodes[t].llm
  }

  lemma BudgetsKeptByNodes(runs: map<string, RunRow>, nodes: map<TaskId, NodeRow>, tasks: map<TaskId, TaskRow>,
                           admitted: map<string, Case>, runs': map<string, RunRow>, nodes': map<TaskId, NodeRow>)
    requires BudgetsOk(runs, nodes, tasks, admitted) && SameDefinitions(runs, runs') && SameFlags(nodes, nodes')
    ensures BudgetsOk(runs', nodes', tasks, admitted)
  {
    forall wf | wf in runs'
      ensures BudgetOk(runs'[wf].def.budget, tasks, Usage.LlmTasks(wf, runs'[wf].def.nodes, nodes'), LastAdmitted(admitted, wf))
    {
      assert wf in runs;
      forall t ensures t in nodes <==> t in nodes' { assert t in nodes.Keys <==> t in nodes'.Keys; }
      LlmTasksUnchanged(wf, runs[wf].def.nodes, nodes, nodes');
    }
  }

  lemma FlowKeptByRuns(runs: map<string, RunRow>, nodes: map<TaskId, NodeRow>, tasks: map<TaskId, TaskRow>,
                       runs': map<string, RunRow>)
    requires FlowOk(runs, nodes, tasks) && SameDefinitions(runs, runs')
    ensures FlowOk(runs', nodes, tasks)
  {
    assert forall wf | wf in runs' :: wf in runs;
    forall t | t in nodes ensures HasDefinition(runs', t) {
      assert HasDefinition(runs, t);
      var n :| IsNodeOf(runs, t, n);
      assert IsNodeOf(runs', t, n);
    }
  }

  // ---------------------------------------------------------------- an operator's decision

  /** A node does not notice changes outside its workflow. */
  lemma NodeKeptLocally(nodes: map<TaskId, NodeRow>, tasks: map<TaskId, TaskRow>,
                        nodes': map<TaskId, NodeRow>, tasks': map<TaskId, TaskRow>, wf: string, n: NodeDef)
    requires NodeOk(nodes, tasks, wf, n) && DependenciesDone(nodes, tasks, wf, n)
    requires forall id :: var t := NodeTask(wf, id);
               && (t in nodes <==> t in nodes') && (t in nodes ==> nodes'[t] == nodes[t])
               && (t in tasks <==> t in tasks') && (t in tasks ==> tasks'[t] == tasks[t])
    ensures NodeOk(nodes', tasks', wf, n)
  {
    if AllSucceeded(nodes, wf, n) {
      forall d | d in Dependencies(n) ensures StateOf(nodes', wf, d) == Some(NodeSuccess) {
        assert StateOf(nodes, wf, d) == Some(NodeSuccess);
      }
    }
    if SomeFailed(nodes, wf, n) {
      var d :| d in Dependencies(n) && (StateOf(nodes, wf, d) == Some(NodeFailed) || StateOf(nodes, wf, d) == Some(Skipped));
      assert StateOf(nodes', wf, d) == StateOf(nodes, wf, d);
    }
    var r := tasks[NodeTask(wf, n.id)];
    if !r.blocked { FrozenKept(tasks, tasks', wf, n, r); }
  }

  lemma SuccessesSurviveReopening(nodes: map<TaskId, NodeRow>, t: TaskId, x: NodeRow, wf: string, n: NodeDef)
    requires AllSucceeded(nodes, wf, n) && t in nodes && nodes[t].state != NodeSuccess
    ensures AllSucceeded(Reopened(nodes[t := x], wf), wf, n)
  {
    forall d | d in Dependencies(n) ensures StateOf(Reopened(nodes[t := x], wf), wf, d) == Some(NodeSuccess) {
      assert StateOf(nodes, wf, d) == Some(NodeSuccess);
    }
  }

  /** What an operator's retry or result does to a failed task and its node. */
  predicate Reopens(tasks: map<TaskId, TaskRow>, nodes: map<TaskId, NodeRow>, t: TaskId, x: NodeRow, r': TaskRow) {
    && t in nodes && t in tasks && t.NodeTask? && nodes[t].state != NodeSuccess
    && tasks[t].status == Failed && r'.def == tasks[t].def && r'.blocked == tasks[t].blocked
    && ((r'.status == Retrying && x.state == NodeRetrying && !r'.blocked) || (r'.status == Success && x.state == NodeSuccess))
  }

  /** After a retry or a supplied result every skipped node of the workflow waits again. */
  lemma NodeKeptByReopening(nodes: map<TaskId, NodeRow>, tasks: map<TaskId, TaskRow>, t: TaskId, x: NodeRow,
                            r': TaskRow,
                            wf: string, n: NodeDef)
    requires NodeOk(nodes, tasks, wf, n) && DependenciesDone(nodes, tasks, wf, n)
    requires Reopens(tasks, nodes, t, x, r') && t.workflow == wf
    ensures NodeOk(Reopened(nodes[t := x], wf), tasks[t := r'], wf, n)
  {
    var u := NodeTask(wf, n.id);
    if AllSucceeded(nodes, wf, n) { SuccessesSurviveReopening(nodes, t, x, wf, n); }
    if !tasks[u].blocked { FrozenKept(tasks, tasks[t := r'], wf, n, tasks[u]); }
  }

  /** Accepting a failure leaves the nodes as they are. */
  lemma NodeKeptByFailure(nodes: map<TaskId, NodeRow>, tasks: map<TaskId, TaskRow>, t: TaskId, r': TaskRow, wf: string,
                          n: NodeDef)
    requires NodeOk(nodes, tasks, wf, n) && DependenciesDone(nodes, tasks, wf, n) && t in tasks
    requires tasks[t].status == Failed && r'.status == Failed && r'.def == tasks[t].def && r'.blocked == tasks[t].blocked
    ensures NodeOk(nodes, tasks[t := r'], wf, n)
  {
    var r := tasks[NodeTask(wf, n.id)];
    if !r.blocked { FrozenKept(tasks, tasks[t := r'], wf, n, r); }
  }

  lemma FlowKeptByFailure(s: Db, t: TaskId, r': TaskRow)
    requires FlowOk(s.runs, s.nodes, s.tasks) && t in s.tasks && s.tasks[t].status == Failed
    requires r'.def == s.tasks[t].def && r'.blocked == s.tasks[t].blocked
    requires r'.status == Failed || t !in s.nodes
    ensures FlowOk(s.runs, s.nodes, s.tasks[t := r'])
  {
    forall wf, n | wf in s.runs && n in s.runs[wf].def.nodes ensures NodeOk(s.nodes, s.tasks[t := r'], wf, n) {
      NodeFacts(s.runs, s.nodes, s.tasks, wf, n);
      if r'.status == Failed {
        NodeKeptByFailure(s.nodes, s.tasks, t, r', wf, n);
      } else {
        NodeKeptByRow(s.nodes, s.tasks, t, r', wf, n);
      }
    }
  }

  lemma EachNodeReopened(s: Db, t: TaskId, x: NodeRow, r': TaskRow, wf: string, n: NodeDef)
    requires FlowOk(s.runs, s.nodes, s.tasks) && Reopens(s.tasks, s.nodes, t, x, r')
    requires wf in s.runs && n in s.runs[wf].def.nodes
    ensures NodeOk(Reopened(s.nodes[t := x], t.workflow), s.tasks[t := r'], wf, n)
  {
    NodeFacts(s.runs, s.nodes, s.tasks, wf, n);
    hide NodeOk, FlowOk, DependenciesDone;
    if wf == t.workflow {
      NodeKeptByReopening(s.nodes, s.tasks, t, x, r', wf, n);
    } else {
      NodeKeptLocally(s.nodes, s.tasks, Reopened(s.nodes[t := x], t.workflow), s.tasks[t := r'], wf, n);
    }
  }

  lemma FlowKeptByReopening(s: Db, t: TaskId, x: NodeRow, r': TaskRow)
    requires FlowOk(s.runs, s.nodes, s.tasks) && Reopens(s.tasks, s.nodes, t, x, r')
    ensures FlowOk(s.runs, Reopened(s.nodes[t := x], t.workflow), s.tasks[t := r'])
  {
    var nodes', tasks' := Reopened(s.nodes[t := x], t.workflow), s.tasks[t := r'];
    forall wf, n | wf in s.runs && n in s.runs[wf].def.nodes ensures NodeOk(nodes', tasks', wf, n) {
      EachNodeReopened(s, t, x, r', wf, n);
    }
    assert nodes'.Keys == s.nodes.Keys;
    FlowAssembled(s.runs, s.nodes, s.tasks, nodes', tasks');
  }

  lemma FailedNode(s: Db, t: TaskId)
    requires FlowOk(s.runs, s.nodes, s.tasks) && t in s.nodes && t in s.tasks && s.tasks[t].status == Failed
    ensures t.NodeTask? && t.workflow in s.runs && s.nodes[t].state != NodeSuccess
  {
    assert HasDefinition(s.runs, t);
    var n :| IsNodeOf(s.runs, t, n);
    assert NodeOk(s.nodes, s.tasks, t.workflow, n);
  }

  lemma ResolvedRow(r: TaskRow, decision: Decision, extra: nat, supplied: Json, retryAt: Option<Time>)
    requires RowInv(r) && RowGuard(r, Resolve(decision, extra, supplied, retryAt))
    ensures var r' := RowApply(r, Resolve(decision, extra, supplied, retryAt));
      && r'.def == r.def && r'.blocked == r.blocked && r'.attempts == r.attempts && r.status == Failed
      && r'.status == (match decision case Retry => Retrying case Succeed => Success case Fail => Failed)
      && (decision == Retry ==> !r.blocked)
  {
  }

  /** The tables between the decision and the closing of its incident. */
  lemma DecisionShape(s: Db, c: Case, decision: Decision, extra: nat, supplied: Json, retryAt: Option<Time>)
    requires RecoveryGuard(s, Decide(c, decision, extra, supplied, retryAt))
    requires IncidentOk(c, s.incidents[c], s.holds, s.tasks, s.nodes)
    requires c.task in s.nodes ==> c.task.NodeTask? && c.task.workflow in s.runs
    ensures var r' := RowApply(s.tasks[c.task], Resolve(decision, extra, supplied, retryAt));
      var s2 := BeforeClosing(s, c, decision, extra, supplied, retryAt);
      && s2.tasks == s.tasks[c.task := r']
      && (c.task !in s.nodes || decision == Fail ==> s2 == s.(tasks := s2.tasks))
      && (c.task in s.nodes && decision != Fail ==>
            s2 == s.(tasks := s2.tasks,
                     nodes := Reopened(s.nodes[c.task := s.nodes[c.task].(state := Mirror(r'.status), error := None)], c.task.workflow),
                     runs := s.runs[c.task.workflow := s.runs[c.task.workflow].(status := RunRunning)]))
  {
  }

  /** The parts of the invariant that do not look at nodes, once the failed row is settled. */
  lemma ResolvedRowKeeps(s: Db, t: TaskId, a: RowAction)
    requires Inv(s) && t in s.tasks && a.Resolve? && RowGuard(s.tasks[t], a)
    ensures var tasks' := s.tasks[t := RowApply(s.tasks[t], a)];
      && RowsOk(tasks') && CallsOk(s.live, s.claims, s.attested, tasks', s.sessions)
      && HoldsOk(s.incidents, s.holds, tasks', s.nodes) && BudgetsOk(s.runs, s.nodes, tasks', s.admitted)
  {
    assert RowInv(s.tasks[t]);
    ResolvedRow(s.tasks[t], a.decision, a.extra, a.supplied, a.retryAt);
    RowsKept(s.tasks, t, a);
    WaitingIsDone(s, t);
    CallsKeptByEnd(s, t, RowApply(s.tasks[t], a));
    HoldsKeptByRow(s, t, RowApply(s.tasks[t], a));
    BudgetsKeptByRow(s, t, a);
  }

  lemma ReopenedKeys(nodes: map<TaskId, NodeRow>, t: TaskId, x: NodeRow)
    requires t in nodes && t.NodeTask? && x.llm == nodes[t].llm
    ensures SameFlags(nodes, Reopened(nodes[t := x], t.workflow))
  {
  }

  lemma ReopenedInv(s: Db, t: TaskId, x: NodeRow, r': TaskRow)
    requires Inv(s) && Reopens(s.tasks, s.nodes, t, x, r') && x.llm == s.nodes[t].llm && t.workflow in s.runs
    requires RowsOk(s.tasks[t := r']) && CallsOk(s.live, s.claims, s.attested, s.tasks[t := r'], s.sessions)
    requires HoldsOk(s.incidents, s.holds, s.tasks[t := r'], s.nodes)
    requires BudgetsOk(s.runs, s.nodes, s.tasks[t := r'], s.admitted)
    requires FlowOk(s.runs, Reopened(s.nodes[t := x], t.workflow), s.tasks[t := r'])
    ensures Inv(s.(tasks := s.tasks[t := r'], nodes := Reopened(s.nodes[t := x], t.workflow),
                   runs := s.runs[t.workflow := s.runs[t.workflow].(status := RunRunning)]))
  {
    hide RowsOk, SessionsOk, CallsOk, HoldsOk, FlowOk, BudgetsOk;
    var runs' := s.runs[t.workflow := s.runs[t.workflow].(status := RunRunning)];
    var nodes', tasks' := Reopened(s.nodes[t := x], t.workflow), s.tasks[t := r'];
    ReopenedKeys(s.nodes, t, x);
    FlowKeptByRuns(s.runs, nodes', tasks', runs');
    HoldsKeptByNodes(s.incidents, s.holds, tasks', s.nodes, nodes');
    BudgetsKeptByNodes(s.runs, s.nodes, tasks', s.admitted, runs', nodes');
  }

  lemma DecisionFacts(s: Db, c: Case)
    requires Inv(s) && c in s.incidents && c.task in s.tasks
    ensures IncidentOk(c, s.incidents[c], s.holds, s.tasks, s.nodes) && RowInv(s.tasks[c.task])
  {
  }

  lemma DecisionReopens(s: Db, c: Case, decision: Decision, extra: nat, supplied: Json, retryAt: Option<Time>)
    requires Inv(s) && RecoveryGuard(s, Decide(c, decision, extra, supplied, retryAt))
    requires c.task in s.nodes && decision != Fail
    ensures Inv(BeforeClosing(s, c, decision, extra, supplied, retryAt))
  {
    hide RowsOk, SessionsOk, CallsOk, HoldsOk, FlowOk, BudgetsOk;
    var t := c.task;
    var r' := RowApply(s.tasks[t], Resolve(decision, extra, supplied, retryAt));
    var x := s.nodes[t].(state := Mirror(r'.status), error := None);
    DecisionFacts(s, c);
    FailedNode(s, t);
    ResolvedRow(s.tasks[t], decision, extra, supplied, retryAt);
    ResolvedRowKeeps(s, t, Resolve(decision, extra, supplied, retryAt));
    DecisionShape(s, c, decision, extra, supplied, retryAt);
    FlowKeptByReopening(s, t, x, r');
    ReopenedInv(s, t, x, r');
  }

  lemma DecisionLeavesNodes(s: Db, c: Case, decision: Decision, extra: nat, supplied: Json, retryAt: Option<Time>)
    requires Inv(s) && RecoveryGuard(s, Decide(c, decision, extra, supplied, retryAt))
    requires c.task !in s.nodes || decision == Fail
    ensures Inv(BeforeClosing(s, c, decision, extra, supplied, retryAt))
  {
    hide RowsOk, SessionsOk, CallsOk, HoldsOk, FlowOk, BudgetsOk;
    var t := c.task;
    DecisionFacts(s, c);
    if t in s.nodes { FailedNode(s, t); }
    ResolvedRow(s.tasks[t], decision, extra, supplied, retryAt);
    ResolvedRowKeeps(s, t, Resolve(decision, extra, supplied, retryAt));
    DecisionShape(s, c, decision, extra, supplied, retryAt);
    FlowKeptByFailure(s, t, RowApply(s.tasks[t], Resolve(decision, extra, supplied, retryAt)));
  }

  lemma DecideKeeps(s: Db, c: Case, decision: Decision, extra: nat, supplied: Json, retryAt: Option<Time>)
    requires Inv(s) && RecoveryGuard(s, Decide(c, decision, extra, supplied, retryAt))
    ensures Inv(Settled(s, c, decision, extra, supplied, retryAt))
  {
    hide RowsOk, SessionsOk, CallsOk, HoldsOk, FlowOk, BudgetsOk;
    if c.task in s.nodes && decision != Fail {
      DecisionReopens(s, c, decision, extra, supplied, retryAt);
    } else {
      DecisionLeavesNodes(s, c, decision, extra, supplied, retryAt);
    }
    CloseKeeps(BeforeClosing(s, c, decision, extra, supplied, retryAt), c, Decided(decision, extra));
  }

  // ---------------------------------------------------------------- the steps

  lemma NodesAreNodeTasks(s: Db, t: TaskId)
    requires FlowOk(s.runs, s.nodes, s.tasks) && t in s.nodes
    ensures t.NodeTask?
  {
    assert HasDefinition(s.runs, t);
  }

  lemma ReconcileKeeps(s: Db, t: TaskId)
    requires Inv(s) && RecoveryGuard(s, ReconcileStopped(t))
    ensures Inv(SetRow(s, t, Reconcile))
  {
    assert RowInv(s.tasks[t]);
    TakenIsDone(s, t);
    EndKeeps(s, t, Reconcile);
  }

  lemma OpenKeeps(s: Db, t: TaskId, kind: IncidentKind, reason: Reason)
    requires Inv(s) && t in s.tasks
    ensures Inv(Opened(s, t, kind, reason))
  {
    if t in s.nodes { NodesAreNodeTasks(s, t); }
    OpenedKeeps(s, t, kind, reason);
  }

  lemma OperatorKeeps(s: Db, wf: string)
    requires Inv(s)
    ensures Inv(s.(holds := s.holds + {Hold(WorkflowScope(wf), ByOperator)}))
    ensures Inv(s.(holds := s.holds - {Hold(WorkflowScope(wf), ByOperator)}))
  {
    OperatorHoldsKeep(s, wf);
  }

  lemma AttestKeeps(s: Db, t: TaskId, attempt: nat)
    requires Inv(s) && RecoveryGuard(s, Attest(t, attempt))
    ensures Inv(s.(attested := s.attested + {Case(t, attempt)}))
  {
    hide RowsOk, SessionsOk, HoldsOk, FlowOk, BudgetsOk;
  }

  lemma InvKept(s: Db, a: RecoveryAction)
    requires Inv(s) && RecoveryGuard(s, a)
    ensures Inv(RecoveryApply(s, a))
  {
    hide RowsOk, SessionsOk, CallsOk, HoldsOk, FlowOk, BudgetsOk;
    match a
    case ReconcileStopped(t) => ReconcileKeeps(s, t);
    case Decide(c, decision, extra, supplied, retryAt) => DecideKeeps(s, c, decision, extra, supplied, retryAt);
    case OpenIncident(t, kind, reason) => OpenKeeps(s, t, kind, reason);
    case CloseIncident(c, resolution) => CloseKeeps(s, c, resolution);
    case Pause(wf) => OperatorKeeps(s, wf);
    case Resume(wf) => OperatorKeeps(s, wf);
    case Attest(t, attempt) => AttestKeeps(s, t, attempt);
  }
}
