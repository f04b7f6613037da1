/** Submissions only add rows. */
module KeepSubmit {
  import opened Types
  import opened Rows
  import opened Graph
  import opened Protocol
  import opened Invariants
  import opened UsageFacts
  import opened KeepFlow
  import Usage

  ghost predicate Grows<K(!new), V>(m: map<K, V>, m': map<K, V>) {
    forall k | k in m :: k in m' && m'[k] == m[k]
  }

  lemma NodeKeptByGrowth(nodes: map<TaskId, NodeRow>, tasks: map<TaskId, TaskRow>,
                         nodes': map<TaskId, NodeRow>, tasks': map<TaskId, TaskRow>, wf: string, n: NodeDef)
    requires Grows(nodes, nodes') && Grows(tasks, tasks')
    requires NodeOk(nodes, tasks, wf, n) && DependenciesDone(nodes, tasks, wf, n)
    ensures NodeOk(nodes', tasks', wf, n)
  {
    var t := NodeTask(wf, n.id);
    if AllSucceeded(nodes, wf, n) {
      forall d | d in Dependencies(n) ensures StateOf(nodes', wf, d) == Some(NodeSuccess) {
        assert StateOf(nodes, wf, d) == Some(NodeSuccess);
      }
    }
    if SomeFailed(nodes, wf, n) {
      var d :| d in Dependencies(n) && (StateOf(nodes, wf, d) == Some(NodeFailed) || StateOf(nodes, wf, d) == Some(Skipped));
      assert StateOf(nodes', wf, d) == StateOf(nodes, wf, d);
    }
    if !tasks[t].blocked { FrozenKept(tasks, tasks', wf, n, tasks[t]); }
  }

  lemma FlowKeptByGrowth(runs: map<string, RunRow>, nodes: map<TaskId, NodeRow>, tasks: map<TaskId, TaskRow>,
                         nodes': map<TaskId, NodeRow>, tasks': map<TaskId, TaskRow>)
    requires FlowOk(runs, nodes, tasks) && Grows(nodes, nodes') && Grows(tasks, tasks')
    ensures forall wf, n | wf in runs && n in runs[wf].def.nodes :: NodeOk(nodes', tasks', wf, n)
  {
    forall wf, n | wf in runs && n in runs[wf].def.nodes ensures NodeOk(nodes', tasks', wf, n) {
      NodeFacts(runs, nodes, tasks, wf, n);
      NodeKeptByGrowth(nodes, tasks, nodes', tasks', wf, n);
    }
  }

  lemma LlmTasksInTables(runs: map<string, RunRow>, nodes: map<TaskId, NodeRow>, tasks: map<TaskId, TaskRow>,
                         wf: string)
    requires FlowOk(runs, nodes, tasks) && wf in runs
    ensures Distinct(Usage.LlmTasks(wf, runs[wf].def.nodes, nodes))
    ensures forall t | t in Usage.LlmTasks(wf, runs[wf].def.nodes, nodes) ::
              t in tasks && t in nodes && nodes[t].llm && t.NodeTask? && t.workflow == wf
  {
    var defs := runs[wf].def.nodes;
    LlmTasksMembers(wf, defs, nodes);
    forall n | n in defs ensures NodeTask(wf, n.id) in tasks { assert NodeOk(nodes, tasks, wf, n); }
  }

  /** Adding rows changes the usage of no workflow that was there. */
  lemma BudgetKeptByGrowth(runs: map<string, RunRow>, nodes: map<TaskId, NodeRow>, tasks: map<TaskId, TaskRow>,
                           nodes': map<TaskId, NodeRow>, tasks': map<TaskId, TaskRow>, wf: string, last: Option<Case>)
    requires FlowOk(runs, nodes, tasks) && wf in runs && Grows(nodes, nodes') && Grows(tasks, tasks')
    requires BudgetOk(runs[wf].def.budget, tasks, Usage.LlmTasks(wf, runs[wf].def.nodes, nodes), last)
    ensures BudgetOk(runs[wf].def.budget, tasks', Usage.LlmTasks(wf, runs[wf].def.nodes, nodes'), last)
  {
    LlmTasksInTables(runs, nodes, tasks, wf);
    forall n | n in runs[wf].def.nodes ensures NodeTask(wf, n.id) in nodes { assert NodeOk(nodes, tasks, wf, n); }
    LlmTasksUnchanged(wf, runs[wf].def.nodes, nodes, nodes');
    UsageUnchanged(tasks, tasks', Usage.LlmTasks(wf, runs[wf].def.nodes, nodes));
  }

  lemma CallsKeptByGrowth(s: Db, tasks': map<TaskId, TaskRow>)
    requires CallsOk(s.live, s.claims, s.attested, s.tasks, s.sessions) && Grows(s.tasks, tasks')
    requires forall t | t in tasks' && t !in s.tasks :: tasks'[t].status == Pending
    ensures CallsOk(s.live, s.claims, s.attested, tasks', s.sessions)
  {
    forall i | i in s.live ensures CallOk(i, tasks', s.sessions) { assert CallOk(i, s.tasks, s.sessions); }
    forall t | t in tasks' ensures ClaimOk(tasks'[t], t, s.claims, s.sessions) {
      assert t in s.tasks ==> ClaimOk(s.tasks[t], t, s.claims, s.sessions);
    }
  }

  lemma HoldsKeptByGrowth(s: Db, nodes': map<TaskId, NodeRow>, tasks': map<TaskId, TaskRow>)
    requires HoldsOk(s.incidents, s.holds, s.tasks, s.nodes) && Grows(s.nodes, nodes') && Grows(s.tasks, tasks')
    requires forall t | t in nodes' && t !in s.nodes :: t !in s.tasks
    ensures HoldsOk(s.incidents, s.holds, tasks', nodes')
  {
    forall c | c in s.incidents ensures IncidentOk(c, s.incidents[c], s.holds, tasks', nodes') {
      assert IncidentOk(c, s.incidents[c], s.holds, s.tasks, s.nodes);
    }
  }

  lemma RowsKeptByTask(tasks: map<TaskId, TaskRow>, t: TaskId, r: TaskRow)
    requires RowsOk(tasks) && t !in tasks && RowInv(r)
    requires forall u | u in tasks :: tasks[u].sequence < r.sequence
    ensures RowsOk(tasks[t := r])
  {
  }

  lemma BudgetsKeptByGrowth(s: Db, nodes': map<TaskId, NodeRow>, tasks': map<TaskId, TaskRow>)
    requires FlowOk(s.runs, s.nodes, s.tasks) && BudgetsOk(s.runs, s.nodes, s.tasks, s.admitted)
    requires Grows(s.nodes, nodes') && Grows(s.tasks, tasks')
    ensures BudgetsOk(s.runs, nodes', tasks', s.admitted)
  {
    forall wf | wf in s.runs
      ensures BudgetOk(s.runs[wf].def.budget, tasks', Usage.LlmTasks(wf, s.runs[wf].def.nodes, nodes'), LastAdmitted(s.admitted, wf))
    {
      BudgetKeptByGrowth(s.runs, s.nodes, s.tasks, nodes', tasks', wf, LastAdmitted(s.admitted, wf));
    }
  }

  lemma FlowOkGrown(runs: map<string, RunRow>, nodes: map<TaskId, NodeRow>, tasks: map<TaskId, TaskRow>,
                    tasks': map<TaskId, TaskRow>)
    requires FlowOk(runs, nodes, tasks) && Grows(tasks, tasks')
    ensures FlowOk(runs, nodes, tasks')
  {
    FlowKeptByGrowth(runs, nodes, tasks, nodes, tasks');
  }

  lemma SubmitTaskKeeps(s: Db, t: TaskId, def: TaskDef, limit: nat, sequence: nat)
    requires Inv(s) && StoreGuard(s, SubmitTask(t, def, limit, sequence))
    ensures Inv(StoreApply(s, SubmitTask(t, def, limit, sequence)))
  {
    var r := NewRow(def, limit, false, sequence);
    var tasks' := s.tasks[t := r];
    NewRowInv(def, limit, false, sequence);
    RowsKeptByTask(s.tasks, t, r);
    CallsKeptByGrowth(s, tasks');
    HoldsKeptByGrowth(s, s.nodes, tasks');
    FlowOkGrown(s.runs, s.nodes, s.tasks, tasks');
    BudgetsKeptByGrowth(s, s.nodes, tasks');
  }

  // ---------------------------------------------------------------- a new run

  /** The rows of the node at one position. */
  lemma RowOfNode(wf: string, run: WorkflowDef, policy: Option<nat>, llm: set<string>, sequence: nat, i: nat)
    requires DistinctIds(run.nodes) && i < |run.nodes|
    ensures var n, t := run.nodes[i], NodeTask(wf, run.nodes[i].id);
      && t in RunTasks(wf, run, policy, sequence) && t in RunNodes(wf, run, llm)
      && RunTasks(wf, run, policy, sequence)[t] == NewRow(BaseDef(n), NodeLimit(n, policy), true, sequence + i)
      && RunNodes(wf, run, llm)[t] == NodeRow(Waiting, None, n.id in llm)
  {
    assert run.nodes[i] in run.nodes;
    assert Position(run.nodes, run.nodes[i].id) == i;
  }

  lemma RunPosition(wf: string, run: WorkflowDef, policy: Option<nat>, llm: set<string>, sequence: nat, t: TaskId)
    returns (i: nat)
    requires DistinctIds(run.nodes) && (t in RunTasks(wf, run, policy, sequence) || t in RunNodes(wf, run, llm))
    ensures i < |run.nodes| && t == NodeTask(wf, run.nodes[i].id)
  {
    i := Position(run.nodes, t.node);
  }

  ghost predicate BrandNew(r: TaskRow, sequence: nat) {
    r.status == Pending && r.attempts == 0 && sequence <= r.sequence && RowInv(r)
  }

  lemma RowIsNew(wf: string, run: WorkflowDef, policy: Option<nat>, llm: set<string>, sequence: nat, t: TaskId)
    requires DistinctIds(run.nodes) && (t in RunTasks(wf, run, policy, sequence) || t in RunNodes(wf, run, llm))
    ensures t in RunTasks(wf, run, policy, sequence) && t in RunNodes(wf, run, llm)
    ensures BrandNew(RunTasks(wf, run, policy, sequence)[t], sequence)
  {
    hide RowInv;
    var i := RunPosition(wf, run, policy, llm, sequence, t);
    RowOfNode(wf, run, policy, llm, sequence, i);
    NewRowInv(BaseDef(run.nodes[i]), NodeLimit(run.nodes[i], policy), true, sequence + i);
  }

  lemma SameRows(wf: string, run: WorkflowDef, policy: Option<nat>, llm: set<string>, sequence: nat)
    requires DistinctIds(run.nodes)
    ensures RunTasks(wf, run, policy, sequence).Keys == RunNodes(wf, run, llm).Keys
    ensures forall t | t in RunTasks(wf, run, policy, sequence) :: BrandNew(RunTasks(wf, run, policy, sequence)[t], sequence)
  {
    hide RunTasks, RunNodes, BrandNew;
    forall t | t in RunTasks(wf, run, policy, sequence) || t in RunNodes(wf, run, llm)
      ensures t in RunTasks(wf, run, policy, sequence) && t in RunNodes(wf, run, llm)
      ensures BrandNew(RunTasks(wf, run, policy, sequence)[t], sequence)
    {
      RowIsNew(wf, run, policy, llm, sequence, t);
    }
  }

  lemma NumbersDistinct(wf: string, run: WorkflowDef, policy: Option<nat>, sequence: nat, t: TaskId, u: TaskId)
    requires DistinctIds(run.nodes)
    requires t in RunTasks(wf, run, policy, sequence) && u in RunTasks(wf, run, policy, sequence)
    requires RunTasks(wf, run, policy, sequence)[t].sequence == RunTasks(wf, run, policy, sequence)[u].sequence
    ensures t == u
  {
    var i := RunPosition(wf, run, policy, {}, sequence, t);
    var j := RunPosition(wf, run, policy, {}, sequence, u);
    RowOfNode(wf, run, policy, {}, sequence, i);
    RowOfNode(wf, run, policy, {}, sequence, j);
  }

  lemma RunRowsOk(tasks: map<TaskId, TaskRow>, wf: string, run: WorkflowDef, policy: Option<nat>, sequence: nat)
    requires RowsOk(tasks) && DistinctIds(run.nodes) && forall t | t in tasks :: tasks[t].sequence < sequence
    ensures RowsOk(tasks + RunTasks(wf, run, policy, sequence))
  {
    var added := RunTasks(wf, run, policy, sequence);
    SameRows(wf, run, policy, {}, sequence);
    forall t, u | t in added && u in added && added[t].sequence == added[u].sequence ensures t == u {
      NumbersDistinct(wf, run, policy, sequence, t, u);
    }
  }

  lemma NewNodeOk(nodes: map<TaskId, NodeRow>, tasks: map<TaskId, TaskRow>, wf: string, run: WorkflowDef,
                  policy: Option<nat>, llm: set<string>, sequence: nat, n: NodeDef)
    requires DistinctIds(run.nodes) && n in run.nodes
    ensures NodeOk(nodes + RunNodes(wf, run, llm), tasks + RunTasks(wf, run, policy, sequence), wf, n)
  {
    var i :| 0 <= i < |run.nodes| && run.nodes[i] == n;
    RowOfNode(wf, run, policy, llm, sequence, i);
  }

  lemma NodesOfRuns(runs: map<string, RunRow>, nodes: map<TaskId, NodeRow>, tasks: map<TaskId, TaskRow>,
                    wf: string, run: WorkflowDef, llm: set<string>, t: TaskId)
    requires FlowOk(runs, nodes, tasks) && wf !in runs && t in nodes + RunNodes(wf, run, llm)
    ensures HasDefinition(runs[wf := RunRow(run, RunPending)], t)
  {
    var runs' := runs[wf := RunRow(run, RunPending)];
    if t in RunNodes(wf, run, llm) {
      var n :| n in run.nodes && t == NodeTask(wf, n.id);
      assert IsNodeOf(runs', t, n);
    } else {
      var n :| IsNodeOf(runs, t, n);
      assert IsNodeOf(runs', t, n);
    }
  }

  lemma RunFlowOk(runs: map<string, RunRow>, nodes: map<TaskId, NodeRow>, tasks: map<TaskId, TaskRow>,
                  wf: string, run: WorkflowDef, policy: Option<nat>, llm: set<string>, sequence: nat)
    requires FlowOk(runs, nodes, tasks) && wf !in runs && WellFormed(run.nodes)
    requires Grows(tasks, tasks + RunTasks(wf, run, policy, sequence))
    requires Grows(nodes, nodes + RunNodes(wf, run, llm))
    ensures FlowOk(runs[wf := RunRow(run, RunPending)], nodes + RunNodes(wf, run, llm), tasks + RunTasks(wf, run, policy, sequence))
  {
    var nodes', tasks' := nodes + RunNodes(wf, run, llm), tasks + RunTasks(wf, run, policy, sequence);
    FlowKeptByGrowth(runs, nodes, tasks, nodes', tasks');
    forall n | n in run.nodes ensures NodeOk(nodes', tasks', wf, n) {
      NewNodeOk(nodes, tasks, wf, run, policy, llm, sequence, n);
    }
    forall t | t in nodes' ensures HasDefinition(runs[wf := RunRow(run, RunPending)], t) {
      NodesOfRuns(runs, nodes, tasks, wf, run, llm, t);
    }
  }

  lemma LlmTasksOfRun(nodes': map<TaskId, NodeRow>, wf: string, run: WorkflowDef, policy: Option<nat>, sequence: nat)
    requires DistinctIds(run.nodes)
    ensures forall t | t in Usage.LlmTasks(wf, run.nodes, nodes') :: t in RunTasks(wf, run, policy, sequence)
  {
    LlmTasksMembers(wf, run.nodes, nodes');
  }

  lemma RunBudgetOk(nodes': map<TaskId, NodeRow>, tasks: map<TaskId, TaskRow>, wf: string, run: WorkflowDef,
                    policy: Option<nat>,
                    sequence: nat, last: Option<Case>)
    requires DistinctIds(run.nodes)
    ensures BudgetOk(run.budget, tasks + RunTasks(wf, run, policy, sequence), Usage.LlmTasks(wf, run.nodes, nodes'), last)
  {
    LlmTasksOfRun(nodes', wf, run, policy, sequence);
    SameRows(wf, run, policy, {}, sequence);
    UsageOfNewRows(tasks + RunTasks(wf, run, policy, sequence), Usage.LlmTasks(wf, run.nodes, nodes'));
  }

  lemma NodesHaveTasks(runs: map<string, RunRow>, nodes: map<TaskId, NodeRow>, tasks: map<TaskId, TaskRow>)
    requires FlowOk(runs, nodes, tasks)
    ensures forall t | t in nodes :: t in tasks && t.NodeTask? && t.workflow in runs
  {
    forall t | t in nodes ensures t in tasks && t.NodeTask? && t.workflow in runs {
      var n :| IsNodeOf(runs, t, n);
      assert NodeOk(nodes, tasks, t.workflow, n);
    }
  }

  /** The inserted rows are new. */
  lemma RunIsNew(s: Db, wf: string, run: WorkflowDef, policy: Option<nat>, llm: set<string>, sequence: nat)
    requires FlowOk(s.runs, s.nodes, s.tasks) && FlowGuard(s, SubmitRun(wf, run, policy, llm, sequence))
    ensures forall t | t in RunTasks(wf, run, policy, sequence) :: t !in s.tasks
    ensures forall t | t in RunNodes(wf, run, llm) :: t !in s.tasks && t !in s.nodes
  {
    NodesHaveTasks(s.runs, s.nodes, s.tasks);
    forall t | t in RunTasks(wf, run, policy, sequence) || t in RunNodes(wf, run, llm) ensures t !in s.tasks {
      var i := RunPosition(wf, run, policy, llm, sequence, t);
      assert run.nodes[i] in run.nodes;
    }
  }

  lemma RunBudgetsOk(s: Db, wf: string, run: WorkflowDef, policy: Option<nat>, llm: set<string>, sequence: nat)
    requires FlowOk(s.runs, s.nodes, s.tasks) && BudgetsOk(s.runs, s.nodes, s.tasks, s.admitted)
    requires wf !in s.runs && DistinctIds(run.nodes)
    requires Grows(s.tasks, s.tasks + RunTasks(wf, run, policy, sequence))
    requires Grows(s.nodes, s.nodes + RunNodes(wf, run, llm))
    ensures BudgetsOk(s.runs[wf := RunRow(run, RunPending)], s.nodes + RunNodes(wf, run, llm),
                      s.tasks + RunTasks(wf, run, policy, sequence), s.admitted)
  {
    var tasks', nodes' := s.tasks + RunTasks(wf, run, policy, sequence), s.nodes + RunNodes(wf, run, llm);
    BudgetsKeptByGrowth(s, nodes', tasks');
    RunBudgetOk(nodes', s.tasks, wf, run, policy, sequence, LastAdmitted(s.admitted, wf));
  }

  lemma SubmitRunKeeps(s: Db, wf: string, run: WorkflowDef, policy: Option<nat>, llm: set<string>, sequence: nat)
    requires Inv(s) && FlowGuard(s, SubmitRun(wf, run, policy, llm, sequence))
    ensures Inv(FlowApply(s, SubmitRun(wf, run, policy, llm, sequence)))
  {
    hide RowsOk, SessionsOk, CallsOk, HoldsOk, FlowOk, BudgetsOk, RunTasks, RunNodes, RowInv;
    var tasks', nodes' := s.tasks + RunTasks(wf, run, policy, sequence), s.nodes + RunNodes(wf, run, llm);
    RunIsNew(s, wf, run, policy, llm, sequence);
    SameRows(wf, run, policy, llm, sequence);
    RunRowsOk(s.tasks, wf, run, policy, sequence);
    CallsKeptByGrowth(s, tasks');
    HoldsKeptByGrowth(s, nodes', tasks');
    RunFlowOk(s.runs, s.nodes, s.tasks, wf, run, policy, llm, sequence);
    RunBudgetsOk(s, wf, run, policy, llm, sequence);
  }
}
