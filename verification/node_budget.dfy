/** When the stored retry limit bounds the retries of workflow nodes. */
module NodeBudget {
  import opened Types
  import opened Rows
  import opened Bindings
  import opened Graph
  import opened Protocol
  import opened Reachable
  import opened History
  import opened Safety
  import opened RetryBudget
  import KeepSubmit

  /** The `k`-th step submits a workflow that has this node. */
  ghost predicate Submits(run: seq<Db>, k: nat, wf: string, def: WorkflowDef, policy: Option<nat>, llm: set<string>,
                          sequence: nat, n: NodeDef)
  {
    TakesStep(run, k, ByWorkflow(SubmitRun(wf, def, policy, llm, sequence))) && n in def.nodes
  }

  ghost predicate WithinStored(s: Db, t: TaskId) {
    t in s.tasks && s.tasks[t].retries <= s.tasks[t].retryLimit
  }

  /** However a node with this cap is run, in whatever workflow submitted with this policy, its retries stay
      within the limit stored in its row. */
  ghost predicate NodeLimitBinds(cap: Option<nat>, policy: Option<nat>) {
    forall run: seq<Db>, k: nat, i: nat, wf: string, def: WorkflowDef, llm: set<string>, sequence: nat, n: NodeDef |
      Behaviour(run) && Submits(run, k, wf, def, policy, llm, sequence, n) && n.maxRetries == cap && k < i < |run| ::
      WithinStored(run[i], NodeTask(wf, n.id))
  }

  /** Without a policy the submission stores the limit 0 whatever the cap of the node is, but recovery and remote
      reports follow the cap. So the limit binds exactly when there is no cap, a policy, or the cap 0. */
  lemma NodeLimitBindsExactly(cap: Option<nat>, policy: Option<nat>)
    ensures NodeLimitBinds(cap, policy) <==> cap.None? || policy.Some? || cap.value == 0
  {
    if cap.None? || policy.Some? || cap.value == 0 {
      forall run: seq<Db>, k: nat, i: nat, wf: string, def: WorkflowDef, llm: set<string>, sequence: nat, n: NodeDef |
        Behaviour(run) && Submits(run, k, wf, def, policy, llm, sequence, n) && n.maxRetries == cap && k < i < |run|
        ensures WithinStored(run[i], NodeTask(wf, n.id))
      {
        NodeWithinLimit(run, k, i, wf, def, policy, llm, sequence, n);
      }
    } else {
      var run := RecoveredNode(cap.value);
      var def := Flow(cap.value);
      assert def.nodes[0] in def.nodes;
      assert Submits(run, 0, "flow", def, policy, {}, 0, def.nodes[0]);
      assert !WithinStored(run[|run| - 1], NodeTask("flow", def.nodes[0].id));
    }
  }

  lemma NodeRowInserted(s: Db, wf: string, def: WorkflowDef, policy: Option<nat>, llm: set<string>, sequence: nat,
                        n: NodeDef)
    requires FlowGuard(s, SubmitRun(wf, def, policy, llm, sequence)) && n in def.nodes
    ensures var s', t := FlowApply(s, SubmitRun(wf, def, policy, llm, sequence)), NodeTask(wf, n.id);
      && t in s'.tasks && s'.tasks[t].def.maxRetries == n.maxRetries
      && s'.tasks[t].retryLimit == NodeLimit(n, policy)
  {
    var i :| 0 <= i < |def.nodes| && def.nodes[i] == n;
    KeepSubmit.RowOfNode(wf, def, policy, llm, sequence, i);
    hide RunTasks, RunNodes, WellFormed;
  }

  lemma NodeWithinLimit(run: seq<Db>, k: nat, i: nat, wf: string, def: WorkflowDef, policy: Option<nat>,
                        llm: set<string>,
                        sequence: nat, n: NodeDef)
    requires Behaviour(run) && TakesStep(run, k, ByWorkflow(SubmitRun(wf, def, policy, llm, sequence)))
    requires n in def.nodes && k < i < |run| && (n.maxRetries.None? || policy.Some? || n.maxRetries.value == 0)
    ensures NodeTask(wf, n.id) in run[i].tasks
    ensures run[i].tasks[NodeTask(wf, n.id)].retries <= run[i].tasks[NodeTask(wf, n.id)].retryLimit
  {
    hide Steps, FlowGuard, FlowApply;
    NodeRowInserted(run[k], wf, def, policy, llm, sequence, n);
    TaskAlong(run, k + 1, i, NodeTask(wf, n.id));
    RetryBounds(run, i, NodeTask(wf, n.id));
  }

  // ---------------------------------------------------------------- the run that passes the limit

  const STEP := NodeTask("flow", "step")
  const WORK := Invocation(STEP, 1, "owner", None)

  function OneNode(cap: nat): NodeDef { NodeDef("step", "handler", [], [], map[], [], 0, Some(cap), true, None, []) }

  function Flow(cap: nat): WorkflowDef { WorkflowDef([OneNode(cap)], None) }

  lemma NoBindings(cap: nat)
    ensures Slots(OneNode(cap)) == [] && Dependencies(OneNode(cap)) == [] && Materialize(OneNode(cap), map[]) == Some(map[])
  {
    assert Slots(OneNode(cap)) == [];
    assert OneNode(cap).dependsOn + SourceNodes(Slots(OneNode(cap))) == [];
  }

  lemma NoCycle(cap: nat, p: seq<string>)
    ensures !IsCycle(Flow(cap).nodes, p)
  {
    NoBindings(cap);
    hide Dependencies, Slots;
    assert 2 <= |p| ==> !Edge(Flow(cap).nodes, p[0], p[0 + 1]);
  }

  lemma FlowIsWellFormed(cap: nat)
    ensures WellFormed(Flow(cap).nodes)
  {
    NoBindings(cap);
    forall p ensures !IsCycle(Flow(cap).nodes, p) { NoCycle(cap, p); }
  }

  /** The tables hold just this node and its task. */
  ghost predicate JustNode(s: Db, cap: nat) {
    && s.tasks.Keys == {STEP} && s.nodes.Keys == {STEP} && !s.nodes[STEP].llm && s.holds == {} && s.incidents == map[]
    && s.runs.Keys == {"flow"} && s.runs["flow"].def == Flow(cap)
    && s.tasks[STEP].def.idempotent && s.tasks[STEP].def.maxRetries == Some(cap) && s.tasks[STEP].def.scheduledAt.None?
    && s.tasks[STEP].sequence == 0 && s.tasks[STEP].retries == 0 && s.tasks[STEP].retryLimit == 0
    && s.tasks[STEP].retryAt.None? && s.tasks[STEP].session.None?
  }

  /** A run that began with the submission. */
  ghost predicate Begun(run: seq<Db>, cap: nat) {
    Behaviour(run) && |run| >= 2 && TakesStep(run, 0, ByWorkflow(SubmitRun("flow", Flow(cap), None, {}, 0)))
  }

  lemma More(run: seq<Db>, cap: nat, a: Action) returns (run': seq<Db>)
    requires Begun(run, cap) && Guard(run[|run| - 1], a)
    ensures Begun(run', cap) && run'[|run'| - 1] == Apply(run[|run| - 1], a)
  {
    hide Guard, Apply;
    run' := Extend(run, a);
    assert run'[0] == run[0] && run'[1] == run[1];
  }

  lemma FirstRows(cap: nat)
    ensures RunTasks("flow", Flow(cap), None, 0) == map[STEP := NewRow(BaseDef(OneNode(cap)), 0, true, 0)]
    ensures RunNodes("flow", Flow(cap), {}) == map[STEP := NodeRow(Waiting, None, false)]
  {
    KeepSubmit.RowOfNode("flow", Flow(cap), None, {}, 0, 0);
    assert NodeTasks("flow", Flow(cap).nodes) == {STEP};
  }

  lemma SubmitFlow(cap: nat) returns (run: seq<Db>)
    ensures Begun(run, cap)
    ensures var s := run[|run| - 1];
      && JustNode(s, cap) && s.live == {} && s.nodes[STEP].state == Waiting
      && s.tasks[STEP].status == Pending && s.tasks[STEP].blocked && s.tasks[STEP].attempts == 0
  {
    hide WellFormed, RunTasks, RunNodes;
    FlowIsWellFormed(cap);
    FirstRows(cap);
    var a := ByWorkflow(SubmitRun("flow", Flow(cap), None, {}, 0));
    assert Behaviour([EMPTY]);
    run := Extend([EMPTY], a);
    assert run[0] == EMPTY && run[1] == FlowApply(EMPTY, SubmitRun("flow", Flow(cap), None, {}, 0));
  }

  lemma DispatchStep(s: Db, cap: nat)
    requires JustNode(s, cap) && s.live == {} && s.nodes[STEP].state == Waiting
    requires s.tasks[STEP].status == Pending && s.tasks[STEP].blocked && s.tasks[STEP].attempts == 0
    ensures var a := ByWorkflow(Dispatch("flow", OneNode(cap)));
      && Guard(s, a) && var s' := Apply(s, a);
         JustNode(s', cap) && s'.live == {} && s'.tasks[STEP].status == Pending && !s'.tasks[STEP].blocked && s'.tasks[STEP].attempts == 0
  {
    NoBindings(cap);
    assert OneNode(cap) in Flow(cap).nodes;
    assert Outputs(s.tasks, "flow", OneNode(cap)) == map[];
    var a := ByWorkflow(Dispatch("flow", OneNode(cap)));
    hide Slots, Dependencies, Materialize, Outputs;
    assert Guard(s, a);
    var s' := Apply(s, a);
    assert s'.tasks.Keys == {STEP} && s'.nodes.Keys == {STEP};
  }

  lemma ClaimStep(s: Db, cap: nat)
    requires JustNode(s, cap) && s.live == {} && s.tasks[STEP].status == Pending && !s.tasks[STEP].blocked && s.tasks[STEP].attempts == 0
    ensures var a := ByStore(Claim(STEP, "owner", None, 0));
      && Guard(s, a) && var s' := Apply(s, a);
         JustNode(s', cap) && s'.live == {WORK} && s'.tasks[STEP].status == Running && !s'.tasks[STEP].blocked
  {
    assert Guard(s, ByStore(Claim(STEP, "owner", None, 0)));
    hide StoreGuard, Admission;
    var s' := AfterClaim(s, STEP, "owner", None);
    assert s'.tasks.Keys == {STEP};
  }

  lemma ReturnStep(s: Db, cap: nat)
    requires JustNode(s, cap) && s.live == {WORK} && s.tasks[STEP].status == Running && !s.tasks[STEP].blocked
    ensures var a := ByStore(EndInvocation(WORK));
      && Guard(s, a) && var s' := Apply(s, a);
         JustNode(s', cap) && s'.live == {} && s'.tasks[STEP].status == Running && !s'.tasks[STEP].blocked
  {
    assert {WORK} - {WORK} == {};
  }

  const LOST := Interrupt(false, 0, 0, 1)

  /** The interrupted attempt of an idempotent node is retried within its cap, although the stored limit is 0. */
  lemma RecoverStep(s: Db, cap: nat)
    requires JustNode(s, cap) && s.live == {} && s.tasks[STEP].status == Running && !s.tasks[STEP].blocked && cap > 0
    ensures var a := ByStore(Recover(STEP, LOST));
      && Guard(s, a) && var s' := Apply(s, a); STEP in s'.tasks && s'.tasks[STEP].retries == 1 && s'.tasks[STEP].retryLimit == 0
  {
  }

  lemma RecoveredNode(cap: nat) returns (run: seq<Db>)
    requires cap > 0
    ensures Begun(run, cap)
    ensures STEP in run[|run| - 1].tasks && run[|run| - 1].tasks[STEP].retries > run[|run| - 1].tasks[STEP].retryLimit
  {
    hide Guard, Apply, JustNode;
    run := SubmitFlow(cap);
    DispatchStep(run[|run| - 1], cap);
    run := More(run, cap, ByWorkflow(Dispatch("flow", OneNode(cap))));
    ClaimStep(run[|run| - 1], cap);
    run := More(run, cap, ByStore(Claim(STEP, "owner", None, 0)));
    ReturnStep(run[|run| - 1], cap);
    run := More(run, cap, ByStore(EndInvocation(WORK)));
    RecoverStep(run[|run| - 1], cap);
    run := More(run, cap, ByStore(Recover(STEP, LOST)));
  }
}
