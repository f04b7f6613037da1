/** A dead end: a run in which the budget refuses the retry that an operator granted, so that nobody can decide the
    task any more, and the exact condition for it. */
module Stranded {
  import opened Types
  import opened Rows
  import opened Bindings
  import opened Graph
  import opened Protocol
  import opened Invariants
  import opened Reachable
  import opened UsageFacts
  import History
  import KeepSubmit
  import Safety
  import Usage

  const NODE := NodeDef("draft", "llm", [], [], map[], [], 0, None, true, None, [])
  const RUN := WorkflowDef([NODE], Some(Budget(None, Some(1))))
  const TASK := NodeTask("flow", "draft")
  const ATTEMPT := Case(TASK, 1)
  const CALL := Invocation(TASK, 1, "owner", None)

  /** One workflow with one generation node; nothing else. */
  ghost predicate OneNode(s: Db) {
    && s.tasks.Keys == {TASK} && s.nodes.Keys == {TASK} && s.nodes[TASK].llm
    && s.runs.Keys == {"flow"} && s.runs["flow"].def == RUN
  }

  ghost predicate Alone(s: Db, limit: nat) {
    && OneNode(s)
    && s.tasks[TASK].def.idempotent && s.tasks[TASK].def.maxRetries.None? && s.tasks[TASK].def.scheduledAt.None?
    && s.tasks[TASK].sequence <= 1 && s.tasks[TASK].retries == 0 && s.tasks[TASK].retryLimit == limit
    && s.tasks[TASK].retryAt.None? && s.tasks[TASK].session.None?
  }

  lemma NodeHasNoDependencies()
    ensures Slots(NODE) == [] && Dependencies(NODE) == [] && Materialize(NODE, map[]) == Some(map[])
  {
    assert Slots(NODE) == [];
    assert NODE.dependsOn + SourceNodes(Slots(NODE)) == [];
  }

  lemma NoEdges(p: seq<string>)
    ensures !IsCycle(RUN.nodes, p)
  {
    NodeHasNoDependencies();
    hide Dependencies, Slots;
    assert 2 <= |p| ==> !Edge(RUN.nodes, p[0], p[0 + 1]);
  }

  lemma RunIsWellFormed()
    ensures WellFormed(RUN.nodes)
  {
    NodeHasNoDependencies();
    forall p ensures !IsCycle(RUN.nodes, p) { NoEdges(p); }
  }

  lemma Submitted(limit: nat) returns (s: Db)
    ensures Reaches(EMPTY, s) && Alone(s, limit) && s.holds == {} && s.live == {} && s.incidents == map[]
    ensures s.tasks[TASK].status == Pending && s.tasks[TASK].blocked && s.tasks[TASK].attempts == 0
    ensures s.nodes[TASK].state == Waiting && s.tasks[TASK].sequence == 0
  {
    hide WellFormed, Reaches, RunTasks, RunNodes;
    RunIsWellFormed();
    SubmittedRows(limit);
    ReachesSelf(EMPTY);
    ReachesStep(EMPTY, EMPTY, ByWorkflow(SubmitRun("flow", RUN, Some(limit), {"draft"}, 0)));
    s := FlowApply(EMPTY, SubmitRun("flow", RUN, Some(limit), {"draft"}, 0));
  }

  lemma SubmittedRows(limit: nat)
    ensures RunTasks("flow", RUN, Some(limit), 0) == map[TASK := NewRow(BaseDef(NODE), limit, true, 0)]
    ensures RunNodes("flow", RUN, {"draft"}) == map[TASK := NodeRow(Waiting, None, true)]
  {
    KeepSubmit.RowOfNode("flow", RUN, Some(limit), {"draft"}, 0, 0);
    assert NodeTasks("flow", RUN.nodes) == {TASK};
  }

  lemma Dispatched(s: Db, limit: nat) returns (s': Db)
    requires Reaches(EMPTY, s) && Alone(s, limit) && s.holds == {} && s.live == {} && s.incidents == map[]
    requires s.tasks[TASK].status == Pending && s.tasks[TASK].blocked && s.tasks[TASK].attempts == 0 && s.nodes[TASK].state == Waiting
    requires s.tasks[TASK].sequence == 0
    ensures Reaches(EMPTY, s') && Alone(s', limit) && s'.holds == {} && s'.live == {} && s'.incidents == map[]
    ensures s'.tasks[TASK].status == Pending && !s'.tasks[TASK].blocked && s'.tasks[TASK].attempts == 0 && s'.tasks[TASK].sequence == 0
  {
    hide Reaches;
    NodeHasNoDependencies();
    assert NODE in RUN.nodes;
    assert Outputs(s.tasks, "flow", NODE) == map[];
    var a := ByWorkflow(Dispatch("flow", NODE));
    hide Slots, Dependencies, Materialize, Outputs;
    ReachesStep(EMPTY, s, a);
    s' := Apply(s, a);
    assert s'.tasks.Keys == {TASK} && s'.nodes.Keys == {TASK};
  }

  lemma OneCall(s: Db)
    requires OneNode(s)
    ensures IsLlm(s, TASK) && Usage.LlmTasks("flow", RUN.nodes, s.nodes) == [TASK]
    ensures UsageOfRun(s, "flow") == Usage.RowTotals(s.tasks[TASK])
  {
    assert RUN.nodes[..0] == [];
    assert Usage.LlmTasks("flow", [], s.nodes) == [];
    assert Usage.LlmTasks("flow", RUN.nodes, s.nodes) == [] + [TASK];
    assert [TASK][..0] == [];
    assert Usage.UsageOf(s.tasks, []) == Usage.Totals(0, 0, 0, 0);
    hide Usage.RowTotals;
  }

  lemma Claimed(s: Db, limit: nat) returns (s': Db)
    requires Reaches(EMPTY, s) && Alone(s, limit) && s.holds == {} && s.live == {} && s.incidents == map[]
    requires s.tasks[TASK].status == Pending && !s.tasks[TASK].blocked && s.tasks[TASK].attempts == 0 && s.tasks[TASK].sequence == 0
    ensures Reaches(EMPTY, s') && Alone(s', limit) && s'.holds == {} && s'.live == {CALL} && s'.incidents == map[]
    ensures s'.tasks[TASK].status == Running && s'.tasks[TASK].attempts == 1 && s'.tasks[TASK].owner == Some("owner")
    ensures !s'.tasks[TASK].blocked && s'.tasks[TASK].sequence == 0
  {
    hide Reaches;
    MayClaim(s, limit);
    ReachesStep(EMPTY, s, ByStore(Claim(TASK, "owner", None, 0)));
    hide StoreGuard, Admission;
    s' := AfterClaim(s, TASK, "owner", None);
    assert s'.tasks.Keys == {TASK};
  }

  lemma MayClaim(s: Db, limit: nat)
    requires Alone(s, limit) && s.holds == {} && s.tasks[TASK].status == Pending && !s.tasks[TASK].blocked && s.tasks[TASK].attempts == 0
    ensures StoreGuard(s, Claim(TASK, "owner", None, 0))
  {
    OneCall(s);
    assert Usage.RowTotals(s.tasks[TASK]) == Usage.Totals(0, 0, 0, 0);
    hide Usage.RowTotals, Usage.LlmTasks, Usage.UsageOf;
  }

  const FAILURE := FinishFailure(Error("TimeoutError", Some(Uncertain)), false, LocalExecutor, 0, 0, 1)

  /** The call returned, and its executor reported a failure that is not retried by itself. */
  lemma Reported(s: Db, limit: nat) returns (s': Db)
    requires Reaches(EMPTY, s) && Alone(s, limit) && s.holds == {} && s.live == {CALL} && s.incidents == map[]
    requires s.tasks[TASK].status == Running && s.tasks[TASK].attempts == 1 && s.tasks[TASK].owner == Some("owner")
    requires !s.tasks[TASK].blocked && s.tasks[TASK].sequence == 0
    ensures Reaches(EMPTY, s') && Alone(s', limit) && s'.holds == {} && s'.incidents == map[]
    ensures s'.tasks[TASK].status == Failed && s'.tasks[TASK].attempts == 1 && !s'.tasks[TASK].blocked
  {
    hide Reaches;
    var returned, reported := ByStore(EndInvocation(CALL)), ByStore(Commit(TASK, "owner", 1, FAILURE));
    ReachesStep(EMPTY, s, returned);
    var m := Apply(s, returned);
    assert m.live == {} && m.tasks == s.tasks;
    ReachesStep(EMPTY, m, reported);
    s' := Apply(m, reported);
    assert s'.tasks.Keys == {TASK};
  }

  lemma Raised(s: Db, limit: nat) returns (s': Db)
    requires Reaches(EMPTY, s) && Alone(s, limit) && s.holds == {} && s.incidents == map[]
    requires s.tasks[TASK].status == Failed && s.tasks[TASK].attempts == 1 && !s.tasks[TASK].blocked
    ensures Reaches(EMPTY, s') && Alone(s', limit) && s'.tasks == s.tasks
    ensures ATTEMPT in s'.incidents && s'.incidents[ATTEMPT].Open() && s'.incidents[ATTEMPT].workflow == Some("flow")
    ensures forall h | h in s'.holds :: h.source == ByIncident(ATTEMPT)
  {
    hide Reaches;
    var a := ByRecovery(OpenIncident(TASK, TaskFailure, Because("TimeoutError")));
    ReachesStep(EMPTY, s, a);
    s' := Opened(s, TASK, TaskFailure, Because("TimeoutError"));
  }

  const GRANT := Decide(ATTEMPT, Decision.Retry, 1, Null, None)

  /** The operator grants one more retry. */
  lemma Granted(s: Db, limit: nat) returns (s': Db)
    requires Reaches(EMPTY, s) && Alone(s, limit)
    requires s.tasks[TASK].status == Failed && s.tasks[TASK].attempts == 1 && !s.tasks[TASK].blocked
    requires ATTEMPT in s.incidents && s.incidents[ATTEMPT].Open() && s.incidents[ATTEMPT].workflow == Some("flow")
    requires forall h | h in s.holds :: h.source == ByIncident(ATTEMPT)
    ensures Reaches(EMPTY, s') && s'.holds == {} && OneNode(s')
    ensures var r := s'.tasks[TASK];
      r.status == Retrying && r.attempts == 1 && !r.blocked && r.retryAt.None?
    ensures ATTEMPT in s'.incidents && s'.incidents[ATTEMPT].resolution == Some(Decided(Decision.Retry, 1))
  {
    hide Reaches;
    ReachesStep(EMPTY, s, ByRecovery(GRANT));
    s' := Settled(s, ATTEMPT, Decision.Retry, 1, Null, None);
    GrantShape(s, limit);
  }

  lemma GrantShape(s: Db, limit: nat)
    requires RecoveryGuard(s, GRANT) && Alone(s, limit) && s.incidents[ATTEMPT].workflow == Some("flow")
    requires forall h | h in s.holds :: h.source == ByIncident(ATTEMPT)
    ensures var s' := Settled(s, ATTEMPT, Decision.Retry, 1, Null, None);
      && s'.holds == {} && s'.tasks.Keys == {TASK} && s'.nodes.Keys == {TASK} && s'.nodes[TASK].llm
      && s'.runs.Keys == {"flow"} && s'.runs["flow"].def == RUN
      && s'.tasks[TASK] == RowApply(s.tasks[TASK], Resolve(Decision.Retry, 1, Null, None))
      && s'.incidents[ATTEMPT].resolution == Some(Decided(Decision.Retry, 1))
  {
    hide RowApply, RowGuard, BeforeClosing, Closed;
    GrantedRows(s, limit);
    ClosedShape(BeforeClosing(s, ATTEMPT, Decision.Retry, 1, Null, None));
  }

  /** The tables before the incident is closed. */
  lemma GrantedRows(s: Db, limit: nat)
    requires RecoveryGuard(s, GRANT) && Alone(s, limit) && s.incidents[ATTEMPT].workflow == Some("flow")
    ensures var m := BeforeClosing(s, ATTEMPT, Decision.Retry, 1, Null, None);
      && m.tasks.Keys == {TASK} && m.nodes.Keys == {TASK} && m.runs.Keys == {"flow"}
      && m.nodes[TASK].llm && m.runs["flow"].def == RUN && m.holds == s.holds && m.incidents == s.incidents
      && m.tasks[TASK] == RowApply(s.tasks[TASK], Resolve(Decision.Retry, 1, Null, None))
  {
    hide RowApply, RowGuard, BeforeClosing;
    History.BeforeClosingFrame(s, ATTEMPT, Decision.Retry, 1, Null, None);
    NodeFlagKept(s);
  }

  lemma NodeFlagKept(s: Db)
    requires RecoveryGuard(s, GRANT) && TASK in s.nodes && s.incidents[ATTEMPT].workflow == Some("flow")
    ensures var m := BeforeClosing(s, ATTEMPT, Decision.Retry, 1, Null, None);
      TASK in m.nodes && m.nodes[TASK].llm == s.nodes[TASK].llm
  {
    hide RowApply, RowGuard, Reopened, SetRow, Mirror;
    RetryShape(s.tasks[TASK]);
    var m := SetRow(s, TASK, Resolve(Decision.Retry, 1, Null, None));
    History.RowFrame(s, TASK, Resolve(Decision.Retry, 1, Null, None));
    ReopenedFlag(SetNode(m, TASK, Mirror(m.tasks[TASK].status), None).nodes);
  }

  lemma RetryShape(r: TaskRow)
    requires RowGuard(r, Resolve(Decision.Retry, 1, Null, None))
    ensures RowApply(r, Resolve(Decision.Retry, 1, Null, None)).status == Retrying
  {
  }

  lemma ReopenedFlag(nodes: map<TaskId, NodeRow>)
    requires TASK in nodes
    ensures Reopened(nodes, "flow")[TASK].llm == nodes[TASK].llm
  {
  }

  lemma ClosedShape(m: Db)
    requires ATTEMPT in m.incidents && forall h | h in m.holds :: h.source == ByIncident(ATTEMPT)
    ensures var s' := Closed(m, ATTEMPT, Decided(Decision.Retry, 1));
      && s' == m.(incidents := s'.incidents, holds := {})
      && ATTEMPT in s'.incidents && s'.incidents[ATTEMPT].resolution == Some(Decided(Decision.Retry, 1))
  {
  }

  lemma LostUsage(s: Db)
    requires Inv(s) && TASK in s.tasks && s.tasks[TASK].status == Retrying && s.tasks[TASK].attempts == 1
    ensures Usage.RowTotals(s.tasks[TASK]) == Usage.Totals(1, 0, 0, 1)
  {
    hide SessionsOk, CallsOk, HoldsOk, FlowOk, BudgetsOk;
    assert RowInv(s.tasks[TASK]);
    hide RowInv;
    TotalsOfRow(s.tasks[TASK]);
  }

  lemma RetryIsRefused(s: Db)
    requires Inv(s) && OneNode(s) && s.holds == {}
    requires var r := s.tasks[TASK]; r.status == Retrying && r.attempts == 1 && !r.blocked && r.retryAt.None?
    ensures StoreGuard(s, Refuse(TASK, 0))
  {
    hide Inv, Usage.RowTotals, Usage.UsageOf, Usage.LlmTasks;
    LostUsage(s);
    OneCall(s);
  }

  /** A reachable failed task whose incident an operator decided with a retry: it is never open again, and
      by `Safety.DecidedFailureIsFinal` the task never changes any more. */
  lemma RefusedAfterGrant() returns (s: Db)
    ensures Reaches(EMPTY, s) && TASK in s.tasks && s.tasks[TASK].status == Failed && s.tasks[TASK].attempts == ATTEMPT.attempt
    ensures ATTEMPT in s.incidents && s.incidents[ATTEMPT].resolution == Some(Decided(Decision.Retry, 1))
  {
    hide Reaches, Alone, Inv;
    var s1 := Submitted(0);
    var s2 := Dispatched(s1, 0);
    var s3 := Claimed(s2, 0);
    var s4 := Reported(s3, 0);
    var s5 := Raised(s4, 0);
    var s6 := Granted(s5, 0);
    assert Inv(EMPTY) by { EmptyInv(); }
    ReachesInv(EMPTY, s6);
    RetryIsRefused(s6);
    ReachesStep(EMPTY, s6, ByStore(Refuse(TASK, 0)));
    s := SetRow(s6, TASK, RefuseBudget);
  }

  // ---------------------------------------------------------------- exactly when

  ghost predicate MayChange(s: Db, t: TaskId) {
    exists s' :: Reaches(s, s') && t in s.tasks && t in s'.tasks && s'.tasks[t] != s.tasks[t]
  }

  /** A failed task can ever move again if and only if no operator has decided its last attempt. */
  lemma DecidableExactly(run: seq<Db>, t: TaskId)
    requires Behaviour(run) && t in run[|run| - 1].tasks && run[|run| - 1].tasks[t].status == Failed
    ensures var s := run[|run| - 1];
      MayChange(s, t) <==> !DecidedByOperator(s, Case(t, s.tasks[t].attempts))
  {
    hide Reaches, DecidedByOperator;
    var s := run[|run| - 1];
    if DecidedByOperator(s, Case(t, s.tasks[t].attempts)) {
      forall s' | Reaches(s, s') && t in s'.tasks ensures s'.tasks[t] == s.tasks[t] { NeverAgain(run, s', t); }
    } else {
      var s' := DecideIt(s, t);
      assert Reaches(s, s') && s'.tasks[t] != s.tasks[t];
    }
  }

  lemma NeverAgain(run: seq<Db>, s': Db, t: TaskId)
    requires Behaviour(run) && t in run[|run| - 1].tasks && run[|run| - 1].tasks[t].status == Failed
    requires DecidedByOperator(run[|run| - 1], Case(t, run[|run| - 1].tasks[t].attempts)) && Reaches(run[|run| - 1], s')
    ensures t in s'.tasks && s'.tasks[t] == run[|run| - 1].tasks[t]
  {
    hide Next, DecidedByOperator;
    var more :| Steps(more) && more[0] == run[|run| - 1] && more[|more| - 1] == s';
    var both := run + more[1..];
    forall i | 0 < i < |both| ensures Next(both[i - 1], both[i]) {
      if i < |run| { assert Next(run[i - 1], run[i]); } else { assert Next(more[i - |run|], more[i - |run| + 1]); }
    }
    assert both[|run| - 1] == run[|run| - 1] && both[|both| - 1] == s' && both[0] == EMPTY;
    Safety.DecidedFailureIsFinal(both, |run| - 1, |both| - 1, t);
  }

  lemma DecideIt(s: Db, t: TaskId) returns (s': Db)
    requires t in s.tasks && s.tasks[t].status == Failed && !DecidedByOperator(s, Case(t, s.tasks[t].attempts))
    ensures Reaches(s, s') && t in s'.tasks && s'.tasks[t].status == Success
  {
    hide Reaches;
    var c := Case(t, s.tasks[t].attempts);
    var open, decide := OpenIncident(t, TaskFailure, Because("task failed")), Decide(c, Succeed, 0, Null, None);
    ReachesSelf(s);
    ReachesStep(s, s, ByRecovery(open));
    var m := Opened(s, t, TaskFailure, Because("task failed"));
    assert m.tasks == s.tasks && c in m.incidents && m.incidents[c].Open();
    ReachesStep(s, m, ByRecovery(decide));
    s' := Settled(m, c, Succeed, 0, Null, None);
    SettledTask(m, c);
  }

  lemma SettledTask(s: Db, c: Case)
    requires RecoveryGuard(s, Decide(c, Succeed, 0, Null, None))
    ensures c.task in Settled(s, c, Succeed, 0, Null, None).tasks
    ensures Settled(s, c, Succeed, 0, Null, None).tasks[c.task].status == Success
  {
    History.DecideEffect(s, c, Succeed, 0, Null, None);
    hide Settled;
  }
}
