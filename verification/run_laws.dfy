/** What every run does to tasks and workflows, told from the tables: when a task starts, what an interruption leads
    to, what the task of a node is stored with, and what a budget allows. */
module RunLaws {
  import opened Types
  import opened Rows
  import opened RowLaws
  import opened Protocol
  import opened Invariants
  import opened Bindings
  import opened Graph
  import opened Reachable
  import opened History
  import opened Safety
  import opened TokenLaws
  import opened ClaimLaws
  import opened NodeLaws
  import KeepSessions
  import KeepStore
  import Usage
  import UsageFacts

  // ---------------------------------------------------------------- starting

  lemma NewRowsWait(s: Db, a: Action, t: TaskId)
    requires Guard(s, a) && t in Apply(s, a).tasks && t !in s.tasks
    ensures Apply(s, a).tasks[t].status == Pending
  {
    hide RegistryGuard, RegistryApply, RecoveryGuard, RecoveryApply, FlowGuard, FlowApply, StoreGuard, StoreApply;
    match a
    case ByRegistry(x) => KeepSessions.RegistryFrame(s, x);
    case ByStore(x) => NewInStore(s, x, t);
    case ByRecovery(x) => NothingNew(s, x, t);
    case ByWorkflow(x) => NewInFlow(s, x, t);
  }

  lemma NewInStore(s: Db, a: StoreAction, t: TaskId)
    requires StoreGuard(s, a) && t in StoreApply(s, a).tasks && t !in s.tasks
    ensures StoreApply(s, a).tasks[t].status == Pending
  {
    hide RowApply, Admission, Claimable, AdmittedAfter, SafeToTake;
  }

  lemma NothingNew(s: Db, a: RecoveryAction, t: TaskId)
    requires RecoveryGuard(s, a) && t in RecoveryApply(s, a).tasks
    ensures t in s.tasks
  {
    hide RowApply, Settled, Opened, Closed;
    match a
    case Decide(c, decision, extra, supplied, retryAt) => DecideEffect(s, c, decision, extra, supplied, retryAt);
    case OpenIncident(u, kind, reason) => OpenFrame(s, u, kind, reason);
    case CloseIncident(c, resolution) => CloseIncidents(s, c, resolution);
    case _ =>
  }

  lemma NewInFlow(s: Db, a: FlowAction, t: TaskId)
    requires FlowGuard(s, a) && t in FlowApply(s, a).tasks && t !in s.tasks
    ensures FlowApply(s, a).tasks[t].status == Pending
  {
    hide RowApply, RunNodes, WellFormed, Materialize, Outputs;
  }

  /** Whatever starts a task is a claim of that task, and it comes in time: not before the scheduled time of a task that
      was never started, nor before the time set for its retry, with no hold in its way, within the budget of its
      workflow and by a session that is in charge. */
  lemma StartsInTime(run: seq<Db>, i: nat, a: Action, t: TaskId)
    requires Behaviour(run) && TakesStep(run, i, a)
    requires t in run[i + 1].tasks && run[i + 1].tasks[t].status == Running
    requires t in run[i].tasks ==> run[i].tasks[t].status != Running
    ensures a.ByStore? && a.store.Claim? && a.store.t == t && t in run[i].tasks
    ensures var r, now := run[i].tasks[t], a.store.now;
      && Waits(run[i], t) && Affordable(run[i], t)
      && (r.retryAt.Some? ==> r.retryAt.value <= now)
      && (r.status == Pending && r.def.scheduledAt.Some? ==> r.def.scheduledAt.value <= now)
      && (a.store.session.Some? ==> InCharge(run[i], a.store.session.value, now))
      && StartedTo(r, run[i + 1].tasks[t], a.store.owner, a.store.session)
  {
    ReachableInv(run, i);
    if t !in run[i].tasks {
      hide Guard, Apply, Inv, Steps;
      NewRowsWait(run[i], a, t);
    } else {
      StarterIsClaim(run[i], a, t);
      ClaimIsInTime(run[i], a.store, t);
    }
  }

  lemma StarterIsClaim(s: Db, a: Action, t: TaskId)
    requires Inv(s) && Guard(s, a) && t in s.tasks && s.tasks[t].status != Running
    requires t in Apply(s, a).tasks && Apply(s, a).tasks[t].status == Running
    ensures a.ByStore? && a.store.Claim? && a.store.t == t
    ensures RowGuard(s.tasks[t], Start(a.store.owner, a.store.session))
    ensures Apply(s, a).tasks[t] == RowApply(s.tasks[t], Start(a.store.owner, a.store.session))
  {
    hide RowsOk, SessionsOk, CallsOk, HoldsOk, FlowOk, BudgetsOk, Apply;
    StepEffect(s, a);
  }

  lemma ClaimIsInTime(s: Db, a: StoreAction, t: TaskId)
    requires Inv(s) && a.Claim? && a.t == t && StoreGuard(s, a) && t in s.tasks
    ensures Waits(s, t) && Affordable(s, t) && !TooEarly(s.tasks[t], a.now)
    ensures a.session.Some? ==> InCharge(s, a.session.value, a.now)
    ensures StartedTo(s.tasks[t], RowApply(s.tasks[t], Start(a.owner, a.session)), a.owner, a.session)
  {
    EligibleExactly(s, t, a.now);
    AdmittedExactly(s, t);
    if a.session.Some? { InChargeExactly(s, a.session.value, a.now); }
    hide Inv, Eligible, Admission, Claimable, Affordable, RowApply;
    ClaimExactly(s.tasks[t], a.owner, a.session);
  }

  // ---------------------------------------------------------------- interruptions

  /** A recovery repeats the attempt if and only if its task is idempotent, does not reach outside and has retries
      left. */
  lemma RecoveryExactly(run: seq<Db>, i: nat, t: TaskId, interrupt: RowAction)
    requires Behaviour(run) && TakesStep(run, i, ByStore(Recover(t, interrupt)))
    ensures interrupt.Interrupt? && t in run[i].tasks && t in run[i + 1].tasks
    ensures InterruptedTo(run[i].tasks[t], run[i + 1].tasks[t], interrupt.external, interrupt.now, interrupt.delay)
  {
    ReachableInv(run, i);
    StepEffect(run[i], ByStore(Recover(t, interrupt)));
    hide Inv, StoreApply, Steps, SafeToTake, Newest, InterruptedTo;
    InterruptionExactly(run[i].tasks[t], interrupt.external, interrupt.now, interrupt.delay, interrupt.sequence);
  }

  /** An operator grants a retry of this attempt. */
  ghost predicate GrantedAt(run: seq<Db>, k: nat, c: Case) {
    exists a :: TakesStep(run, k, a) && IsGrant(a, c)
  }

  predicate IsGrant(a: Action, c: Case) {
    a.ByRecovery? && a.recovery.Decide? && a.recovery.c == c && a.recovery.decision == Retry
  }

  predicate Ended(r: TaskRow) { r.status == Failed || r.status == Success }

  lemma EndedStep(s: Db, a: Action, t: TaskId)
    requires Inv(s) && Guard(s, a) && t in s.tasks && Ended(s.tasks[t]) && !IsGrant(a, Case(t, s.tasks[t].attempts))
    ensures t in Apply(s, a).tasks && Ended(Apply(s, a).tasks[t]) && Apply(s, a).tasks[t].attempts == s.tasks[t].attempts
  {
    hide RowsOk, SessionsOk, CallsOk, HoldsOk, FlowOk, BudgetsOk, Apply;
    StepEffect(s, a);
  }

  /** A task that has ended gets no further attempt unless an operator grants one. */
  lemma {:induction false} EndedUnlessGranted(run: seq<Db>, i: nat, j: nat, t: TaskId)
    requires Behaviour(run) && i <= j < |run| && t in run[i].tasks && Ended(run[i].tasks[t])
    ensures t in run[j].tasks
    ensures || (Ended(run[j].tasks[t]) && run[j].tasks[t].attempts == run[i].tasks[t].attempts)
            || exists k :: i <= k < j && GrantedAt(run, k, Case(t, run[i].tasks[t].attempts))
    decreases j
  {
    hide Guard, Apply, Inv;
    if i < j {
      EndedUnlessGranted(run, i, j - 1, t);
      ReachableInv(run, j - 1);
      assert Next(run[j - 1], run[j]);
      var a :| Guard(run[j - 1], a) && run[j] == Apply(run[j - 1], a);
      assert TakesStep(run, j - 1, a);
      TaskStep(run[j - 1], a, t);
      if Ended(run[j - 1].tasks[t]) && run[j - 1].tasks[t].attempts == run[i].tasks[t].attempts {
        if IsGrant(a, Case(t, run[i].tasks[t].attempts)) {
          assert GrantedAt(run, j - 1, Case(t, run[i].tasks[t].attempts));
        } else {
          EndedStep(run[j - 1], a, t);
        }
      }
    }
  }

  /** The interruption of an external call leaves an UNCERTAIN failure, and nobody but an operator schedules another
      attempt of it. */
  lemma ExternalCallIsNotRepeated(run: seq<Db>, i: nat, j: nat, t: TaskId, interrupt: RowAction)
    requires Behaviour(run) && TakesStep(run, i, ByStore(Recover(t, interrupt))) && i < j < |run|
    requires interrupt.Interrupt? && interrupt.external
    ensures t in run[i].tasks && t in run[i + 1].tasks && t in run[j].tasks
    ensures run[i + 1].tasks[t].status == Failed
    ensures run[i + 1].tasks[t].error == Some(Error("UncertainExecutionError", Some(Uncertain)))
    ensures || (Ended(run[j].tasks[t]) && run[j].tasks[t].attempts == run[i].tasks[t].attempts)
            || exists k :: i < k < j && GrantedAt(run, k, Case(t, run[i].tasks[t].attempts))
  {
    hide Guard, Apply, Steps;
    RecoveryExactly(run, i, t, interrupt);
    EndedUnlessGranted(run, i + 1, j, t);
  }

  // ---------------------------------------------------------------- nodes

  /** In every state of every run the task of a node is stored with the settings of its definition, and with the
      arguments of its definition until its gate opens; then they are resolved against the stored results. */
  lemma NodeIsStored(run: seq<Db>, i: nat, wf: string, n: NodeDef)
    requires Behaviour(run) && i < |run| && wf in run[i].runs && n in run[i].runs[wf].def.nodes
    ensures StoredFor(run[i], wf, n)
  {
    hide Inv, Steps, StoredFor;
    ReachableInv(run, i);
    StoredExactly(run[i], wf, n);
  }

  /** A node that its definition does not declare idempotent is never started again once an attempt of it was
      interrupted. */
  lemma InterruptedNodeIsNotRepeated(run: seq<Db>, i: nat, j: nat, wf: string, n: NodeDef)
    requires Behaviour(run) && i <= j < |run| && wf in run[i].runs && n in run[i].runs[wf].def.nodes && !n.idempotent
    requires NodeTask(wf, n.id) in run[i].tasks && WasInterrupted(run[i].tasks[NodeTask(wf, n.id)])
    ensures NodeTask(wf, n.id) in run[j].tasks
    ensures run[j].tasks[NodeTask(wf, n.id)].attempts == run[i].tasks[NodeTask(wf, n.id)].attempts
    ensures run[j].tasks[NodeTask(wf, n.id)].status == Failed || run[j].tasks[NodeTask(wf, n.id)].status == Success
    ensures forall x | x in run[j].live :: x.task != NodeTask(wf, n.id)
  {
    hide Steps, WasInterrupted;
    NodeIsStored(run, i, wf, n);
    InterruptedIsNotRepeated(run, i, j, NodeTask(wf, n.id));
  }

  // ---------------------------------------------------------------- budgets

  lemma {:induction false} MissingIsCounted(log: seq<Event>, attempts: nat, a: nat)
    requires 1 <= a <= attempts
    ensures Usage.Missing(log, a) <= Usage.SumMissing(log, attempts)
  {
    if a < attempts { MissingIsCounted(log, attempts - 1, a); }
  }

  /** What one attempt has used is part of what its row has. */
  lemma AttemptInRow(r: TaskRow, a: nat)
    requires RowInv(r) && 1 <= a <= r.attempts
    ensures Usage.Tokens(r.log, a) <= Cost(r) && Usage.Missing(r.log, a) <= Usage.RowTotals(r).missing
  {
    RowSums(r);
    MissingIsCounted(r.log, r.attempts, a);
    assert RowExplains(r, a);
    UsageFacts.TotalsOfRow(r);
  }

  /** At most one task of the list has an attempt without known usage. */
  lemma OthersAccounted(tasks: map<TaskId, TaskRow>, ids: seq<TaskId>, t: TaskId, u: TaskId)
    requires UsageFacts.Distinct(ids) && t in ids && u in ids && t != u && t in tasks && u in tasks && RowInv(tasks[u])
    requires Usage.UsageOf(tasks, ids).missing <= 1 && Usage.UsageOf(tasks, ids).missing <= Usage.RowTotals(tasks[t]).missing
    ensures Accounted(tasks[u])
  {
    hide RowInv, Accounted, Usage.RowTotals;
    UsageFacts.UsageIncludes(tasks, ids, t, u);
    RowSums(tasks[u]);
  }

  /** The one task that the budget may have been stretched for: all calls of the other tasks have reported, and without
      what it has used itself the reported tokens are below the cap. */
  ghost predicate Stretched(s: Db, wf: string, cap: nat, n: NodeDef)
    requires wf in s.runs
  {
    && Generates(s, wf, n)
    && Spent(s, wf, s.runs[wf].def.nodes) < cap + Cost(s.tasks[NodeTask(wf, n.id)])
    && forall m | m in s.runs[wf].def.nodes && Generates(s, wf, m) && m.id != n.id :: Accounted(s.tasks[NodeTask(wf, m.id)])
  }

  lemma AbsorberIsStretched(s: Db, wf: string, cap: nat, c: Case) returns (n: NodeDef)
    requires Inv(s) && wf in s.runs && AbsorbedBy(s, wf, cap, c)
    ensures Stretched(s, wf, cap, n)
  {
    hide RowsOk, SessionsOk, CallsOk, HoldsOk, BudgetsOk, RowInv, WellFormed, NodeOk, Cost, Accounted, Usage.UsageOf, Usage.RowTotals;
    assert HasDefinition(s.runs, c.task);
    n :| IsNodeOf(s.runs, c.task, n);
    NodesHaveRows(s, wf);
    WorkflowSums(s, wf, s.runs[wf].def.nodes);
    AttemptInRow(s.tasks[c.task], c.attempt);
    hide FlowOk;
    forall m | m in s.runs[wf].def.nodes && Generates(s, wf, m) && m.id != n.id ensures Accounted(s.tasks[NodeTask(wf, m.id)]) {
      OtherIsAccounted(s, wf, cap, c, m);
    }
  }

  lemma OtherIsAccounted(s: Db, wf: string, cap: nat, c: Case, m: NodeDef)
    requires Inv(s) && wf in s.runs && AbsorbedBy(s, wf, cap, c) && Generates(s, wf, m) && NodeTask(wf, m.id) != c.task
    ensures Accounted(s.tasks[NodeTask(wf, m.id)])
  {
    hide SessionsOk, CallsOk, HoldsOk, BudgetsOk, FlowOk, RowInv, Cost, Accounted, Usage.RowTotals, Usage.LlmTasks, Usage.UsageOf;
    var ids := Usage.LlmTasks(wf, s.runs[wf].def.nodes, s.nodes);
    TasksListed(s, wf, c.task, NodeTask(wf, m.id));
    AttemptInRow(s.tasks[c.task], c.attempt);
    OthersAccounted(s.tasks, ids, c.task, NodeTask(wf, m.id));
  }

  lemma TasksListed(s: Db, wf: string, t: TaskId, u: TaskId)
    requires Inv(s) && wf in s.runs && IsLlm(s, t) && t.workflow == wf && IsLlm(s, u) && u.workflow == wf
    ensures var ids := Usage.LlmTasks(wf, s.runs[wf].def.nodes, s.nodes); UsageFacts.Distinct(ids) && t in ids && u in ids
  {
    hide RowsOk, SessionsOk, CallsOk, HoldsOk, BudgetsOk, Usage.LlmTasks;
    KeepStore.ListIsOk(s, wf);
  }

  /** In every reachable state the generation tasks of a workflow were started at most `max_calls` times; and under a
      token cap none was started, or all but one of them have reported what they used and the reported tokens are
      below the cap without those of that one. */
  lemma BudgetIsKept(run: seq<Db>, i: nat, wf: string)
    requires Behaviour(run) && i < |run| && wf in run[i].runs && run[i].runs[wf].def.budget.Some?
    ensures var s, defs, budget := run[i], run[i].runs[wf].def.nodes, run[i].runs[wf].def.budget.value;
      && (budget.maxCalls.Some? ==> CallsMade(s, wf, defs) <= budget.maxCalls.value)
      && (budget.maxTokens.Some? ==>
            CallsMade(s, wf, defs) == 0 || exists n :: n in defs && Stretched(s, wf, budget.maxTokens.value, n))
  {
    hide Inv, Steps, Stretched, AbsorbedBy, CallsMade, RowInv;
    ReachableInv(run, i);
    BudgetsHold(run, i, wf);
    NodesHaveRows(run[i], wf);
    WorkflowSums(run[i], wf, run[i].runs[wf].def.nodes);
    var budget := run[i].runs[wf].def.budget.value;
    if budget.maxTokens.Some? && CallsMade(run[i], wf, run[i].runs[wf].def.nodes) > 0 {
      var n := AbsorberIsStretched(run[i], wf, budget.maxTokens.value, run[i].admitted[wf]);
      StretchedIsNode(run[i], wf, budget.maxTokens.value, n);
    }
  }

  lemma StretchedIsNode(s: Db, wf: string, cap: nat, n: NodeDef)
    requires wf in s.runs && Stretched(s, wf, cap, n)
    ensures n in s.runs[wf].def.nodes
  {
  }
}
