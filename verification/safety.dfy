/** What holds in every run of the control plane: any interleaving of the steps of workers,
    orchestrators, coordinators and operators from empty tables, with crashes anywhere. */
module Safety {
  import opened Types
  import opened Rows
  import opened Bindings
  import opened Graph
  import opened Protocol
  import opened Invariants
  import opened Reachable
  import opened History
  import opened UsageFacts
  import KeepFlow
  import KeepStore
  import Usage

  /** The step that leads from one state of the run to the next. */
  ghost predicate TakesStep(run: seq<Db>, i: nat, a: Action) {
    i + 1 < |run| && Guard(run[i], a) && run[i + 1] == Apply(run[i], a)
  }

  // ---------------------------------------------------------------- calls

  /** A task has at most one live business call, the one its row names; and its session has not stopped. */
  lemma OneLiveCall(run: seq<Db>, i: nat, x: Invocation, y: Invocation)
    requires Behaviour(run) && i < |run| && x in run[i].live && y in run[i].live && x.task == y.task
    ensures x == y && x.task in run[i].tasks
    ensures var r := run[i].tasks[x.task];
      r.status == Running && r.attempts == x.attempt && r.owner == Some(x.owner) && r.session == x.session
    ensures x.session.Some? ==> x.session.value in run[i].sessions && run[i].sessions[x.session.value].state != Stopped
  {
    hide RowsOk, SessionsOk, HoldsOk, FlowOk, BudgetsOk;
    ReachableInv(run, i);
    assert CallOk(x, run[i].tasks, run[i].sessions) && CallOk(y, run[i].tasks, run[i].sessions);
  }

  /** `stop` needs no evidence from outside: when it is let through, no call of the session is alive. */
  lemma GracefulStopIsSafe(run: seq<Db>, i: nat, w: WorkerId, sid: SessionId, now: Time, x: Invocation)
    requires Behaviour(run) && i < |run| && RegistryGuard(run[i], StopGracefully(w, sid, now)) && x in run[i].live
    ensures x.session != Some(sid)
  {
    hide RowsOk, SessionsOk, HoldsOk, FlowOk, BudgetsOk;
    ReachableInv(run, i);
    assert CallOk(x, run[i].tasks, run[i].sessions);
  }

  predicate ClaimsWith(a: Action, sid: SessionId) {
    a.ByStore? && a.store.Claim? && a.store.session == Some(sid)
  }

  ghost predicate ClaimsAt(run: seq<Db>, k: nat, sid: SessionId) {
    exists a :: TakesStep(run, k, a) && ClaimsWith(a, sid)
  }

  lemma DrainedStep(s: Db, a: Action, sid: SessionId)
    requires Guard(s, a) && Drained(s, sid) && !ClaimsWith(a, sid)
    ensures Drained(Apply(s, a), sid)
  {
    hide Guard, Apply;
    forall x | x in Apply(s, a).live ensures x.session != Some(sid) { CallsStep(s, a, x); }
  }

  /** A session without a live call gets one by a claim of its own and by nothing else, whatever the other
      workers, coordinators and operators do. */
  lemma {:induction false} OnlyClaimsStartCalls(run: seq<Db>, i: nat, j: nat, sid: SessionId)
    requires Behaviour(run) && i <= j < |run| && Drained(run[i], sid)
    ensures Drained(run[j], sid) || exists k :: i <= k < j && ClaimsAt(run, k, sid)
    decreases j
  {
    hide Guard, Apply, Drained;
    if i < j {
      OnlyClaimsStartCalls(run, i, j - 1, sid);
      if Drained(run[j - 1], sid) {
        assert Next(run[j - 1], run[j]);
        var a :| Guard(run[j - 1], a) && run[j] == Apply(run[j - 1], a);
        assert TakesStep(run, j - 1, a);
        if !ClaimsWith(a, sid) { DrainedStep(run[j - 1], a, sid); } else { assert ClaimsAt(run, j - 1, sid); }
      }
    }
  }

  // ---------------------------------------------------------------- outcomes

  /** An attempt has exactly one committed end once it is over, and none before; only the last
      attempt can have a result. */
  lemma OneOutcome(run: seq<Db>, i: nat, t: TaskId, attempt: nat)
    requires Behaviour(run) && i < |run| && t in run[i].tasks && 1 <= attempt
    ensures var r := run[i].tasks[t];
      && (EndCount(r.log, attempt) == 1 <==> attempt < r.attempts || (attempt == r.attempts && r.status != Running))
      && EndCount(r.log, attempt) <= 1
      && (attempt < r.attempts ==> OutcomeOf(r.log, attempt) == Some(Lost))
      && (attempt == r.attempts && r.status == Success ==>
            r.result.Some? && OutcomeOf(r.log, attempt) == Some(Done(r.result.value)))
  {
    ReachableInv(run, i);
    TasksOf(run[i]);
    assert RowExplains(run[i].tasks[t], attempt);
  }

  /** Who can end the attempt of a registered session: the exact owner while the session may
      write, or a recovery once that session has stopped with evidence. */
  lemma WhoEndsAnAttempt(run: seq<Db>, i: nat, a: Action, t: TaskId)
    requires Behaviour(run) && TakesStep(run, i, a)
    requires t in run[i].tasks && run[i].tasks[t].status == Running && run[i].tasks[t].session.Some?
    ensures t in run[i + 1].tasks
    ensures var r, sid := run[i].tasks[t], run[i].tasks[t].session.value;
      || run[i + 1].tasks[t] == r
      || (&& a.ByStore? && a.store.Commit? && a.store.t == t
          && Some(a.store.owner) == r.owner && a.store.attempt == r.attempts
          && sid in run[i].sessions && run[i].sessions[sid].state in {ActiveSession, Suspect, Stopping})
      || (&& StoppedWithEvidence(run[i], sid)
          && (a == ByRecovery(ReconcileStopped(t)) || (a.ByStore? && a.store.Recover? && a.store.t == t)))
  {
    hide RowsOk, SessionsOk, CallsOk, HoldsOk, FlowOk, BudgetsOk, RowApply, Apply;
    ReachableInv(run, i);
    StepEffect(run[i], a);
  }

  /** A report that `finish` accepts now was acceptable ever since its attempt was claimed. So once
      the attempt is over, or its session was fenced, or another owner holds it, the report
      is refused for ever. */
  lemma StaleReportsStayStale(run: seq<Db>, i: nat, j: nat, t: TaskId, owner: string, attempt: nat)
    requires Behaviour(run) && i <= j < |run| && t in run[i].tasks && attempt <= run[i].tasks[t].attempts
    requires Committable(run[j], t, owner, attempt)
    ensures Committable(run[i], t, owner, attempt)
  {
    hide RowsOk, SessionsOk, HoldsOk, FlowOk, BudgetsOk;
    TaskAlong(run, i, j, t);
    ReachableInv(run, i);
    assert ClaimOk(run[i].tasks[t], t, run[i].claims, run[i].sessions);
    if run[i].tasks[t].session.Some? { SessionAlong(run, i, j, run[i].tasks[t].session.value); }
  }

  /** The row that a claim or a remote read handed out stays what the owner may report on. */
  lemma ClaimsLast(run: seq<Db>, i: nat, j: nat, t: TaskId, claimed: TaskRow, owner: string)
    requires Behaviour(run) && i <= j < |run| && Case(t, claimed.attempts) in run[i].claims
    requires run[i].claims[Case(t, claimed.attempts)] == claimed && Committable(run[j], t, owner, claimed.attempts)
    ensures run[j].tasks[t] == claimed
  {
    hide RowsOk, SessionsOk, HoldsOk, FlowOk, BudgetsOk, Steps;
    ClaimsAlong(run, i, j, Case(t, claimed.attempts));
    ReachableInv(run, j);
    assert ClaimOk(run[j].tasks[t], t, run[j].claims, run[j].sessions);
  }

  /** A success is for ever, and the history of a task only grows. */
  lemma SuccessIsForever(run: seq<Db>, i: nat, j: nat, t: TaskId)
    requires Behaviour(run) && i <= j < |run| && t in run[i].tasks
    ensures t in run[j].tasks && run[i].tasks[t].log <= run[j].tasks[t].log
    ensures run[i].tasks[t].status == Success ==> run[j].tasks[t] == run[i].tasks[t]
  {
    TaskAlong(run, i, j, t);
  }

  /** A task that may not be repeated is never started again once an attempt was interrupted. */
  lemma InterruptedIsNotRepeated(run: seq<Db>, i: nat, j: nat, t: TaskId)
    requires Behaviour(run) && i <= j < |run| && t in run[i].tasks
    requires WasInterrupted(run[i].tasks[t]) && !run[i].tasks[t].def.idempotent
    ensures t in run[j].tasks && run[j].tasks[t].attempts == run[i].tasks[t].attempts
    ensures run[j].tasks[t].status == Failed || run[j].tasks[t].status == Success
    ensures forall x | x in run[j].live :: x.task != t
  {
    hide SessionsOk, CallsOk, HoldsOk, FlowOk, BudgetsOk;
    TaskAlong(run, i, j, t);
    ReachableInv(run, j);
    TasksOf(run[j]);
    KeepStore.WaitingIsDone(run[j], t);
  }

  // ---------------------------------------------------------------- retry budget

  /** Every retry is counted, none exceeds the effective limit, and each attempt but the first was a retry. */
  lemma RetryBounds(run: seq<Db>, i: nat, t: TaskId)
    requires Behaviour(run) && i < |run| && t in run[i].tasks
    ensures var r := run[i].tasks[t];
      && r.retries <= LimitFor(r) && r.attempts <= r.retries + 1
      && r.attempts == Count(r.log, Started) && r.retries == Count(r.log, RetryScheduled)
      && r.log != [] && r.log[|r.log| - 1].status == r.status
  {
    ReachableInv(run, i);
    TasksOf(run[i]);
  }

  // ---------------------------------------------------------------- dependencies

  /** Once a node was dispatched, all it depends on has succeeded for good, and its stored
      arguments are for ever the bindings resolved against those results. */
  lemma StartedNodeIsFrozen(run: seq<Db>, i: nat, j: nat, wf: string, n: NodeDef)
    requires Behaviour(run) && i <= j < |run| && wf in run[i].runs && n in run[i].runs[wf].def.nodes
    requires NodeTask(wf, n.id) in run[i].tasks
    requires run[i].tasks[NodeTask(wf, n.id)].attempts > 0 || !run[i].tasks[NodeTask(wf, n.id)].blocked
    ensures wf in run[j].runs && run[j].runs[wf].def == run[i].runs[wf].def
    ensures forall d | d in Dependencies(n) :: var u := NodeTask(wf, d);
      u in run[i].tasks && run[i].tasks[u].status == Success && u in run[j].tasks && run[j].tasks[u] == run[i].tasks[u]
    ensures var t := NodeTask(wf, n.id);
      && t in run[j].tasks && run[j].tasks[t].def == run[i].tasks[t].def
      && Materialize(n, Outputs(run[j].tasks, wf, n)) == Some(run[j].tasks[t].def.kwargs)
  {
    hide SessionsOk, CallsOk, HoldsOk, BudgetsOk, RowLater;
    var t := NodeTask(wf, n.id);
    ReachableInv(run, i);
    TasksOf(run[i]);
    KeepFlow.NodeFacts(run[i].runs, run[i].nodes, run[i].tasks, wf, n);
    forall d | d in Dependencies(n)
      ensures NodeTask(wf, d) in run[j].tasks && run[j].tasks[NodeTask(wf, d)] == run[i].tasks[NodeTask(wf, d)]
    {
      SuccessIsForever(run, i, j, NodeTask(wf, d));
    }
    FixedAlong(run, i, j);
    DispatchedStays(run, i, j, t);
    KeepFlow.FrozenKept(run[i].tasks, run[j].tasks, wf, n, run[i].tasks[t]);
  }

  lemma DispatchedStays(run: seq<Db>, i: nat, j: nat, t: TaskId)
    requires Behaviour(run) && i <= j < |run| && t in run[i].tasks && !run[i].tasks[t].blocked
    ensures t in run[j].tasks && run[j].tasks[t].def == run[i].tasks[t].def && !run[j].tasks[t].blocked
  {
    TaskAlong(run, i, j, t);
  }

  /** The gate of a node is opened by at most one step of a run. */
  lemma GateOpensOnce(run: seq<Db>, i: nat, j: nat, wf: string, n: NodeDef, m: NodeDef)
    requires Behaviour(run) && i <= j && n.id == m.id
    requires TakesStep(run, i, ByWorkflow(Dispatch(wf, n))) && TakesStep(run, j, ByWorkflow(Dispatch(wf, m)))
    ensures i == j
  {
    hide Steps, Materialize, Outputs, AllSucceeded, HeldWorkflow;
    if i < j { DispatchedStays(run, i + 1, j, NodeTask(wf, n.id)); }
  }

  /** A skipped node has a predecessor that failed or was skipped. */
  lemma SkippedHasReason(run: seq<Db>, i: nat, wf: string, n: NodeDef)
    requires Behaviour(run) && i < |run| && wf in run[i].runs && n in run[i].runs[wf].def.nodes
    requires StateOf(run[i].nodes, wf, n.id) == Some(Skipped)
    ensures SomeFailed(run[i].nodes, wf, n)
    ensures var r := run[i].tasks; NodeTask(wf, n.id) in r && r[NodeTask(wf, n.id)].attempts == 0
  {
    hide SessionsOk, CallsOk, HoldsOk, BudgetsOk;
    ReachableInv(run, i);
    TasksOf(run[i]);
    KeepFlow.NodeFacts(run[i].runs, run[i].nodes, run[i].tasks, wf, n);
  }

  // ---------------------------------------------------------------- budgets

  /** In every reachable state a workflow has started at most `max_calls` generation attempts. Under
      a token cap at most one of them is running, all but the last admitted one have known usage,
      and the known tokens are below the cap plus those of that last call. */
  lemma BudgetsHold(run: seq<Db>, i: nat, wf: string)
    requires Behaviour(run) && i < |run| && wf in run[i].runs && run[i].runs[wf].def.budget.Some?
    ensures var budget, u := run[i].runs[wf].def.budget.value, UsageOfRun(run[i], wf);
      && (budget.maxCalls.Some? ==> u.calls <= budget.maxCalls.value)
      && (budget.maxTokens.Some? ==> u.running <= 1)
      && (budget.maxTokens.Some? && u.calls > 0 ==>
            wf in run[i].admitted && AbsorbedBy(run[i], wf, budget.maxTokens.value, run[i].admitted[wf]))
  {
    hide RowsOk, SessionsOk, CallsOk, HoldsOk;
    ReachableInv(run, i);
    KeepStore.ListIsOk(run[i], wf);
  }

  /** Only the call `c` can be over the cap or without known usage. */
  ghost predicate AbsorbedBy(s: Db, wf: string, cap: nat, c: Case)
    requires wf in s.runs
  {
    && IsLlm(s, c.task) && c.task.workflow == wf && c.task in s.tasks && 1 <= c.attempt <= s.tasks[c.task].attempts
    && UsageOfRun(s, wf).tokens < cap + Usage.Tokens(s.tasks[c.task].log, c.attempt)
    && UsageOfRun(s, wf).missing <= Usage.Missing(s.tasks[c.task].log, c.attempt)
  }

  /** Under a token cap a generation task is started at most once: an attempt that ended without known usage
      blocks every later claim of its workflow until an operator supplies the result. */
  lemma OneAttemptUnderTokenCap(run: seq<Db>, i: nat, t: TaskId, owner: string, session: Option<SessionId>, now: Time)
    requires Behaviour(run) && TakesStep(run, i, ByStore(Claim(t, owner, session, now))) && IsLlm(run[i], t)
    requires run[i].runs[t.workflow].def.budget.Some? && run[i].runs[t.workflow].def.budget.value.maxTokens.Some?
    ensures run[i].tasks[t].attempts == 0
  {
    hide SessionsOk, CallsOk, HoldsOk, FlowOk, BudgetsOk, Steps, Apply, RowInv, Usage.UsageOf, Usage.LlmTasks;
    ReachableInv(run, i);
    KeepStore.ListIsOk(run[i], t.workflow);
    MissingCoversRunning(run[i].tasks, Usage.LlmTasks(t.workflow, run[i].runs[t.workflow].def.nodes, run[i].nodes), t);
  }

  // ---------------------------------------------------------------- holds

  /** A hold is an operator's pause of a workflow or belongs to an open incident, on its task or workflow. */
  lemma HoldsAreJustified(run: seq<Db>, i: nat, h: Hold)
    requires Behaviour(run) && i < |run| && h in run[i].holds
    ensures (h.source == ByOperator && h.scope.WorkflowScope?) ||
            (h.source.ByIncident? && h.source.incident in run[i].incidents && run[i].incidents[h.source.incident].Open()
             && (h.scope == TaskScope(h.source.incident.task) ||
                 (h.scope.WorkflowScope? && run[i].incidents[h.source.incident].workflow == Some(h.scope.workflow))))
  {
    hide RowsOk, SessionsOk, CallsOk, FlowOk, BudgetsOk;
    ReachableInv(run, i);
    assert HoldOk(h, run[i].incidents);
  }

  /** While an incident is open its task cannot be claimed and its workflow dispatches nothing. */
  lemma OpenIncidentBlocks(run: seq<Db>, i: nat, c: Case, now: Time)
    requires Behaviour(run) && i < |run| && c in run[i].incidents && run[i].incidents[c].Open()
    ensures Held(run[i], c.task) && !Eligible(run[i], c.task, now)
    ensures c.task in run[i].nodes && c.task.NodeTask? ==> HeldWorkflow(run[i], c.task.workflow)
  {
    hide RowsOk, SessionsOk, CallsOk, FlowOk, BudgetsOk;
    ReachableInv(run, i);
    assert IncidentOk(c, run[i].incidents[c], run[i].holds, run[i].tasks, run[i].nodes);
  }

  /** The holds of an incident last as long as the incident: no resume and no other incident removes them. */
  lemma IncidentHoldsLast(run: seq<Db>, i: nat, j: nat, h: Hold)
    requires Behaviour(run) && i <= j < |run| && h in run[i].holds && h.source.ByIncident?
    requires h.source.incident in run[j].incidents && run[j].incidents[h.source.incident].Open()
    ensures h in run[j].holds
  {
    hide RowsOk, SessionsOk, CallsOk, FlowOk, BudgetsOk, Steps;
    var c := h.source.incident;
    ReachableInv(run, i);
    ReachableInv(run, j);
    FixedAlong(run, i, j);
    assert HoldOk(h, run[i].incidents);
    assert IncidentOk(c, run[i].incidents[c], run[i].holds, run[i].tasks, run[i].nodes);
    assert IncidentOk(c, run[j].incidents[c], run[j].holds, run[j].tasks, run[j].nodes);
  }

  lemma HeldRowRests(s: Db, a: Action, t: TaskId)
    requires Inv(s) && Guard(s, a) && t in s.tasks && Held(s, t) && s.tasks[t].status != Running
    ensures t in Apply(s, a).tasks && Apply(s, a).tasks[t].status != Running && Apply(s, a).tasks[t].attempts == s.tasks[t].attempts
  {
    hide RowsOk, SessionsOk, CallsOk, HoldsOk, FlowOk, BudgetsOk, Apply;
    StepEffect(s, a);
  }

  /** As long as a hold covers a task, the task is not started. */
  lemma {:induction false} HeldTaskRests(run: seq<Db>, i: nat, j: nat, t: TaskId)
    requires Behaviour(run) && i <= j < |run| && t in run[i].tasks && run[i].tasks[t].status != Running
    requires forall k | i <= k < j :: Held(run[k], t)
    ensures t in run[j].tasks && run[j].tasks[t].status != Running && run[j].tasks[t].attempts == run[i].tasks[t].attempts
    decreases j
  {
    hide Guard, Apply, Inv, Held;
    if i < j {
      HeldTaskRests(run, i, j - 1, t);
      ReachableInv(run, j - 1);
      assert Next(run[j - 1], run[j]);
      var a :| Guard(run[j - 1], a) && run[j] == Apply(run[j - 1], a);
      HeldRowRests(run[j - 1], a, t);
    }
  }

  /** As long as a hold covers a workflow, none of its gates opens. */
  lemma {:induction false} HeldWorkflowRests(run: seq<Db>, i: nat, j: nat, wf: string, id: string)
    requires Behaviour(run) && i <= j < |run| && NodeTask(wf, id) in run[i].tasks && run[i].tasks[NodeTask(wf, id)].blocked
    requires forall k | i <= k < j :: HeldWorkflow(run[k], wf)
    ensures NodeTask(wf, id) in run[j].tasks && run[j].tasks[NodeTask(wf, id)].blocked
    decreases j
  {
    hide Guard, Apply, Inv, HeldWorkflow;
    if i < j {
      HeldWorkflowRests(run, i, j - 1, wf, id);
      ReachableInv(run, j - 1);
      assert Next(run[j - 1], run[j]);
      var a :| Guard(run[j - 1], a) && run[j] == Apply(run[j - 1], a);
      HeldGateStays(run[j - 1], a, wf, id);
    }
  }

  lemma HeldGateStays(s: Db, a: Action, wf: string, id: string)
    requires Inv(s) && Guard(s, a) && NodeTask(wf, id) in s.tasks && s.tasks[NodeTask(wf, id)].blocked && HeldWorkflow(s, wf)
    ensures NodeTask(wf, id) in Apply(s, a).tasks && Apply(s, a).tasks[NodeTask(wf, id)].blocked
  {
    hide RowsOk, SessionsOk, CallsOk, HoldsOk, FlowOk, BudgetsOk, Apply, Materialize, Outputs, AllSucceeded;
    StepEffect(s, a);
  }

  /** A granted retry that the budget refuses is the end of its task: the incident was decided and is
      never opened again, so no operator can reach the task any more. */
  lemma RefusedRetryIsFinal(run: seq<Db>, i: nat, j: nat, t: TaskId, now: Time)
    requires Behaviour(run) && TakesStep(run, i, ByStore(Refuse(t, now))) && i < j < |run|
    requires DecidedByOperator(run[i], Case(t, run[i].tasks[t].attempts))
    ensures t in run[i + 1].tasks && run[i + 1].tasks[t].status == Failed
    ensures t in run[j].tasks && run[j].tasks[t] == run[i + 1].tasks[t]
  {
    hide Steps;
    DecidedFailureIsFinal(run, i + 1, j, t);
  }

  /** A failed attempt that an operator decided is final: no tick opens its incident again, and
      without an open incident nothing moves the row. This includes a task whose granted
      retry was refused by the budget. */
  lemma {:induction false} DecidedFailureIsFinal(run: seq<Db>, i: nat, j: nat, t: TaskId)
    requires Behaviour(run) && i <= j < |run| && t in run[i].tasks && run[i].tasks[t].status == Failed
    requires DecidedByOperator(run[i], Case(t, run[i].tasks[t].attempts))
    ensures t in run[j].tasks && run[j].tasks[t] == run[i].tasks[t]
    decreases j
  {
    hide Guard, Apply, Inv, DecidedByOperator;
    if i < j {
      DecidedFailureIsFinal(run, i, j - 1, t);
      FixedAlong(run, i, j - 1);
      ReachableInv(run, j - 1);
      assert Next(run[j - 1], run[j]);
      var a :| Guard(run[j - 1], a) && run[j] == Apply(run[j - 1], a);
      DecidedFailureRests(run[j - 1], a, t);
    }
  }

  lemma DecidedFailureRests(s: Db, a: Action, t: TaskId)
    requires Inv(s) && Guard(s, a) && t in s.tasks && s.tasks[t].status == Failed
    requires DecidedByOperator(s, Case(t, s.tasks[t].attempts))
    ensures t in Apply(s, a).tasks && Apply(s, a).tasks[t] == s.tasks[t]
  {
    hide RowsOk, SessionsOk, CallsOk, HoldsOk, FlowOk, BudgetsOk, Apply;
    StepEffect(s, a);
  }

  // ---------------------------------------------------------------- sessions

  /** FENCED leads only to STOPPED, STOPPED is the end, and a session asked to stop is never ACTIVE again. */
  lemma SessionLifecycle(run: seq<Db>, i: nat, j: nat, sid: SessionId)
    requires Behaviour(run) && i <= j < |run| && sid in run[i].sessions
    ensures sid in run[j].sessions && run[j].sessions[sid].worker == run[i].sessions[sid].worker
    ensures run[i].sessions[sid].state == Fenced ==> run[j].sessions[sid].state in {Fenced, Stopped}
    ensures run[i].sessions[sid].state == Stopped ==> run[j].sessions[sid] == run[i].sessions[sid]
    ensures run[i].sessions[sid].stopRequested ==> run[j].sessions[sid].state != ActiveSession
  {
    SessionAlong(run, i, j, sid);
  }

  /** A session that was asked to stop, fenced or stopped never claims again. */
  lemma RevokedNeverClaims(run: seq<Db>, i: nat, j: nat, sid: SessionId, a: Action)
    requires Behaviour(run) && i <= j && TakesStep(run, j, a) && sid in run[i].sessions
    requires run[i].sessions[sid].stopRequested || run[i].sessions[sid].state in {Fenced, Stopping, Stopped}
    ensures !(a.ByStore? && a.store.Claim? && a.store.session == Some(sid))
  {
    hide RowsOk, CallsOk, HoldsOk, FlowOk, BudgetsOk, Apply, Steps;
    ReachableInv(run, i);
    assert SessionOk(run[i].sessions[sid]);
    SessionAlong(run, i, j, sid);
  }

  /** A worker id has at most one session that has not stopped: the one its registry row names. */
  lemma OneSessionPerWorker(run: seq<Db>, i: nat, x: SessionId, y: SessionId)
    requires Behaviour(run) && i < |run| && x in run[i].sessions && y in run[i].sessions
    requires run[i].sessions[x].worker == run[i].sessions[y].worker
    requires run[i].sessions[x].state != Stopped && run[i].sessions[y].state != Stopped
    ensures x == y && run[i].sessions[x].worker in run[i].registry
    ensures run[i].registry[run[i].sessions[x].worker].session == x && run[i].registry[run[i].sessions[x].worker].active
  {
    hide RowsOk, CallsOk, HoldsOk, FlowOk, BudgetsOk;
    ReachableInv(run, i);
    assert Named(x, run[i].sessions, run[i].registry) && Named(y, run[i].sessions, run[i].registry);
    assert Listed(run[i].sessions[x].worker, run[i].sessions, run[i].registry);
  }
}
