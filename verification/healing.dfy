/** What becomes of the error of a recovery. A scan by a coordinator that knows the handler takes it away, unless the
    attempt has reported meanwhile, with a success or with a retry. Both leave a hold; the conditions are exact. */
module Healing {
  import opened Types
  import opened Rows
  import opened Protocol
  import opened Invariants
  import opened Reachable
  import opened RowRecovery
  import opened Incidents
  import opened Coordinator
  import opened Tick
  import opened Stranded
  import History
  import KeepRows
  import KeepSessions
  import Safety

  // ---------------------------------------------------------------- errors of running attempts

  /** The open error of a running attempt was raised because the attempt is known to have ended. */
  ghost predicate ErrorProven(s: Db, t: TaskId) {
    t in s.tasks && s.tasks[t].status == Running && ErrorOpen(s, t) ==> StopProven(s, t)
  }

  lemma NewTasksWait(s: Db, a: Action, t: TaskId)
    requires Inv(s) && Guard(s, a) && t in Apply(s, a).tasks && t !in s.tasks
    ensures Apply(s, a).tasks[t].status == Pending
  {
    hide Inv, RegistryGuard, StoreGuard, RecoveryGuard, FlowGuard, RegistryApply, StoreApply, RecoveryApply, FlowApply, RowApply;
    History.StepEffect(s, a);
    match a
    case ByRegistry(x) => KeepSessions.RegistryFrame(s, x);
    case ByStore(x) => StoreTasksWait(s, x, t);
    case ByRecovery(x) => RecoveryTasksStay(s, x);
    case ByWorkflow(x) => FlowTasksWait(s, x, t);
  }

  lemma StoreTasksWait(s: Db, a: StoreAction, t: TaskId)
    requires StoreGuard(s, a) && t in StoreApply(s, a).tasks && t !in s.tasks
    requires History.HasEffect(s, History.EffectOf(s, ByStore(a)), StoreApply(s, a))
    ensures StoreApply(s, a).tasks[t].status == Pending
  {
    hide RowApply, TakenOver, AfterClaim, SetRow;
  }

  lemma RecoveryTasksStay(s: Db, a: RecoveryAction)
    requires RecoveryGuard(s, a)
    ensures RecoveryApply(s, a).tasks.Keys == s.tasks.Keys
  {
    hide RowApply, Settled, Closed, Opened;
    match a
    case Decide(c, decision, extra, supplied, retryAt) => History.DecideEffect(s, c, decision, extra, supplied, retryAt);
    case OpenIncident(t, kind, reason) => History.OpenFrame(s, t, kind, reason);
    case CloseIncident(c, resolution) => History.CloseIncidents(s, c, resolution);
    case _ =>
  }

  lemma FlowTasksWait(s: Db, a: FlowAction, t: TaskId)
    requires FlowGuard(s, a) && t in FlowApply(s, a).tasks && t !in s.tasks
    requires History.HasEffect(s, History.EffectOf(s, ByWorkflow(a)), FlowApply(s, a))
    ensures FlowApply(s, a).tasks[t].status == Pending
  {
    hide RowApply, RunTasks, RunNodes, ReadyToBind;
    if a.SubmitRun? { RunTaskWaits(a.wf, a.run, a.policy, a.sequence, t); }
  }

  lemma RunTaskWaits(wf: string, run: WorkflowDef, policy: Option<nat>, sequence: nat, t: TaskId)
    ensures t in RunTasks(wf, run, policy, sequence) ==> RunTasks(wf, run, policy, sequence)[t].status == Pending
  {
  }

  /** A proof of a stop is never taken back. */
  lemma ProofStays(s: Db, a: Action, t: TaskId)
    requires Inv(s) && Guard(s, a) && t in s.tasks && t in Apply(s, a).tasks && Apply(s, a).tasks[t] == s.tasks[t] && StopProven(s, t)
    ensures StopProven(Apply(s, a), t)
  {
    hide Inv, Guard, Apply;
    if s.tasks[t].session.Some? { History.SessionStep(s, a, s.tasks[t].session.value); } else { AttestedStays(s, a); }
  }

  lemma AttestedStays(s: Db, a: Action)
    requires Guard(s, a)
    ensures s.attested <= Apply(s, a).attested
  {
    hide RegistryGuard, StoreGuard, FlowGuard, RegistryApply, StoreApply, FlowApply;
    match a
    case ByRegistry(x) => KeepSessions.RegistryFrame(s, x);
    case ByStore(x) => History.StoreFrame(s, x);
    case ByRecovery(x) => RecoveryAttests(s, x);
    case ByWorkflow(x) => History.FlowFrame(s, x);
  }

  lemma RecoveryAttests(s: Db, a: RecoveryAction)
    requires RecoveryGuard(s, a)
    ensures s.attested <= RecoveryApply(s, a).attested
  {
    hide RowApply, Settled, Closed, Opened;
    match a
    case Decide(c, decision, extra, supplied, retryAt) => History.DecideEffect(s, c, decision, extra, supplied, retryAt);
    case OpenIncident(t, kind, reason) => History.OpenFrame(s, t, kind, reason);
    case CloseIncident(c, resolution) => History.CloseIncidents(s, c, resolution);
    case _ =>
  }

  /** An attempt that starts has no incident yet. */
  lemma FreshCase(s: Db, t: TaskId, attempt: nat)
    requires Inv(s) && t in s.tasks && s.tasks[t].attempts < attempt
    ensures Case(t, attempt) !in s.incidents
  {
    hide RowsOk, SessionsOk, CallsOk, FlowOk, BudgetsOk;
    assert forall c | c in s.incidents :: IncidentOk(c, s.incidents[c], s.holds, s.tasks, s.nodes);
  }

  /** A row that is RUNNING after a step was RUNNING before, unless the step started its next attempt. */
  lemma RunningBefore(s: Db, a: Action, t: TaskId)
    requires Inv(s) && Guard(s, a) && t in Apply(s, a).tasks && Apply(s, a).tasks[t].status == Running
    ensures t in s.tasks
    ensures var r, r' := s.tasks[t], Apply(s, a).tasks[t];
      r' == r || (a.ByStore? && a.store.Claim? && r'.attempts == r.attempts + 1)
  {
    hide Inv, Guard, Apply;
    if t !in s.tasks { NewTasksWait(s, a, t); }
    History.StepEffect(s, a);
    match History.EffectOf(s, a)
    case Nothing =>
    case On(u, x) =>
      if u == t {
        if x.Start? { OnlyClaimsStart(s, a); } else { KeepRows.NotStarted(s.tasks[t], x); }
      }
  }

  lemma OnlyClaimsStart(s: Db, a: Action)
    requires Guard(s, a) && History.EffectOf(s, a).On? && History.EffectOf(s, a).action.Start?
    ensures a.ByStore? && a.store.Claim?
  {
    hide RegistryGuard, RecoveryGuard, FlowGuard;
  }

  lemma ErrorProvenStep(s: Db, a: Action, t: TaskId)
    requires Inv(s) && Guard(s, a) && ErrorProven(s, t)
    ensures ErrorProven(Apply(s, a), t)
  {
    hide Inv, Guard, Apply, StopProven;
    var s' := Apply(s, a);
    if t in s'.tasks && s'.tasks[t].status == Running && ErrorOpen(s', t) {
      var c := CurrentCase(s'.tasks[t], t);
      RunningBefore(s, a, t);
      if s'.tasks[t] == s.tasks[t] {
        if History.Touches(s, a, c) { TouchedError(s, a, t); } else { History.Untouched(s, a, c); }
        ProofStays(s, a, t);
      } else {
        FreshCase(s, t, c.attempt);
        History.Untouched(s, a, c);
      }
    }
  }

  lemma TouchedError(s: Db, a: Action, t: TaskId)
    requires Guard(s, a) && t in s.tasks && s.tasks[t].status == Running && t in Apply(s, a).tasks && Apply(s, a).tasks[t] == s.tasks[t]
    requires History.Touches(s, a, CurrentCase(s.tasks[t], t)) && ErrorOpen(Apply(s, a), t)
    ensures StopProven(s, t)
  {
    hide StopProven, SafeToTake;
    var c := CurrentCase(s.tasks[t], t);
    match a
    case ByStore(Recover(_, interrupt)) => TakenIsOver(s, t, interrupt);
    case ByRecovery(CloseIncident(_, resolution)) => History.CloseOneIncident(s, c, resolution);
    case ByRecovery(OpenIncident(_, kind, reason)) => OpenedShape(s, t, kind, reason);
    case _ =>
  }

  lemma TakenIsOver(s: Db, t: TaskId, interrupt: RowAction)
    requires t in s.tasks && RowGuard(s.tasks[t], interrupt) && interrupt.Interrupt?
    ensures t in TakenOver(s, t, interrupt).tasks && TakenOver(s, t, interrupt).tasks[t].status != Running
  {
    hide Closed;
    var s1 := SetRow(s, t, interrupt);
    assert s1.tasks[t].status != Running;
    hide RowApply, SetRow;
    if Settles(s1, t, s1.tasks[t]) { History.CloseIncidents(s1, Case(t, s1.tasks[t].attempts), RetryWasScheduled); }
  }

  lemma {:induction false} ErrorProvenAlong(run: seq<Db>, i: nat, t: TaskId)
    requires Behaviour(run) && i < |run|
    ensures ErrorProven(run[i], t)
  {
    hide Guard, Apply, Inv, ErrorOpen, StopProven;
    if i > 0 {
      ErrorProvenAlong(run, i - 1, t);
      ReachableInv(run, i - 1);
      assert Next(run[i - 1], run[i]);
      var a :| Guard(run[i - 1], a) && run[i] == Apply(run[i - 1], a);
      ErrorProvenStep(run[i - 1], a, t);
    }
  }

  /** When a tick of a coordinator that knows the handler follows a run of the system, the error of a recovery is still
      open afterwards if and only if the attempt has succeeded meanwhile, or its task waits and the error does not say
      that the handler of a waiting task is missing. */
  lemma TickHealsExactly(run: seq<Db>, s': Db, engine: Engine, fenceAfter: nat, now: Time, delays: TaskId -> nat,
                         recovered: seq<TaskId>, t: TaskId)
    requires Behaviour(run) && Ticked(run[|run| - 1], s', engine, fenceAfter, now, delays, recovered)
    requires t in run[|run| - 1].tasks && run[|run| - 1].tasks[t].def.handler in engine.registry && ErrorOpen(run[|run| - 1], t)
    ensures t in s'.tasks && (ErrorOpen(s', t) <==> BeyondScans(run[|run| - 1], t))
  {
    hide Next, Handled, HandlerChecked, HeldForHandler, Completed, Watched;
    var s := run[|run| - 1];
    ErrorProvenAlong(run, |run| - 1, t);
    assert t in s'.tasks.Keys;
    if s.tasks[t].status == Running {
      assert TaskRecovered(s, s', engine, t, now, delays(t));
      RecoveredStatus(s.tasks[t], InterruptAction(engine, s.tasks[t], now, delays(t), s'.tasks[t].sequence));
    }
    hide RowApply, TaskRecovered, StopProven, BeyondScans;
    assert ErrorsHealed(s, s', engine.registry, t);
  }

  // ---------------------------------------------------------------- an attempt that succeeded after all

  /** The open incident of an attempt that has succeeded. */
  ghost predicate HoldsSuccess(s: Db, c: Case) {
    && c.task in s.tasks && s.tasks[c.task].status == Success && s.tasks[c.task].attempts == c.attempt
    && c in s.incidents && s.incidents[c].Open()
  }

  lemma SuccessHeldStep(s: Db, a: Action, c: Case)
    requires Inv(s) && Guard(s, a) && HoldsSuccess(s, c) && s.incidents[c].kind != WaitStop
    ensures var s' := Apply(s, a); HoldsSuccess(s', c) && s'.incidents[c] == s.incidents[c]
  {
    hide Inv, RegistryGuard, FlowGuard, Apply, History.RowLater, RowApply;
    History.TaskStep(s, a, c.task);
    SuccessStays(s.tasks[c.task], Apply(s, a).tasks[c.task]);
    assert !History.Touches(s, a, c);
    History.Untouched(s, a, c);
  }

  lemma SuccessStays(r: TaskRow, r': TaskRow)
    requires History.RowLater(r, r') && r.status == Success
    ensures r' == r
  {
  }

  lemma {:induction false} SuccessHeldAlong(run: seq<Db>, i: nat, c: Case)
    requires Steps(run) && Inv(run[0]) && i < |run| && HoldsSuccess(run[0], c) && run[0].incidents[c].kind != WaitStop
    ensures HoldsSuccess(run[i], c) && run[i].incidents[c] == run[0].incidents[c]
  {
    hide Guard, Apply, Inv;
    if i > 0 {
      SuccessHeldAlong(run, i - 1, c);
      InvAlong(run, i - 1);
      assert Next(run[i - 1], run[i]);
      var a :| Guard(run[i - 1], a) && run[i] == Apply(run[i - 1], a);
      SuccessHeldStep(run[i - 1], a, c);
    }
  }

  ghost predicate MayClose(s: Db, c: Case) {
    exists s' :: Reaches(s, s') && c in s'.incidents && !s'.incidents[c].Open()
  }

  /** The open incident of an attempt that has succeeded can ever be closed if and only if it waits for the attempt
      to stop. The operator cannot decide it, for the task has not failed, and no scan closes it. */
  lemma HeldForEver(s: Db, c: Case)
    requires Inv(s) && HoldsSuccess(s, c)
    ensures MayClose(s, c) <==> s.incidents[c].kind == WaitStop
  {
    hide Inv;
    if s.incidents[c].kind == WaitStop {
      ReachesSelf(s);
      ReachesStep(s, s, ByRecovery(CloseIncident(c, OutcomeCommitted)));
      var s' := Closed(s, c, OutcomeCommitted);
      assert Reaches(s, s') && c in s'.incidents && !s'.incidents[c].Open();
    } else {
      forall s' | Reaches(s, s') ensures c in s'.incidents && s'.incidents[c].Open() {
        var run :| Steps(run) && run[0] == s && run[|run| - 1] == s';
        SuccessHeldAlong(run, |run| - 1, c);
      }
    }
  }

  // ---------------------------------------------------------------- an attempt that will be retried

  /** The open error of an attempt whose task waits for its next one. */
  ghost predicate HoldsRetry(s: Db, c: Case) {
    && c.task in s.tasks && s.tasks[c.task].status == Retrying && s.tasks[c.task].attempts == c.attempt
    && OpenAs(s, c, RecoveryError) && !s.incidents[c].reason.HandlerUnavailable?
  }

  /** A coordinator finds that it does not know the handler of the waiting task. */
  predicate Misses(a: Action, c: Case) {
    && a.ByRecovery? && a.recovery.OpenIncident? && a.recovery.t == c.task
    && a.recovery.kind == RecoveryError && a.recovery.reason.HandlerUnavailable?
  }

  lemma HeldIsNotEligible(s: Db, c: Case, now: Time)
    requires Inv(s) && HoldsRetry(s, c)
    ensures !Eligible(s, c.task, now)
  {
    hide Inv;
    HoldsWhileOpen(s, c);
  }

  /** A retry that waits on hold: nothing starts it, and nothing touches its incident except a coordinator that
      misses the handler. */
  lemma RetryHeldStep(s: Db, a: Action, c: Case)
    requires Inv(s) && Guard(s, a) && HoldsRetry(s, c)
    ensures Misses(a, c) || (HoldsRetry(Apply(s, a), c) && Apply(s, a).incidents[c] == s.incidents[c])
  {
    hide Inv, Apply;
    History.StepEffect(s, a);
    RetryRowStays(s, a, c);
    if !Misses(a, c) {
      assert !History.Touches(s, a, c);
      History.Untouched(s, a, c);
    }
  }

  lemma RetryRowStays(s: Db, a: Action, c: Case)
    requires Inv(s) && Guard(s, a) && HoldsRetry(s, c) && History.HasEffect(s, History.EffectOf(s, a), Apply(s, a))
    ensures c.task in Apply(s, a).tasks && Apply(s, a).tasks[c.task] == s.tasks[c.task]
  {
    hide Inv, Apply, RowApply, RegistryGuard, SafeToTake;
    if a.ByStore? && (a.store.Claim? || a.store.Refuse?) { HeldIsNotEligible(s, c, a.store.now); }
  }

  lemma {:induction false} RetryHeldAlong(run: seq<Db>, i: nat, c: Case)
    requires Steps(run) && Inv(run[0]) && i < |run| && HoldsRetry(run[0], c)
    ensures (HoldsRetry(run[i], c) && run[i].incidents[c] == run[0].incidents[c])
         || exists k :: 0 <= k < i && MissedAt(run, k, c)
  {
    hide Guard, Apply, Inv, Eligible;
    if i > 0 {
      RetryHeldAlong(run, i - 1, c);
      InvAlong(run, i - 1);
      if HoldsRetry(run[i - 1], c) && run[i - 1].incidents[c] == run[0].incidents[c] {
        assert Next(run[i - 1], run[i]);
        var a :| Guard(run[i - 1], a) && run[i] == Apply(run[i - 1], a);
        RetryHeldStep(run[i - 1], a, c);
        if Misses(a, c) { assert Safety.TakesStep(run, i - 1, a) && MissedAt(run, i - 1, c); }
      }
    }
  }

  ghost predicate MissedAt(run: seq<Db>, k: nat, c: Case) {
    exists a :: Safety.TakesStep(run, k, a) && Misses(a, c)
  }

  /** The incident is closed somewhere in the run. */
  ghost predicate ClosedIn(run: seq<Db>, c: Case) {
    run != [] && c in run[|run| - 1].incidents && !run[|run| - 1].incidents[c].Open()
  }

  /** The incident can be closed, but only after a coordinator that misses the handler has worded it anew: scans of
      coordinators that know the handler leave the task and its workflow on hold. */
  lemma HeldUntilMissed(s: Db, c: Case)
    requires Inv(s) && HoldsRetry(s, c)
    ensures forall run | Steps(run) && run[0] == s && ClosedIn(run, c) :: exists k :: 0 <= k < |run| - 1 && MissedAt(run, k, c)
    ensures exists run :: Steps(run) && run[0] == s && ClosedIn(run, c)
  {
    hide Inv;
    forall run | Steps(run) && run[0] == s && ClosedIn(run, c) ensures exists k :: 0 <= k < |run| - 1 && MissedAt(run, k, c) {
      RetryHeldAlong(run, |run| - 1, c);
    }
    var run := MissedAndKnown(s, c);
  }

  lemma MissedAndKnown(s: Db, c: Case) returns (run: seq<Db>)
    requires HoldsRetry(s, c)
    ensures Steps(run) && run[0] == s && ClosedIn(run, c)
  {
    var reason := HandlerUnavailable(s.tasks[c.task].def.handler);
    var miss, close := ByRecovery(OpenIncident(c.task, RecoveryError, reason)), ByRecovery(CloseIncident(c, HandlerRestored));
    assert Guard(s, miss);
    var m := Opened(s, c.task, RecoveryError, reason);
    OpenedShape(s, c.task, RecoveryError, reason);
    hide Opened;
    assert Guard(m, close) && Apply(s, miss) == m;
    run := [s, m, Apply(m, close)];
    History.CloseOneIncident(m, c, HandlerRestored);
    assert Next(s, m) && Next(m, Apply(m, close));
  }

  // ---------------------------------------------------------------- two reachable states

  const ATTESTED := Attest(TASK, 1)
  const UNDECODABLE := OpenIncident(TASK, RecoveryError, Undecodable("llm"))
  const SUCCESS := FinishSuccess(Null, 1)
  const RETRY := FinishFailure(Error("ConnectionError", Some(Transient)), false, LocalExecutor, 0, 0, 1)

  /** Such a state is reachable: a supervisor confirms that the call of an attempt without a session has ended, recovery
      cannot decode the row because its handler is missing, and then the executor of the call reports its success. */
  lemma ReportAfterFailedRecovery() returns (s: Db)
    ensures Reaches(EMPTY, s) && Inv(s) && HoldsSuccess(s, ATTEMPT) && s.incidents[ATTEMPT].kind == RecoveryError
    ensures HeldWorkflow(s, "flow")
  {
    hide Reaches, Alone, Inv, HoldsSuccess, Unrecovered;
    var m := FailedRecovery(0);
    s := Reports(m, 0, SUCCESS);
    SuccessHolds(m, 0);
  }

  /** The same run, except that the executor reports a failure that will be retried. */
  lemma RetryAfterFailedRecovery() returns (s: Db)
    ensures Reaches(EMPTY, s) && Inv(s) && HoldsRetry(s, ATTEMPT) && HeldWorkflow(s, "flow")
    ensures forall now :: !Eligible(s, TASK, now)
  {
    hide Reaches, Alone, Inv, HoldsRetry, Unrecovered, Eligible;
    var m := FailedRecovery(1);
    s := Reports(m, 1, RETRY);
    RetryHolds(m);
    forall now ensures !Eligible(s, TASK, now) { HeldIsNotEligible(s, ATTEMPT, now); }
  }

  ghost predicate Waits(s: Db, live: set<Invocation>, limit: nat) {
    && Alone(s, limit) && s.live == live && s.incidents == map[]
    && s.tasks[TASK].status == Running && s.tasks[TASK].attempts == 1 && s.tasks[TASK].owner == Some("owner")
    && !s.tasks[TASK].blocked && s.tasks[TASK].sequence == 0
  }

  /** The call has returned, its end is confirmed, and the recovery has failed. */
  ghost predicate Unrecovered(s: Db, limit: nat) {
    && Alone(s, limit) && s.live == {} && OpenAs(s, ATTEMPT, RecoveryError) && s.incidents[ATTEMPT].reason == Undecodable("llm")
    && s.tasks[TASK].status == Running && s.tasks[TASK].attempts == 1 && s.tasks[TASK].owner == Some("owner")
    && s.tasks[TASK].sequence == 0
  }

  lemma ReturnedAndAttested(s: Db, limit: nat) returns (s': Db)
    requires Reaches(EMPTY, s) && Waits(s, {CALL}, limit)
    ensures Reaches(EMPTY, s') && Waits(s', {}, limit) && ATTEMPT in s'.attested
  {
    hide Reaches;
    var returned := ByStore(EndInvocation(CALL));
    ReachesStep(EMPTY, s, returned);
    var m := Apply(s, returned);
    assert m.live == {} && m.tasks == s.tasks;
    ReachesStep(EMPTY, m, ByRecovery(ATTESTED));
    s' := Apply(m, ByRecovery(ATTESTED));
  }

  lemma FailedRecovery(limit: nat) returns (s: Db)
    ensures Reaches(EMPTY, s) && Unrecovered(s, limit)
  {
    hide Reaches, Alone;
    var s1 := Stranded.Submitted(limit);
    var s2 := Dispatched(s1, limit);
    var s3 := Claimed(s2, limit);
    var s4 := ReturnedAndAttested(s3, limit);
    s := RecoveryFails(s4, limit);
  }

  lemma RecoveryFails(s: Db, limit: nat) returns (s': Db)
    requires Reaches(EMPTY, s) && Waits(s, {}, limit) && ATTEMPT in s.attested
    ensures Reaches(EMPTY, s') && Unrecovered(s', limit)
  {
    hide Reaches;
    ReachesStep(EMPTY, s, ByRecovery(UNDECODABLE));
    s' := Opened(s, TASK, RecoveryError, Undecodable("llm"));
    OpenedShape(s, TASK, RecoveryError, Undecodable("llm"));
    hide Opened;
  }

  lemma Reports(s: Db, limit: nat, finish: RowAction) returns (s': Db)
    requires Reaches(EMPTY, s) && Unrecovered(s, limit) && (finish == SUCCESS || finish == RETRY)
    ensures Reaches(EMPTY, s') && Inv(s') && TASK in s.tasks && RowGuard(s.tasks[TASK], finish) && s' == SetRow(s, TASK, finish)
    ensures HeldWorkflow(s', "flow")
  {
    hide Reaches, RowApply, Inv;
    MayReport(s, limit, finish);
    var a := ByStore(Commit(TASK, "owner", 1, finish));
    assert Guard(s, a) && Apply(s, a) == SetRow(s, TASK, finish);
    hide StoreGuard, StoreApply, Unrecovered, RowGuard;
    ReachesStep(EMPTY, s, a);
    s' := SetRow(s, TASK, finish);
    EmptyInv();
    ReachesInv(EMPTY, s');
    HeldByIncident(s');
  }

  lemma MayReport(s: Db, limit: nat, finish: RowAction)
    requires Unrecovered(s, limit) && (finish == SUCCESS || finish == RETRY)
    ensures StoreGuard(s, Commit(TASK, "owner", 1, finish)) && TASK in s.tasks && RowGuard(s.tasks[TASK], finish)
    ensures StoreApply(s, Commit(TASK, "owner", 1, finish)) == SetRow(s, TASK, finish)
    ensures IsOpen(s, ATTEMPT) && s.nodes.Keys == {TASK}
  {
    hide RowApply;
  }

  lemma HeldByIncident(s: Db)
    requires Inv(s) && IsOpen(s, ATTEMPT) && s.nodes.Keys == {TASK}
    ensures HeldWorkflow(s, "flow")
  {
    hide RowsOk, SessionsOk, CallsOk, FlowOk, BudgetsOk;
    assert IncidentOk(ATTEMPT, s.incidents[ATTEMPT], s.holds, s.tasks, s.nodes);
    assert TASK in s.nodes.Keys;
  }

  lemma SuccessHolds(m: Db, limit: nat)
    requires Unrecovered(m, limit)
    ensures var s := SetRow(m, TASK, SUCCESS); HoldsSuccess(s, ATTEMPT) && s.incidents[ATTEMPT].kind == RecoveryError
  {
  }

  lemma RetryHolds(m: Db)
    requires Unrecovered(m, 1)
    ensures HoldsRetry(SetRow(m, TASK, RETRY), ATTEMPT)
  {
  }
}
