/** The transactions of a coordinator's tick: fencing, housekeeping of incidents and the scan of
    RUNNING and FAILED rows. Each is atomic; other transactions may run between them. */
module Coordinator {
  import opened Types
  import opened Rows
  import opened Protocol
  import opened Invariants
  import opened Reachable
  import opened Tables
  import opened RowRecovery
  import opened Incidents
  import RowLaws

  // ---------------------------------------------------------------- fencing

  predicate FenceDue(row: SessionRow, fenceAfter: nat, now: Time) {
    row.state == Suspect && row.lastHeartbeat + row.timeout + fenceAfter <= now
  }

  function FencedIfDue(row: SessionRow, fenceAfter: nat, now: Time): SessionRow {
    if FenceDue(row, fenceAfter, now) then row.(state := Fenced) else row
  }

  lemma FenceReached(before: Db, s: Db, sid: SessionId)
    requires Reaches(before, s) && sid in s.sessions && s.sessions[sid].state == Suspect
    ensures Reaches(before, s.(sessions := s.sessions[sid := s.sessions[sid].(state := Fenced)]))
  {
    hide Reaches;
    ReachesStep(before, s, ByRegistry(FenceSession(sid)));
  }

  lemma DueIsSuspect(row: SessionRow, fenceAfter: nat, now: Time)
    requires FenceDue(row, fenceAfter, now)
    ensures row.state == Suspect
  {
  }

  /** Suspects whose grace period is over are fenced; a resumed heartbeat has saved the others. */
  method FenceSuspects(db: Database, fenceAfter: nat, now: Time)
    modifies db
    ensures db.State() == old(db.State()).(sessions := db.sessions)
    ensures db.sessions == map sid | sid in old(db.sessions) :: FencedIfDue(old(db.sessions)[sid], fenceAfter, now)
    ensures Reaches(old(db.State()), db.State())
  {
    hide Reaches, FenceDue;
    var due := set sid | sid in db.sessions && FenceDue(db.sessions[sid], fenceAfter, now);
    var todo := due;
    ghost var before := db.sessions;
    ReachesSelf(db.State());
    while todo != {}
      invariant todo <= due && db.State() == old(db.State()).(sessions := db.sessions)
      invariant db.sessions.Keys == before.Keys
      invariant forall sid | sid in before ::
        db.sessions[sid] == if sid in due && sid !in todo then before[sid].(state := Fenced) else before[sid]
      invariant Reaches(old(db.State()), db.State())
    {
      var sid :| sid in todo;
      DueIsSuspect(db.sessions[sid], fenceAfter, now);
      FenceReached(old(db.State()), db.State(), sid);
      db.sessions := db.sessions[sid := db.sessions[sid].(state := Fenced)];
      todo := todo - {sid};
    }
  }

  // ---------------------------------------------------------------- what a scan owes to a row

  ghost predicate Answered(s: Db, c: Case) { IsOpen(s, c) || DecidedByOperator(s, c) }

  ghost predicate OpenAs(s: Db, c: Case, kind: IncidentKind) { IsOpen(s, c) && s.incidents[c].kind == kind }

  predicate SessionAlive(s: Db, t: TaskId)
    requires t in s.tasks
  {
    s.tasks[t].session.Some? && s.tasks[t].session.value in s.sessions &&
    s.sessions[s.tasks[t].session.value].state in {ActiveSession, Stopping}
  }

  /** The call of the attempt is known to be over: its session stopped with evidence, or an operator attested it. */
  ghost predicate EndKnown(s: Db, t: TaskId)
    requires t in s.tasks
  {
    var r := s.tasks[t];
    if r.session.None? then Case(t, r.attempts) in s.attested
    else r.session.value in s.sessions && s.sessions[r.session.value].state == Stopped && s.sessions[r.session.value].evidence.Some?
  }

  /** The session of the attempt may still be working. */
  ghost predicate AtWork(s: Db, t: TaskId)
    requires t in s.tasks
  {
    var sid := s.tasks[t].session;
    sid.Some? && sid.value in s.sessions && (s.sessions[sid.value].state == ActiveSession || s.sessions[sid.value].state == Stopping)
  }

  lemma KnownExactly(s: Db, t: TaskId)
    requires t in s.tasks
    ensures StopProven(s, t) <==> EndKnown(s, t)
    ensures SessionAlive(s, t) <==> AtWork(s, t)
  {
  }

  /** After the scan of its row a failure is before the operator, unless it was decided; an attempt that is known
      to have ended was recovered, or is on hold because its handler is unknown here; one that may still be going
      is on hold; one whose session is alive is not held up; and neither is one that will be retried. */
  ghost predicate Handled(s: Db, engine: Engine, t: TaskId)
    requires t in s.tasks
  {
    var r, c := s.tasks[t], CurrentCase(s.tasks[t], t);
    && (r.status == Failed ==> DecidedByOperator(s, c) || OpenAs(s, c, TaskFailure))
    && (r.status == Running && StopProven(s, t) ==>
          && r.def.handler !in engine.registry && OpenAs(s, c, RecoveryError)
          && s.incidents[c].reason == Undecodable(r.def.handler))
    && (r.status == Running && !StopProven(s, t) && !SessionAlive(s, t) ==> OpenAs(s, c, WaitStop))
    && (r.status == Running && SessionAlive(s, t) ==> !OpenAs(s, c, WaitStop))
    && (r.status == Retrying ==> !IsOpen(s, c))
  }

  /** The incident waits for an attempt that has committed its outcome after all. */
  predicate Completed(s: Db, c: Case) {
    c in s.incidents && s.incidents[c].Open() && Closable(s, c, OutcomeCommitted)
  }

  /** The open incident of a waiting task says that its handler is unknown. */
  predicate HandlerIncident(s: Db, t: TaskId)
    requires t in s.tasks
  {
    var c := Case(t, s.tasks[t].attempts);
    c in s.incidents && s.incidents[c].Open() && s.incidents[c].kind == RecoveryError && s.incidents[c].reason.HandlerUnavailable?
  }

  /** A recovery of the current attempt of the task is known to have gone wrong. */
  ghost predicate ErrorOpen(s: Db, t: TaskId)
    requires t in s.tasks
  {
    OpenAs(s, CurrentCase(s.tasks[t], t), RecoveryError)
  }

  /** A waiting task whose handler is unknown waits for it, unless an operator decided its last attempt; one whose
      handler is known does not wait for it. */
  ghost predicate HandlerChecked(s: Db, registry: set<string>, t: TaskId)
    requires t in s.tasks
  {
    s.tasks[t].status in {Pending, Retrying} ==>
      if s.tasks[t].def.handler in registry then !HandlerIncident(s, t)
      else DecidedByOperator(s, CurrentCase(s.tasks[t], t)) || HandlerIncident(s, t)
  }

  /** The scan owes nothing to the row: running again would change neither the row nor its holds. */
  ghost predicate RowQuiet(s: Db, engine: Engine, t: TaskId)
    requires t in s.tasks
  {
    && (s.tasks[t].status in {Running, Status.Failed} ==> Handled(s, engine, t))
    && HandlerChecked(s, engine.registry, t) && !Completed(s, CurrentCase(s.tasks[t], t))
  }

  /** The scan of a row whose session is alive neither raises nor settles the error of an earlier recovery. */
  ghost predicate ErrorKept(s: Db, s': Db, t: TaskId) {
    && t in s.tasks && t in s'.tasks
    && (s.tasks[t].status == Running && SessionAlive(s, t) ==> (ErrorOpen(s', t) <==> ErrorOpen(s, t)))
  }

  /** All that decides what is owed to a row is as before. */
  ghost predicate SameCase(s: Db, s': Db, t: TaskId) {
    && t in s.tasks && t in s'.tasks && s'.tasks[t] == s.tasks[t] && s'.sessions == s.sessions && s'.attested == s.attested
    && var c := CurrentCase(s.tasks[t], t);
       (c in s'.incidents <==> c in s.incidents) && (c in s.incidents ==> s'.incidents[c] == s.incidents[c])
  }

  lemma SameCaseQuiet(s: Db, s': Db, engine: Engine, t: TaskId)
    requires SameCase(s, s', t)
    ensures RowQuiet(s, engine, t) <==> RowQuiet(s', engine, t)
    ensures HandlerChecked(s, engine.registry, t) <==> HandlerChecked(s', engine.registry, t)
    ensures Completed(s, CurrentCase(s.tasks[t], t)) <==> Completed(s', CurrentCase(s.tasks[t], t))
    ensures StopProven(s, t) <==> StopProven(s', t)
    ensures IsOpen(s, CurrentCase(s.tasks[t], t)) <==> IsOpen(s', CurrentCase(s.tasks[t], t))
    ensures Handled(s, engine, t) <==> Handled(s', engine, t)
    ensures (ErrorOpen(s, t) <==> ErrorOpen(s', t)) && (SessionAlive(s, t) <==> SessionAlive(s', t))
  {
  }

  lemma SameCaseTwice(s: Db, m: Db, s': Db, t: TaskId)
    requires SameCase(s, m, t) && SameCase(m, s', t)
    ensures SameCase(s, s', t)
  {
  }

  /** The change is confined to one row and the incident of its current attempt. */
  ghost predicate Confined(s: Db, s': Db, t: TaskId) {
    && s' == s.(tasks := s'.tasks, incidents := s'.incidents, holds := s'.holds)
    && t in s.tasks && s'.tasks.Keys == s.tasks.Keys
    && (forall u | u in s.tasks && u != t :: s'.tasks[u] == s.tasks[u])
    && s'.tasks[t].attempts == s.tasks[t].attempts
    && OnlyCase(s.incidents, s'.incidents, CurrentCase(s.tasks[t], t))
  }

  lemma SameElsewhere(s: Db, s': Db, t: TaskId, u: TaskId)
    requires Confined(s, s', t) && u in s.tasks && u != t
    ensures SameCase(s, s', u)
  {
    assert u in s'.tasks.Keys;
    assert CurrentCase(s.tasks[u], u) != CurrentCase(s.tasks[t], t);
  }

  lemma ConfinedTwice(s: Db, m: Db, s': Db, t: TaskId)
    requires Confined(s, m, t) && Confined(m, s', t)
    ensures Confined(s, s', t)
  {
  }

  lemma RaisedConfined(s: Db, t: TaskId, kind: IncidentKind, reason: Reason)
    requires t in s.tasks
    ensures Confined(s, Raised(s, t, kind, reason), t)
    ensures var s', c := Raised(s, t, kind, reason), CurrentCase(s.tasks[t], t);
      && s'.tasks == s.tasks && (DecidedByOperator(s', c) <==> DecidedByOperator(s, c))
      && (!DecidedByOperator(s, c) ==> OpenAs(s', c, kind) && s'.incidents[c].reason == reason)
  {
    if !DecidedByOperator(s, CurrentCase(s.tasks[t], t)) { OpenedShape(s, t, kind, reason); }
    hide Opened;
  }

  lemma RunningIsUndecided(s: Db, t: TaskId)
    requires Inv(s) && t in s.tasks && s.tasks[t].status == Running
    ensures !DecidedByOperator(s, CurrentCase(s.tasks[t], t))
  {
    hide RowsOk, SessionsOk, CallsOk, FlowOk, BudgetsOk;
    var c := CurrentCase(s.tasks[t], t);
    assert c in s.incidents ==> IncidentOk(c, s.incidents[c], s.holds, s.tasks, s.nodes);
  }

  lemma OpenHasHolds(s: Db, c: Case)
    requires HoldsOk(s.incidents, s.holds, s.tasks, s.nodes) && IsOpen(s, c)
    ensures Hold(TaskScope(c.task), ByIncident(c)) in s.holds
    ensures IncidentWorkflow(s, c.task).Some? ==> Hold(WorkflowScope(IncidentWorkflow(s, c.task).value), ByIncident(c)) in s.holds
  {
    assert IncidentOk(c, s.incidents[c], s.holds, s.tasks, s.nodes);
  }

  /** Raising an incident that is open already, or decided, adds no hold. */
  lemma RaisedAgain(s: Db, t: TaskId, kind: IncidentKind, reason: Reason)
    requires Inv(s) && t in s.tasks && Answered(s, CurrentCase(s.tasks[t], t))
    ensures Raised(s, t, kind, reason).holds == s.holds
  {
    hide RowsOk, SessionsOk, CallsOk, FlowOk, BudgetsOk, HoldsOk;
    var c := CurrentCase(s.tasks[t], t);
    if !DecidedByOperator(s, c) {
      OpenHasHolds(s, c);
      OpenedHoldSet(s, t, kind, reason);
      hide Opened;
    }
  }

  lemma OpenedHoldSet(s: Db, t: TaskId, kind: IncidentKind, reason: Reason)
    requires t in s.tasks
    ensures var c, workflow := CurrentCase(s.tasks[t], t), IncidentWorkflow(s, t);
      Opened(s, t, kind, reason).holds == s.holds + {Hold(TaskScope(t), ByIncident(c))}
        + (if workflow.Some? then {Hold(WorkflowScope(workflow.value), ByIncident(c))} else {})
  {
  }

  lemma ClosedConfined(s: Db, t: TaskId, resolution: Resolution)
    requires t in s.tasks && CurrentCase(s.tasks[t], t) in s.incidents
    ensures Confined(s, Closed(s, CurrentCase(s.tasks[t], t), resolution), t)
    ensures var s', c := Closed(s, CurrentCase(s.tasks[t], t), resolution), CurrentCase(s.tasks[t], t);
      !IsOpen(s', c) && (DecidedByOperator(s', c) <==> resolution.Decided?)
  {
    var c := CurrentCase(s.tasks[t], t);
    assert Closed(s, c, resolution).incidents == s.incidents[c := s.incidents[c].(resolution := Some(resolution))];
  }

  lemma RecoveredConfined(s: Db, engine: Engine, t: TaskId, now: Time, delay: nat, sequence: nat)
    requires t in s.tasks && s.tasks[t].status == Running
    ensures var s' := Recovered(s, engine, t, now, delay, sequence);
      && Confined(s, s', t) && s'.tasks[t].status in {Status.Failed, Retrying}
      && (s'.tasks[t].status == Retrying ==> !IsOpen(s', CurrentCase(s'.tasks[t], t)))
  {
    var a := InterruptAction(engine, s.tasks[t], now, delay, sequence);
    var s1 := SetRow(s, t, a);
    assert s1.tasks[t].attempts == s.tasks[t].attempts && s1.tasks[t].status in {Status.Failed, Retrying};
    assert Confined(s, s1, t) by { hide RowApply; }
    hide RowApply, SetRow;
    if Settles(s1, t, s1.tasks[t]) {
      ClosedConfined(s1, t, RetryWasScheduled);
      hide Closed, Confined;
      ConfinedTwice(s, s1, Closed(s1, CurrentCase(s1.tasks[t], t), RetryWasScheduled), t);
    }
  }

  // ---------------------------------------------------------------- the scan

  lemma ProvenIsSafe(s: Db, t: TaskId)
    requires Inv(s) && t in s.tasks && s.tasks[t].status == Running && StopProven(s, t)
    ensures SafeToTake(s, t)
  {
    hide RowsOk, SessionsOk, HoldsOk, FlowOk, BudgetsOk;
    if s.tasks[t].session.None? {
      forall i | i in s.live ensures i.task != t { assert CallOk(i, s.tasks, s.sessions); }
    }
  }

  lemma RaisedKeepsProof(s: Db, t: TaskId, kind: IncidentKind, reason: Reason)
    requires t in s.tasks
    ensures var s' := Raised(s, t, kind, reason);
      && s'.tasks == s.tasks && (StopProven(s', t) <==> StopProven(s, t)) && (SessionAlive(s', t) <==> SessionAlive(s, t))
      && (SafeToTake(s', t) <==> SafeToTake(s, t))
  {
    hide Raised;
    RaisedKeepsTasks(s, t, kind, reason);
  }

  ghost predicate TaskRecovered(s: Db, s': Db, engine: Engine, t: TaskId, now: Time, delay: nat) {
    t in s.tasks && t in s'.tasks && RowRecovered(s.tasks[t], s'.tasks[t], engine, now, delay)
  }

  lemma RecoveredRow(s: Db, engine: Engine, t: TaskId, now: Time, delay: nat, sequence: nat)
    requires t in s.tasks && s.tasks[t].status == Running
    ensures TaskRecovered(s, Recovered(s, engine, t, now, delay, sequence), engine, t, now, delay)
  {
    var a := InterruptAction(engine, s.tasks[t], now, delay, sequence);
    assert RowApply(s.tasks[t], a).sequence == sequence;
    hide RowApply, RowLaws.InterruptedTo;
    RowLaws.InterruptionExactly(s.tasks[t], s.tasks[t].def.handler in engine.external, now, delay, sequence);
  }

  lemma RecoveredOneHandled(s: Db, engine: Engine, t: TaskId, now: Time, delay: nat, sequence: nat)
    requires t in s.tasks && s.tasks[t].status == Running && StopProven(s, t) && !SessionAlive(s, t)
    requires !DecidedByOperator(s, CurrentCase(s.tasks[t], t))
    ensures var s' := RecoveredOne(s, engine, t, now, delay, sequence);
      && Confined(s, s', t) && Handled(s', engine, t)
      && if s.tasks[t].def.handler in engine.registry then TaskRecovered(s, s', engine, t, now, delay) else s'.tasks == s.tasks
  {
    hide Raised, Recovered, Confined;
    if s.tasks[t].def.handler !in engine.registry {
      RaisedConfined(s, t, RecoveryError, Undecodable(s.tasks[t].def.handler));
      RaisedKeepsProof(s, t, RecoveryError, Undecodable(s.tasks[t].def.handler));
    } else {
      var m := Recovered(s, engine, t, now, delay, sequence);
      RecoveredConfined(s, engine, t, now, delay, sequence);
      RecoveredRow(s, engine, t, now, delay, sequence);
      ConfinedRows(s, m, t);
      if m.tasks[t].status != Retrying {
        RaisedConfined(m, t, TaskFailure, UNCERTAIN_OUTCOME);
        ConfinedTwice(s, m, Raised(m, t, TaskFailure, UNCERTAIN_OUTCOME), t);
      }
    }
  }

  lemma ConfinedRows(s: Db, s': Db, t: TaskId)
    requires Confined(s, s', t)
    ensures t in s.tasks && t in s'.tasks && s'.tasks.Keys == s.tasks.Keys && s'.tasks[t].attempts == s.tasks[t].attempts
    ensures s'.sessions == s.sessions && s'.attested == s.attested && s'.nodes == s.nodes && s'.runs == s.runs
    ensures forall u | u in s.tasks && u != t :: s'.tasks[u] == s.tasks[u]
  {
    assert t in s'.tasks.Keys;
  }

  lemma AliveIsNotProven(s: Db, t: TaskId)
    requires t in s.tasks && SessionAlive(s, t)
    ensures !StopProven(s, t)
  {
  }

  function FailureReason(r: TaskRow): Reason {
    if r.error.Some? then Because(r.error.value.name) else TASK_FAILED
  }

  /** The row of a failed task. */
  method ScanFailed(db: Database, engine: Engine, t: TaskId)
    requires db.Valid() && t in db.tasks && db.tasks[t].status == Failed
    modifies db
    ensures Confined(old(db.State()), db.State(), t) && Handled(db.State(), engine, t) && db.tasks == old(db.tasks)
    ensures Handled(old(db.State()), engine, t) ==> db.holds == old(db.holds)
    ensures var r := old(db.tasks)[t];
      OpensCase(old(db.State()), db.State(), t, TaskFailure, Because(if r.error.Some? then r.error.value.name else "task failed"))
    ensures db.Valid() && Reaches(old(db.State()), db.State())
  {
    hide Inv, Reaches, Raised, Confined, OpensCase;
    var reason := FailureReason(db.tasks[t]);
    if Handled(db.State(), engine, t) { RaisedAgain(db.State(), t, TaskFailure, reason); }
    RaisedReaches(db.State(), t, TaskFailure, reason);
    RaisedConfined(db.State(), t, TaskFailure, reason);
    Raise(db, t, TaskFailure, reason);
  }

  /** The row of an attempt that is known to have ended. */
  method ScanStopped(db: Database, engine: Engine, t: TaskId, now: Time, delay: nat) returns (recovered: bool)
    requires db.Valid() && t in db.tasks && db.tasks[t].status == Running && StopProven(db.State(), t)
    modifies db
    ensures Confined(old(db.State()), db.State(), t) && Handled(db.State(), engine, t)
    ensures recovered <==> old(db.tasks[t].def.handler) in engine.registry
    ensures if recovered then TaskRecovered(old(db.State()), db.State(), engine, t, now, delay) else db.tasks == old(db.tasks)
    ensures Handled(old(db.State()), engine, t) ==> !recovered && db.holds == old(db.holds)
    ensures db.Valid() && Reaches(old(db.State()), db.State())
  {
    hide Inv, Reaches, Raised, RecoveredOne, Confined, Handled, TaskRecovered, StopProven, SessionAlive, SafeToTake, Answered;
    ghost var s := db.State();
    ProvenIsSafe(s, t);
    RunningIsUndecided(s, t);
    if SessionAlive(s, t) { AliveIsNotProven(s, t); }
    if Handled(s, engine, t) { UnknownAndAnswered(s, engine, t); }
    RaisedReaches(s, t, WaitStop, STOPPED_PENDING);
    RaisedConfined(s, t, WaitStop, STOPPED_PENDING);
    RaisedKeepsProof(s, t, WaitStop, STOPPED_PENDING);
    Raise(db, t, WaitStop, STOPPED_PENDING);
    ghost var m := db.State();
    assert Answered(m, CurrentCase(m.tasks[t], t)) by { OpenIsAnswered(m, CurrentCase(m.tasks[t], t), WaitStop); }
    recovered := RecoverOne(db, engine, t, now, delay);
    RecoveredOneHandled(m, engine, t, now, delay, db.tasks[t].sequence);
    ReachesTransitive(s, m, db.State());
    ConfinedTwice(s, m, db.State(), t);
    if recovered { SameRowRecovered(s, m, db.State(), engine, t, now, delay); }
    if Handled(s, engine, t) { NoNewHold(s, m, engine, t, now, delay, db.tasks[t].sequence); }
  }

  lemma OpenIsAnswered(s: Db, c: Case, kind: IncidentKind)
    requires OpenAs(s, c, kind)
    ensures Answered(s, c)
  {
  }

  lemma UnknownAndAnswered(s: Db, engine: Engine, t: TaskId)
    requires t in s.tasks && s.tasks[t].status == Running && StopProven(s, t) && Handled(s, engine, t)
    ensures s.tasks[t].def.handler !in engine.registry && Answered(s, CurrentCase(s.tasks[t], t))
  {
  }

  /** A row that was handled before and cannot be decoded gains no hold. */
  lemma NoNewHold(s: Db, m: Db, engine: Engine, t: TaskId, now: Time, delay: nat, sequence: nat)
    requires Inv(s) && Inv(m) && t in s.tasks && t in m.tasks && m.tasks == s.tasks && s.tasks[t].status == Running
    requires m == Raised(s, t, WaitStop, STOPPED_PENDING) && Answered(s, CurrentCase(s.tasks[t], t))
    requires Answered(m, CurrentCase(m.tasks[t], t)) && s.tasks[t].def.handler !in engine.registry
    ensures RecoveredOne(m, engine, t, now, delay, sequence).holds == s.holds
  {
    hide Inv, Raised, Answered;
    RaisedAgain(s, t, WaitStop, STOPPED_PENDING);
    RaisedAgain(m, t, RecoveryError, Undecodable(m.tasks[t].def.handler));
  }

  lemma SameRowRecovered(s: Db, m: Db, s': Db, engine: Engine, t: TaskId, now: Time, delay: nat)
    requires TaskRecovered(m, s', engine, t, now, delay) && m.tasks == s.tasks
    ensures TaskRecovered(s, s', engine, t, now, delay)
  {
  }

  /** The row of an attempt whose session is silent: it stays RUNNING, and on hold. */
  method ScanSilent(db: Database, engine: Engine, t: TaskId)
    requires db.Valid() && t in db.tasks && db.tasks[t].status == Running
    requires !StopProven(db.State(), t) && !SessionAlive(db.State(), t)
    modifies db
    ensures Confined(old(db.State()), db.State(), t) && Handled(db.State(), engine, t) && db.tasks == old(db.tasks)
    ensures Handled(old(db.State()), engine, t) ==> db.holds == old(db.holds)
    ensures OpensCase(old(db.State()), db.State(), t, WaitStop, NEEDS_CONFIRMATION)
    ensures db.Valid() && Reaches(old(db.State()), db.State())
  {
    hide Inv, Reaches, Raised, Confined, StopProven, SessionAlive, OpensCase;
    RaisedReaches(db.State(), t, WaitStop, NEEDS_CONFIRMATION);
    RaisedConfined(db.State(), t, WaitStop, NEEDS_CONFIRMATION);
    RaisedKeepsProof(db.State(), t, WaitStop, NEEDS_CONFIRMATION);
    RunningIsUndecided(db.State(), t);
    if Handled(db.State(), engine, t) { RaisedAgain(db.State(), t, WaitStop, NEEDS_CONFIRMATION); }
    Raise(db, t, WaitStop, NEEDS_CONFIRMATION);
  }

  /** The row of an attempt whose session is alive (again): a hold for silence is lifted. */
  method ScanAlive(db: Database, engine: Engine, t: TaskId)
    requires db.Valid() && t in db.tasks && db.tasks[t].status == Running && SessionAlive(db.State(), t)
    modifies db
    ensures ErrorKept(old(db.State()), db.State(), t)
    ensures Confined(old(db.State()), db.State(), t) && Handled(db.State(), engine, t) && db.tasks == old(db.tasks)
    ensures Handled(old(db.State()), engine, t) ==> db.holds == old(db.holds)
    ensures db.Valid() && Reaches(old(db.State()), db.State())
  {
    hide Inv, Reaches, Closed, Confined, StopProven, SessionAlive, Handled, ErrorKept;
    ghost var s := db.State();
    var c := Case(t, db.tasks[t].attempts);
    if c in db.incidents && db.incidents[c].Open() && db.incidents[c].kind == WaitStop {
      ClosedReaches(s, c, HeartbeatResumed);
      ResumedHandled(s, engine, t);
      ClosedFrame(s, c, HeartbeatResumed);
      Close(db, c, HeartbeatResumed);
    } else {
      AliveHandled(s, engine, t);
      ReachesSelf(s);
      SelfConfined(s, t);
    }
  }

  lemma ResumedHandled(s: Db, engine: Engine, t: TaskId)
    requires t in s.tasks && s.tasks[t].status == Running && SessionAlive(s, t) && OpenAs(s, CurrentCase(s.tasks[t], t), WaitStop)
    ensures var s' := Closed(s, CurrentCase(s.tasks[t], t), HeartbeatResumed);
      Confined(s, s', t) && t in s'.tasks && Handled(s', engine, t) && ErrorKept(s, s', t)
    ensures !Handled(s, engine, t)
  {
    AliveIsNotProven(s, t);
    ClosedFrame(s, CurrentCase(s.tasks[t], t), HeartbeatResumed);
    ClosedConfined(s, t, HeartbeatResumed);
    hide Closed, Confined, StopProven, SessionAlive;
  }

  lemma AliveHandled(s: Db, engine: Engine, t: TaskId)
    requires t in s.tasks && s.tasks[t].status == Running && SessionAlive(s, t) && !OpenAs(s, CurrentCase(s.tasks[t], t), WaitStop)
    ensures Handled(s, engine, t) && ErrorKept(s, s, t)
  {
    AliveIsNotProven(s, t);
  }

  lemma SelfConfined(s: Db, t: TaskId)
    requires t in s.tasks
    ensures Confined(s, s, t)
  {
  }

  lemma ClosedFrame(s: Db, c: Case, resolution: Resolution)
    requires c in s.incidents
    ensures var s' := Closed(s, c, resolution); s' == s.(incidents := s'.incidents, holds := s'.holds)
    ensures forall t | t in s.tasks :: (StopProven(Closed(s, c, resolution), t) <==> StopProven(s, t))
                                       && (SessionAlive(Closed(s, c, resolution), t) <==> SessionAlive(s, t))
  {
  }

  /** One turn of the scan. */
  method ScanRow(db: Database, engine: Engine, t: TaskId, now: Time, delay: nat) returns (recovered: bool)
    requires db.Valid() && t in db.tasks && db.tasks[t].status in {Running, Status.Failed}
    modifies db
    ensures Confined(old(db.State()), db.State(), t) && Handled(db.State(), engine, t)
    ensures recovered <==> old(db.tasks[t].status == Running && StopProven(db.State(), t) && db.tasks[t].def.handler in engine.registry)
    ensures if recovered then TaskRecovered(old(db.State()), db.State(), engine, t, now, delay) else db.tasks == old(db.tasks)
    ensures Handled(old(db.State()), engine, t) ==> !recovered && db.holds == old(db.holds)
    ensures ErrorKept(old(db.State()), db.State(), t)
    ensures db.Valid() && Reaches(old(db.State()), db.State())
  {
    hide Inv, Reaches, Confined, Handled, TaskRecovered, StoppedWithEvidence, ErrorKept;
    recovered := false;
    var r := db.tasks[t];
    ghost var s := db.State();
    if r.status == Failed {
      ScanFailed(db, engine, t);
      NotAlive(s, db.State(), t);
      return;
    }
    var proven := Proof(db, t);
    if proven {
      recovered := ScanStopped(db, engine, t, now, delay);
      NotAlive(s, db.State(), t);
    } else if r.session.None? || r.session.value !in db.sessions || db.sessions[r.session.value].state in {Suspect, Fenced, Stopped} {
      ScanSilent(db, engine, t);
      NotAlive(s, db.State(), t);
    } else {
      assert db.sessions[r.session.value].state.ActiveSession? || db.sessions[r.session.value].state.Stopping?;
      ScanAlive(db, engine, t);
    }
  }

  lemma NotAlive(s: Db, s': Db, t: TaskId)
    requires Confined(s, s', t) && (s.tasks[t].status != Running || StopProven(s, t) || !SessionAlive(s, t))
    ensures ErrorKept(s, s', t)
  {
    ConfinedRows(s, s', t);
    if SessionAlive(s, t) { AliveIsNotProven(s, t); }
  }

  method Proof(db: Database, t: TaskId) returns (proven: bool)
    requires t in db.tasks
    ensures proven <==> StopProven(db.State(), t)
  {
    var r := db.tasks[t];
    if r.session.None? { return Case(t, r.attempts) in db.attested; }
    var sid := r.session.value;
    return sid in db.sessions && db.sessions[sid].state == Stopped && db.sessions[sid].evidence.Some?;
  }

  /** What the scan leaves behind for one of its rows. */
  ghost predicate ScannedRow(s: Db, s': Db, engine: Engine, t: TaskId) {
    t in s.tasks && t in s'.tasks && Handled(s', engine, t) && RowQuiet(s', engine, t) && ErrorKept(s, s', t)
  }

  /** What the scan of the rows leaves behind. */
  ghost predicate Scanned(s: Db, s': Db, engine: Engine, rows: seq<TaskId>, recovered: seq<TaskId>, now: Time,
                          delays: TaskId -> nat)
  {
    && s' == s.(tasks := s'.tasks, incidents := s'.incidents, holds := s'.holds)
    && s'.tasks.Keys == s.tasks.Keys
    && (forall t | t in rows :: t in s.tasks && ScannedRow(s, s', engine, t))
    && (forall t | t in s.tasks && t !in rows :: SameCase(s, s', t))
    && (forall t | t in recovered :: t in rows && TaskRecovered(s, s', engine, t, now, delays(t)))
    && (forall t | t in s.tasks && t !in recovered :: s'.tasks[t] == s.tasks[t])
    && (forall t :: t in recovered <==>
          t in rows && t in s.tasks && s.tasks[t].status == Running && StopProven(s, t) && s.tasks[t].def.handler in engine.registry)
    && ((forall t | t in rows :: RowQuiet(s, engine, t)) ==> s'.holds == s.holds && recovered == [])
  }

  lemma NothingScanned(s: Db, engine: Engine, now: Time, delays: TaskId -> nat)
    ensures Scanned(s, s, engine, [], [], now, delays)
  {
  }

  /** A scanned row is quiet: what was recovered is failed, or waits with a known handler and no incident. */
  lemma ScannedIsQuiet(s: Db, s': Db, engine: Engine, t: TaskId, recovered: bool, now: Time, delay: nat)
    requires t in s.tasks && t in s'.tasks && s.tasks[t].status in {Running, Status.Failed} && Handled(s', engine, t)
    requires if recovered then TaskRecovered(s, s', engine, t, now, delay) && s.tasks[t].def.handler in engine.registry
             else s'.tasks[t] == s.tasks[t]
    ensures RowQuiet(s', engine, t)
  {
    if recovered { RecoveredStatus(s.tasks[t], InterruptAction(engine, s.tasks[t], now, delay, s'.tasks[t].sequence)); }
    hide RowApply;
  }

  lemma RecoveredStatus(r: TaskRow, a: RowAction)
    requires RowGuard(r, a) && a.Interrupt?
    ensures RowApply(r, a).status in {Status.Failed, Retrying} && RowApply(r, a).def == r.def
    ensures RowApply(r, a).attempts == r.attempts && RowApply(r, a).session.None?
  {
  }

  /** One turn of the scan, seen from the tables. */
  ghost predicate Turn(m: Db, s': Db, engine: Engine, t: TaskId, done: bool, now: Time, delay: nat) {
    && Confined(m, s', t) && t in m.tasks && t in s'.tasks && ScannedRow(m, s', engine, t)
    && (if done then TaskRecovered(m, s', engine, t, now, delay) else s'.tasks == m.tasks)
    && (done <==> m.tasks[t].status == Running && StopProven(m, t) && m.tasks[t].def.handler in engine.registry)
    && (RowQuiet(m, engine, t) ==> s'.holds == m.holds && !done)
  }

  lemma NextRows(s: Db, m: Db, s': Db, engine: Engine, rows: seq<TaskId>, recovered: seq<TaskId>, t: TaskId, done: bool,
                 now: Time, delays: TaskId -> nat)
    requires Scanned(s, m, engine, rows, recovered, now, delays) && t !in rows && t in s.tasks
    requires Turn(m, s', engine, t, done, now, delays(t))
    ensures forall u | u in rows + [t] :: u in s.tasks && ScannedRow(s, s', engine, u)
    ensures forall u | u in s.tasks && u !in rows + [t] :: SameCase(s, s', u)
    ensures forall u | u in s.tasks && u != t :: u in m.tasks && u in s'.tasks && s'.tasks[u] == m.tasks[u]
  {
    hide StopProven, TaskRecovered, SameCase, ScannedRow, RowQuiet;
    ConfinedRows(m, s', t);
    forall u | u in s.tasks && u != t ensures u in m.tasks && SameCase(m, s', u) {
      assert u in m.tasks.Keys;
      SameElsewhere(m, s', t, u);
    }
    hide Confined;
    forall u | u in rows + [t] ensures u in s.tasks && ScannedRow(s, s', engine, u) {
      if u != t { ScannedBefore(s, m, s', engine, u); } else { ScannedLast(s, m, s', engine, t); }
    }
    forall u | u in s.tasks && u !in rows + [t] ensures SameCase(s, s', u) { SameCaseTwice(s, m, s', u); }
  }

  lemma ScannedBefore(s: Db, m: Db, s': Db, engine: Engine, t: TaskId)
    requires ScannedRow(s, m, engine, t) && SameCase(m, s', t)
    ensures ScannedRow(s, s', engine, t)
  {
    SameCaseQuiet(m, s', engine, t);
    hide Handled, RowQuiet, ErrorOpen, SessionAlive;
  }

  lemma ScannedLast(s: Db, m: Db, s': Db, engine: Engine, t: TaskId)
    requires SameCase(s, m, t) && ScannedRow(m, s', engine, t)
    ensures ScannedRow(s, s', engine, t)
  {
    SameCaseQuiet(s, m, engine, t);
    hide Handled, RowQuiet, ErrorOpen, SessionAlive;
  }

  lemma NextRecovered(s: Db, m: Db, s': Db, engine: Engine, rows: seq<TaskId>, recovered: seq<TaskId>, t: TaskId,
                      done: bool,
                      now: Time, delays: TaskId -> nat)
    requires Scanned(s, m, engine, rows, recovered, now, delays) && t !in rows && t in s.tasks
    requires Turn(m, s', engine, t, done, now, delays(t))
    requires forall u | u in s.tasks && u != t :: u in m.tasks && u in s'.tasks && s'.tasks[u] == m.tasks[u]
    ensures var all := if done then recovered + [t] else recovered;
      && (forall u | u in all :: u in rows + [t] && TaskRecovered(s, s', engine, u, now, delays(u)))
      && (forall u | u in s.tasks && u !in all :: u in s'.tasks && s'.tasks[u] == s.tasks[u])
      && (forall u :: u in all <==>
            && u in rows + [t] && u in s.tasks && s.tasks[u].status == Running && StopProven(s, u)
            && s.tasks[u].def.handler in engine.registry)
  {
    hide ScannedRow, RowQuiet, StopProven, TaskRecovered, Confined;
    assert SameCase(s, m, t) && t !in recovered;
    SameCaseQuiet(s, m, engine, t);
    hide SameCase;
    var all := if done then recovered + [t] else recovered;
    forall u | u in all ensures u in rows + [t] && TaskRecovered(s, s', engine, u, now, delays(u)) {
      if u != t { SameRecovered(s, m, s', engine, u, now, delays(u)); } else { RecoveredLater(s, m, s', engine, u, now, delays(u)); }
    }
  }

  lemma NextSteady(s: Db, m: Db, s': Db, engine: Engine, rows: seq<TaskId>, recovered: seq<TaskId>, t: TaskId,
                   done: bool,
                   now: Time, delays: TaskId -> nat)
    requires Scanned(s, m, engine, rows, recovered, now, delays) && t !in rows && t in s.tasks
    requires Turn(m, s', engine, t, done, now, delays(t))
    ensures s' == s.(tasks := s'.tasks, incidents := s'.incidents, holds := s'.holds) && s'.tasks.Keys == s.tasks.Keys
    ensures (forall u | u in rows + [t] :: RowQuiet(s, engine, u)) ==> s'.holds == s.holds && !done && recovered == []
  {
    hide ScannedRow, RowQuiet, StopProven, TaskRecovered;
    assert SameCase(s, m, t);
    SameCaseQuiet(s, m, engine, t);
    ConfinedRows(m, s', t);
    ConfinedFrames(s, m, s', t);
    hide SameCase, Confined;
    assert (forall u | u in rows + [t] :: RowQuiet(s, engine, u)) ==> forall u | u in rows :: u in rows + [t] && RowQuiet(s, engine, u);
    assert t in rows + [t];
  }

  lemma ScannedNext(s: Db, m: Db, s': Db, engine: Engine, rows: seq<TaskId>, recovered: seq<TaskId>, t: TaskId,
                    done: bool,
                    now: Time, delays: TaskId -> nat)
    requires Scanned(s, m, engine, rows, recovered, now, delays) && t !in rows && t in s.tasks
    requires Turn(m, s', engine, t, done, now, delays(t))
    ensures Scanned(s, s', engine, rows + [t], if done then recovered + [t] else recovered, now, delays)
  {
    hide ScannedRow, RowQuiet, StopProven, TaskRecovered, SameCase, Turn;
    NextRows(s, m, s', engine, rows, recovered, t, done, now, delays);
    NextRecovered(s, m, s', engine, rows, recovered, t, done, now, delays);
    NextSteady(s, m, s', engine, rows, recovered, t, done, now, delays);
  }

  lemma SameRecovered(s: Db, m: Db, s': Db, engine: Engine, t: TaskId, now: Time, delay: nat)
    requires TaskRecovered(s, m, engine, t, now, delay) && t in s'.tasks && s'.tasks[t] == m.tasks[t]
    ensures TaskRecovered(s, s', engine, t, now, delay)
  {
  }

  lemma RecoveredLater(s: Db, m: Db, s': Db, engine: Engine, t: TaskId, now: Time, delay: nat)
    requires TaskRecovered(m, s', engine, t, now, delay) && t in s.tasks && s.tasks[t] == m.tasks[t]
    ensures TaskRecovered(s, s', engine, t, now, delay)
  {
  }

  lemma ConfinedFrames(s: Db, m: Db, s': Db, t: TaskId)
    requires m == s.(tasks := m.tasks, incidents := m.incidents, holds := m.holds) && Confined(m, s', t)
    ensures s' == s.(tasks := s'.tasks, incidents := s'.incidents, holds := s'.holds)
  {
  }

  lemma NotScannedYet(s: Db, m: Db, engine: Engine, rows: seq<TaskId>, recovered: seq<TaskId>, t: TaskId, now: Time,
                      delays: TaskId -> nat)
    requires Scanned(s, m, engine, rows, recovered, now, delays) && t in s.tasks && t !in rows
    ensures t in m.tasks && m.tasks[t] == s.tasks[t]
  {
    hide ScannedRow, TaskRecovered, RowQuiet;
  }

  /** The last loop of the first transaction: every RUNNING and FAILED row is handled. */
  method ScanRows(db: Database, engine: Engine, rows: seq<TaskId>, now: Time, delays: TaskId -> nat)
    returns (recovered: seq<TaskId>)
    requires db.Valid() && (forall i, j | 0 <= i < j < |rows| :: rows[i] != rows[j])
    requires forall t | t in rows :: t in db.tasks && db.tasks[t].status in {Running, Status.Failed}
    modifies db
    ensures Scanned(old(db.State()), db.State(), engine, rows, recovered, now, delays)
    ensures db.Valid() && Reaches(old(db.State()), db.State())
  {
    hide Inv, Reaches, Scanned, Confined, Handled, TaskRecovered, RowQuiet, StopProven, ErrorKept;
    ghost var s := db.State();
    recovered := [];
    ReachesSelf(s);
    NothingScanned(s, engine, now, delays);
    assert rows[..0] == [];
    for i := 0 to |rows|
      invariant db.Valid() && Reaches(s, db.State()) && Scanned(s, db.State(), engine, rows[..i], recovered, now, delays)
    {
      var t := rows[i];
      assert t in rows && t !in rows[..i] && rows[..i + 1] == rows[..i] + [t];
      ghost var m := db.State();
      NotScannedYet(s, m, engine, rows[..i], recovered, t, now, delays);
      var done := ScanRow(db, engine, t, now, delays(t));
      ReachesTransitive(s, m, db.State());
      ConfinedRows(m, db.State(), t);
      ScannedIsQuiet(m, db.State(), engine, t, done, now, delays(t));
      if RowQuiet(m, engine, t) { QuietIsHandled(m, engine, t); }
      assert Turn(m, db.State(), engine, t, done, now, delays(t));
      ScannedNext(s, m, db.State(), engine, rows[..i], recovered, t, done, now, delays);
      if done { recovered := recovered + [t]; }
    }
    assert rows[..|rows|] == rows;
  }

  lemma QuietIsHandled(s: Db, engine: Engine, t: TaskId)
    requires t in s.tasks && s.tasks[t].status in {Running, Status.Failed} && RowQuiet(s, engine, t)
    ensures Handled(s, engine, t)
  {
  }

  // ---------------------------------------------------------------- housekeeping before the scan

  ghost function CompletedCases(s: Db): set<Case> { set c | c in s.incidents && Completed(s, c) }

  /** These incidents are resolved and their holds are gone; all else is as before. */
  ghost predicate ClosedAll(s: Db, s': Db, cases: set<Case>, resolution: Resolution) {
    && s' == s.(incidents := s'.incidents, holds := s'.holds)
    && s'.incidents.Keys == s.incidents.Keys
    && (forall c | c in s.incidents ::
          s'.incidents[c] == if c in cases then s.incidents[c].(resolution := Some(resolution)) else s.incidents[c])
    && (forall h :: h in s'.holds <==> h in s.holds && !(h.source.ByIncident? && h.source.incident in cases))
  }

  lemma ClosedOneMore(s: Db, m: Db, cases: set<Case>, c: Case, resolution: Resolution)
    requires ClosedAll(s, m, cases, resolution) && c in s.incidents
    ensures c in m.incidents && ClosedAll(s, Closed(m, c, resolution), cases + {c}, resolution)
  {
    assert c in m.incidents.Keys;
    var m' := Closed(m, c, resolution);
    assert m'.incidents == m.incidents[c := m.incidents[c].(resolution := Some(resolution))];
    assert m'.incidents.Keys == s.incidents.Keys;
  }

  /** Closing a set of open incidents, one after the other. */
  method CloseEach(db: Database, cases: set<Case>, resolution: Resolution)
    requires db.Valid() && forall c | c in cases :: IsOpen(db.State(), c) && Closable(db.State(), c, resolution)
    modifies db
    ensures ClosedAll(old(db.State()), db.State(), cases, resolution)
    ensures db.Valid() && Reaches(old(db.State()), db.State())
  {
    hide Inv, Reaches, ClosedAll, Closed;
    ghost var s := db.State();
    ghost var closed: set<Case> := {};
    var todo := cases;
    ReachesSelf(s);
    NothingClosed(s, resolution);
    while todo != {}
      invariant todo <= cases && closed == cases - todo
      invariant db.Valid() && Reaches(s, db.State()) && ClosedAll(s, db.State(), closed, resolution)
    {
      var c :| c in todo;
      ghost var m := db.State();
      StillOpen(s, m, closed, c, resolution);
      ClosedOneMore(s, m, closed, c, resolution);
      ClosedReaches(m, c, resolution);
      Close(db, c, resolution);
      ReachesTransitive(s, m, db.State());
      todo := todo - {c};
      closed := closed + {c};
    }
    assert closed == cases;
  }

  lemma NothingClosed(s: Db, resolution: Resolution)
    ensures ClosedAll(s, s, {}, resolution)
  {
  }

  lemma StillOpen(s: Db, m: Db, cases: set<Case>, c: Case, resolution: Resolution)
    requires ClosedAll(s, m, cases, resolution) && c !in cases && IsOpen(s, c) && Closable(s, c, resolution)
    ensures IsOpen(m, c) && Closable(m, c, resolution)
  {
    assert c in m.incidents.Keys;
  }

  /** An incident that waited for an attempt to stop is closed once the attempt has reported. */
  method CloseCompleted(db: Database)
    requires db.Valid()
    modifies db
    ensures ClosedAll(old(db.State()), db.State(), CompletedCases(old(db.State())), OutcomeCommitted)
    ensures db.Valid() && Reaches(old(db.State()), db.State())
  {
    hide Inv, Reaches, ClosedAll;
    ghost var s := db.State();
    var completed := set c | c in db.incidents && db.incidents[c].Open() && db.incidents[c].kind == WaitStop
      && c.task in db.tasks && db.tasks[c.task].status in {Success, Retrying} && db.tasks[c.task].attempts == c.attempt;
    assert completed == CompletedCases(s);
    CloseEach(db, completed, OutcomeCommitted);
  }

  /** What the check of the handlers does to the incident of one row: it is opened only for an unknown handler
      and closed only for a known one, and rows that do not wait are left alone. */
  ghost predicate CheckedRow(s: Db, s': Db, registry: set<string>, t: TaskId) {
    && t in s.tasks && t in s'.tasks && s'.tasks[t] == s.tasks[t] && HandlerChecked(s', registry, t)
    && var c := CurrentCase(s.tasks[t], t);
       && (s.tasks[t].status !in {Pending, Retrying} ==> SameCase(s, s', t))
       && (!Completed(s, c) ==> !Completed(s', c))
       && (s.tasks[t].def.handler in registry && IsOpen(s', c) ==> IsOpen(s, c))
       && (s.tasks[t].def.handler in registry && !HandlerIncident(s, t) ==> SameCase(s, s', t))
       && (s.tasks[t].def.handler in registry && HandlerIncident(s, t) && s.tasks[t].status in {Pending, Retrying} ==> !IsOpen(s', c))
       && (DecidedByOperator(s', c) <==> DecidedByOperator(s, c))
  }

  lemma RaisedKind(s: Db, t: TaskId, kind: IncidentKind, reason: Reason)
    requires t in s.tasks && kind != WaitStop
    ensures !Completed(Raised(s, t, kind, reason), CurrentCase(s.tasks[t], t))
  {
    if !DecidedByOperator(s, CurrentCase(s.tasks[t], t)) {
      OpenedShape(s, t, kind, reason);
      hide Opened;
    }
  }

  lemma UnknownChecked(s: Db, registry: set<string>, t: TaskId)
    requires Inv(s) && t in s.tasks && s.tasks[t].status in {Pending, Retrying} && s.tasks[t].def.handler !in registry
    ensures var reason := HandlerUnavailable(s.tasks[t].def.handler); var s' := Raised(s, t, RecoveryError, reason);
      && Reaches(s, s') && Inv(s') && Confined(s, s', t) && s'.tasks == s.tasks && CheckedRow(s, s', registry, t)
      && (HandlerChecked(s, registry, t) ==> s'.holds == s.holds)
  {
    hide Inv, Reaches, Raised, Confined, Completed;
    var reason := HandlerUnavailable(s.tasks[t].def.handler);
    RaisedReaches(s, t, RecoveryError, reason);
    RaisedConfined(s, t, RecoveryError, reason);
    RaisedKind(s, t, RecoveryError, reason);
    if HandlerChecked(s, registry, t) { RaisedAgain(s, t, RecoveryError, reason); }
  }

  lemma KnownChecked(s: Db, registry: set<string>, t: TaskId)
    requires Inv(s) && t in s.tasks && s.tasks[t].status in {Pending, Retrying} && s.tasks[t].def.handler in registry
    requires HandlerIncident(s, t)
    ensures var s' := Closed(s, CurrentCase(s.tasks[t], t), HandlerRestored);
      && Reaches(s, s') && Inv(s') && Confined(s, s', t) && s'.tasks == s.tasks && CheckedRow(s, s', registry, t)
      && !HandlerChecked(s, registry, t)
  {
    hide Inv, Reaches, Closed, Confined;
    var c := CurrentCase(s.tasks[t], t);
    ClosedReaches(s, c, HandlerRestored);
    ClosedConfined(s, t, HandlerRestored);
    ClosedFrame(s, c, HandlerRestored);
  }

  lemma LeftUnchecked(s: Db, registry: set<string>, t: TaskId)
    requires t in s.tasks
    requires s.tasks[t].status !in {Pending, Retrying} || (s.tasks[t].def.handler in registry && !HandlerIncident(s, t))
    ensures CheckedRow(s, s, registry, t) && Confined(s, s, t)
  {
  }

  /** One turn of the loop over the waiting rows. */
  method CheckHandler(db: Database, registry: set<string>, t: TaskId)
    requires db.Valid() && t in db.tasks
    modifies db
    ensures Confined(old(db.State()), db.State(), t) && db.tasks == old(db.tasks)
    ensures CheckedRow(old(db.State()), db.State(), registry, t)
    ensures HandlerChecked(old(db.State()), registry, t) ==> db.holds == old(db.holds)
    ensures var r := old(db.tasks)[t];
      (r.status == Pending || r.status == Retrying) && r.def.handler !in registry ==>
        OpensCase(old(db.State()), db.State(), t, RecoveryError, HandlerUnavailable(r.def.handler))
    ensures db.Valid() && Reaches(old(db.State()), db.State())
  {
    hide Inv, Reaches, Closed, Raised, Confined, CheckedRow, HandlerChecked, OpensCase, ClosesCase;
    ReachesSelf(db.State());
    var c, handler := Case(t, db.tasks[t].attempts), db.tasks[t].def.handler;
    if db.tasks[t].status in {Pending, Retrying} && handler !in registry {
      UnknownChecked(db.State(), registry, t);
      Raise(db, t, RecoveryError, HandlerUnavailable(handler));
    } else if db.tasks[t].status in {Pending, Retrying} && c in db.incidents && db.incidents[c].Open()
              && db.incidents[c].kind == RecoveryError && db.incidents[c].reason.HandlerUnavailable? {
      KnownChecked(db.State(), registry, t);
      Close(db, c, HandlerRestored);
    } else {
      LeftUnchecked(db.State(), registry, t);
    }
  }

  /** What the loop over the waiting rows has done so far. */
  ghost predicate Checking(s: Db, s': Db, registry: set<string>, todo: set<TaskId>) {
    && s' == s.(incidents := s'.incidents, holds := s'.holds)
    && (forall t | t in s.tasks && t !in todo :: CheckedRow(s, s', registry, t))
    && (forall t | t in s.tasks && t in todo :: SameCase(s, s', t))
    && ((forall t | t in s.tasks :: HandlerChecked(s, registry, t)) ==> s'.holds == s.holds)
  }

  lemma NothingChecked(s: Db, registry: set<string>)
    ensures Checking(s, s, registry, s.tasks.Keys)
  {
  }

  lemma CheckedMore(s: Db, m: Db, s': Db, registry: set<string>, todo: set<TaskId>, t: TaskId)
    requires Checking(s, m, registry, todo) && t in todo && t in s.tasks && Confined(m, s', t) && s'.tasks == m.tasks
    requires CheckedRow(m, s', registry, t) && (HandlerChecked(m, registry, t) ==> s'.holds == m.holds)
    ensures Checking(s, s', registry, todo - {t})
  {
    assert SameCase(s, m, t);
    CheckedAfterSame(s, m, s', registry, t);
    ConfinedFrame(m, s', t);
    hide HandlerChecked, Completed;
    forall u | u in s.tasks && u != t ensures SameCase(m, s', u) { SameElsewhere(m, s', t, u); }
    hide Confined;
    forall u | u in s.tasks && u !in todo ensures CheckedRow(s, s', registry, u) { CheckedBeforeSame(s, m, s', registry, u); }
    forall u | u in s.tasks && u in todo - {t} ensures SameCase(s, s', u) { SameCaseTwice(s, m, s', u); }
  }

  lemma CheckedAfterSame(s: Db, m: Db, s': Db, registry: set<string>, t: TaskId)
    requires SameCase(s, m, t) && CheckedRow(m, s', registry, t)
    ensures CheckedRow(s, s', registry, t) && (HandlerChecked(s, registry, t) <==> HandlerChecked(m, registry, t))
  {
  }

  lemma CheckedBeforeSame(s: Db, m: Db, s': Db, registry: set<string>, t: TaskId)
    requires CheckedRow(s, m, registry, t) && SameCase(m, s', t)
    ensures CheckedRow(s, s', registry, t)
  {
  }

  lemma ConfinedFrame(s: Db, s': Db, t: TaskId)
    requires Confined(s, s', t) && s'.tasks == s.tasks
    ensures s' == s.(incidents := s'.incidents, holds := s'.holds)
  {
  }

  /** The waiting rows, in no particular order. */
  method CheckHandlers(db: Database, registry: set<string>)
    requires db.Valid()
    modifies db
    ensures Checking(old(db.State()), db.State(), registry, {})
    ensures db.Valid() && Reaches(old(db.State()), db.State())
  {
    hide Inv, Reaches, Checking, CheckedRow, HandlerChecked, Confined;
    ghost var s := db.State();
    ReachesSelf(s);
    NothingChecked(s, registry);
    var todo := db.tasks.Keys;
    while todo != {}
      invariant todo <= db.tasks.Keys && db.tasks == s.tasks
      invariant db.Valid() && Reaches(s, db.State()) && Checking(s, db.State(), registry, todo)
    {
      var t :| t in todo;
      ghost var m := db.State();
      CheckHandler(db, registry, t);
      ReachesTransitive(s, m, db.State());
      CheckedMore(s, m, db.State(), registry, todo, t);
      todo := todo - {t};
    }
  }
}
