/** The two scanning transactions of a coordinator's tick. They may be repeated, after a crash or by another
    process: once nothing is owed to any row, a further scan changes no task, no session and no hold. */
module Tick {
  import opened Types
  import opened Rows
  import opened Protocol
  import opened Invariants
  import opened Reachable
  import opened Tables
  import opened RowRecovery
  import opened Incidents
  import opened Coordinator
  import WorkerRegistry
  import RowLaws

  /** By these deadlines no session has to be suspected or fenced, and nothing is owed to any row. */
  ghost predicate Quiet(s: Db, engine: Engine, fenceAfter: nat, now: Time) {
    && (forall sid | sid in s.sessions :: !WorkerRegistry.Overdue(s.sessions[sid], now) && !FenceDue(s.sessions[sid], fenceAfter, now))
    && forall t | t in s.tasks :: RowQuiet(s, engine, t)
  }

  function Watched(row: SessionRow, fenceAfter: nat, now: Time): SessionRow {
    FencedIfDue(WorkerRegistry.Suspected(row, now), fenceAfter, now)
  }

  /** A waiting task with an unknown handler is on hold for it if and only if no operator decided its last attempt. */
  ghost predicate HeldForHandler(s: Db, s': Db, registry: set<string>, t: TaskId)
    requires t in s.tasks
  {
    var c := CurrentCase(s.tasks[t], t);
    s.tasks[t].status in {Pending, Retrying} && s.tasks[t].def.handler !in registry ==>
      (Hold(TaskScope(t), ByIncident(c)) in s'.holds <==> !DecidedByOperator(s, c))
  }

  /** The error of a recovery that no scan takes away: the attempt has succeeded after all, or it waits for a retry
      and the error is not worded as that of a waiting task. */
  ghost predicate BeyondScans(s: Db, t: TaskId)
    requires t in s.tasks
  {
    || s.tasks[t].status == Success
    || (s.tasks[t].status in {Pending, Retrying} && !HandlerIncident(s, t))
  }

  /** Where the handler is known, the open error of a recovery survives exactly if it is beyond the scans, or the
      session of the attempt is alive. */
  ghost predicate ErrorsHealed(s: Db, s': Db, registry: set<string>, t: TaskId)
    requires t in s.tasks
  {
    t in s'.tasks && s.tasks[t].def.handler in registry && ErrorOpen(s, t) ==>
      (ErrorOpen(s', t) <==> BeyondScans(s, t) || (s.tasks[t].status == Running && SessionAlive(s', t)))
  }

  /** What the first transaction does to sessions, rows and incidents. */
  ghost predicate Ticked(s: Db, s': Db, engine: Engine, fenceAfter: nat, now: Time, delays: TaskId -> nat,
                         recovered: seq<TaskId>)
  {
    && s' == s.(sessions := s'.sessions, tasks := s'.tasks, incidents := s'.incidents, holds := s'.holds)
    && s'.sessions == (map sid | sid in s.sessions :: Watched(s.sessions[sid], fenceAfter, now))
    && s'.tasks.Keys == s.tasks.Keys
    && (forall t :: t in recovered <==>
          t in s.tasks && s.tasks[t].status == Running && StopProven(s, t) && s.tasks[t].def.handler in engine.registry)
    && (forall t | t in s.tasks ::
          if t in recovered then TaskRecovered(s, s', engine, t, now, delays(t)) else s'.tasks[t] == s.tasks[t])
    && (forall t | t in s.tasks && s.tasks[t].status in {Running, Status.Failed} :: Handled(s', engine, t))
    && (forall t | t in s.tasks :: HandlerChecked(s', engine.registry, t) && HeldForHandler(s, s', engine.registry, t))
    && (forall t | t in s.tasks :: ErrorsHealed(s, s', engine.registry, t))
    && (forall c | Completed(s, c) && s.tasks[c.task].def.handler in engine.registry :: !IsOpen(s', c))
  }

  // ---------------------------------------------------------------- the same, from the tables alone

  /** A session whose heartbeat is overdue is SUSPECT, or FENCED if the grace period is over as well; so is a session
      that was suspect before, unless it has been fenced; the others are as they were. */
  ghost predicate SessionTicked(row: SessionRow, row': SessionRow, fenceAfter: nat, now: Time) {
    var silent := row.state == Suspect || ((row.state == ActiveSession || row.state == Stopping) && row.timeout < now - row.lastHeartbeat);
    && row' == row.(state := row'.state)
    && (row'.state == Fenced <==> row.state == Fenced || (silent && row.timeout + fenceAfter <= now - row.lastHeartbeat))
    && (row'.state == Suspect <==> silent && now - row.lastHeartbeat < row.timeout + fenceAfter)
    && (row'.state != Fenced && row'.state != Suspect ==> row' == row)
  }

  ghost predicate OpenFor(s: Db, c: Case, kind: IncidentKind) {
    c in s.incidents && s.incidents[c].resolution == None && s.incidents[c].kind == kind
  }

  ghost predicate DecidedFor(s: Db, c: Case) {
    c in s.incidents && s.incidents[c].resolution.Some? && s.incidents[c].resolution.value.Decided?
  }

  /** What a tick owes to a task row, and does. */
  ghost predicate TaskTicked(s: Db, s': Db, engine: Engine, t: TaskId, now: Time, delay: nat)
    requires t in s.tasks
  {
    var r, c := s.tasks[t], Case(t, s.tasks[t].attempts);
    && t in s'.tasks
    && var r' := s'.tasks[t];
       && (r.status == Running && EndKnown(s, t) && r.def.handler in engine.registry ==>
             && RowLaws.InterruptedTo(r, r', r.def.handler in engine.external, now, delay)
             && (r'.status == Failed ==> DecidedFor(s', c) || OpenFor(s', c, TaskFailure))
             && (r'.status == Retrying ==> !(c in s'.incidents && s'.incidents[c].resolution == None)))
       && (!(r.status == Running && EndKnown(s, t) && r.def.handler in engine.registry) ==> r' == r)
       && (r.status == Failed ==> DecidedFor(s', c) || OpenFor(s', c, TaskFailure))
       && (r.status == Running && EndKnown(s, t) && r.def.handler !in engine.registry ==>
             OpenFor(s', c, RecoveryError) && s'.incidents[c].reason == Undecodable(r.def.handler))
       && (r.status == Running && !EndKnown(s, t) ==> (OpenFor(s', c, WaitStop) <==> !AtWork(s', t)))
       && ((r.status == Pending || r.status == Retrying) && r.def.handler !in engine.registry ==>
             DecidedFor(s', c) || (OpenFor(s', c, RecoveryError) && s'.incidents[c].reason.HandlerUnavailable?))
       && ((r.status == Pending || r.status == Retrying) && r.def.handler in engine.registry ==>
             !(OpenFor(s', c, RecoveryError) && s'.incidents[c].reason.HandlerUnavailable?))
       && (r'.status == Success || r'.status == Retrying ==> !OpenFor(s', c, WaitStop))
  }

  lemma SessionExactly(row: SessionRow, fenceAfter: nat, now: Time)
    ensures SessionTicked(row, Watched(row, fenceAfter, now), fenceAfter, now)
  {
  }

  lemma SessionsExactly(s: Db, s': Db, engine: Engine, fenceAfter: nat, now: Time, delays: TaskId -> nat,
                        recovered: seq<TaskId>)
    requires Ticked(s, s', engine, fenceAfter, now, delays, recovered)
    ensures forall sid | sid in s.sessions :: sid in s'.sessions && SessionTicked(s.sessions[sid], s'.sessions[sid], fenceAfter, now)
  {
    hide Watched, TaskRecovered, Handled, HandlerChecked, HeldForHandler, ErrorsHealed, SessionTicked, StopProven;
    forall sid | sid in s.sessions ensures SessionTicked(s.sessions[sid], Watched(s.sessions[sid], fenceAfter, now), fenceAfter, now) {
      SessionExactly(s.sessions[sid], fenceAfter, now);
    }
  }

  lemma CaseExactly(s: Db, c: Case, kind: IncidentKind)
    ensures OpenAs(s, c, kind) <==> OpenFor(s, c, kind)
    ensures DecidedByOperator(s, c) <==> DecidedFor(s, c)
  {
  }

  lemma StillKnown(s: Db, s': Db, engine: Engine, fenceAfter: nat, now: Time, delays: TaskId -> nat,
                   recovered: seq<TaskId>, t: TaskId)
    requires Ticked(s, s', engine, fenceAfter, now, delays, recovered) && t in s.tasks
    ensures t in s'.tasks && (s'.tasks[t] == s.tasks[t] ==> (StopProven(s', t) <==> StopProven(s, t)))
  {
    hide Watched, TaskRecovered, Handled, HandlerChecked, HeldForHandler, ErrorsHealed;
    assert t in s'.tasks.Keys;
    if s.tasks[t].session.Some? && s.tasks[t].session.value in s.sessions {
      WatchedIsQuiet(s.sessions[s.tasks[t].session.value], fenceAfter, now);
    }
  }

  lemma RowsTicked(s: Db, s': Db, engine: Engine, fenceAfter: nat, now: Time, delays: TaskId -> nat,
                   recovered: seq<TaskId>, t: TaskId)
    requires Ticked(s, s', engine, fenceAfter, now, delays, recovered) && t in s.tasks
    ensures t in s'.tasks && HandlerChecked(s', engine.registry, t)
    ensures s.tasks[t].status in {Running, Status.Failed} ==> Handled(s', engine, t)
    ensures if s.tasks[t].status == Running && StopProven(s, t) && s.tasks[t].def.handler in engine.registry
            then RowRecovered(s.tasks[t], s'.tasks[t], engine, now, delays(t)) else s'.tasks[t] == s.tasks[t]
  {
    hide Watched, RowRecovered, StopProven, Handled, HandlerChecked, HeldForHandler, ErrorsHealed;
    assert t in s'.tasks.Keys;
  }

  lemma NotWaiting(s: Db, engine: Engine, fenceAfter: nat, now: Time, t: TaskId)
    requires Quiet(s, engine, fenceAfter, now)
    ensures t in s.tasks && (s.tasks[t].status == Success || s.tasks[t].status == Retrying) ==>
              !OpenFor(s, Case(t, s.tasks[t].attempts), WaitStop)
  {
    hide Handled, HandlerChecked, FenceDue, WorkerRegistry.Overdue;
  }

  /** A tick does to each task what the tables say. */
  lemma TaskExactly(s: Db, s': Db, engine: Engine, fenceAfter: nat, now: Time, delays: TaskId -> nat,
                    recovered: seq<TaskId>, t: TaskId)
    requires Ticked(s, s', engine, fenceAfter, now, delays, recovered) && t in s.tasks && Quiet(s', engine, fenceAfter, now)
    ensures TaskTicked(s, s', engine, t, now, delays(t))
  {
    NotWaiting(s', engine, fenceAfter, now, t);
    RowsTicked(s, s', engine, fenceAfter, now, delays, recovered, t);
    StillKnown(s, s', engine, fenceAfter, now, delays, recovered, t);
    KnownExactly(s, t);
    KnownExactly(s', t);
    hide Ticked, Quiet, StopProven, SessionAlive, EndKnown, AtWork, RowLaws.InterruptedTo, RowApply;
  }

  // ---------------------------------------------------------------- through the sessions

  lemma WatchedIsQuiet(row: SessionRow, fenceAfter: nat, now: Time)
    ensures !WorkerRegistry.Overdue(Watched(row, fenceAfter, now), now) && !FenceDue(Watched(row, fenceAfter, now), fenceAfter, now)
    ensures !WorkerRegistry.Overdue(row, now) && !FenceDue(row, fenceAfter, now) ==> Watched(row, fenceAfter, now) == row
    ensures row.state == Stopped || Watched(row, fenceAfter, now).state == Stopped ==> Watched(row, fenceAfter, now) == row
  {
  }

  lemma SessionsWatched(s: Db, m: Db, fenceAfter: nat, now: Time)
    requires m == s.(sessions := map sid | sid in s.sessions :: Watched(s.sessions[sid], fenceAfter, now))
    ensures forall t | t in s.tasks :: StopProven(m, t) <==> StopProven(s, t)
    ensures CompletedCases(m) == CompletedCases(s)
    ensures forall sid | sid in m.sessions ::
              !WorkerRegistry.Overdue(m.sessions[sid], now) && !FenceDue(m.sessions[sid], fenceAfter, now)
    ensures (forall sid | sid in s.sessions ::
               !WorkerRegistry.Overdue(s.sessions[sid], now) && !FenceDue(s.sessions[sid], fenceAfter, now))
              ==> m == s
  {
    forall sid | sid in s.sessions
      ensures !WorkerRegistry.Overdue(m.sessions[sid], now) && !FenceDue(m.sessions[sid], fenceAfter, now)
      ensures !WorkerRegistry.Overdue(s.sessions[sid], now) && !FenceDue(s.sessions[sid], fenceAfter, now) ==>
                m.sessions[sid] == s.sessions[sid]
      ensures s.sessions[sid].state == Stopped || m.sessions[sid].state == Stopped ==> m.sessions[sid] == s.sessions[sid]
    {
      WatchedIsQuiet(s.sessions[sid], fenceAfter, now);
    }
    hide Watched;
    if forall sid | sid in s.sessions :: !WorkerRegistry.Overdue(s.sessions[sid], now) && !FenceDue(s.sessions[sid], fenceAfter, now) {
      assert m.sessions == s.sessions;
    }
  }

  // ---------------------------------------------------------------- through the closed incidents

  lemma ClosedRow(s: Db, m: Db, t: TaskId)
    requires ClosedAll(s, m, CompletedCases(s), OutcomeCommitted) && t in s.tasks
    ensures m.tasks == s.tasks && !Completed(m, CurrentCase(s.tasks[t], t)) && (StopProven(m, t) <==> StopProven(s, t))
    ensures Completed(s, CurrentCase(s.tasks[t], t)) ==> !IsOpen(m, CurrentCase(s.tasks[t], t))
  {
    var c := CurrentCase(s.tasks[t], t);
    assert c in m.incidents.Keys <==> c in s.incidents.Keys;
  }

  lemma CompletedAreCurrent(s: Db)
    ensures forall c | c in CompletedCases(s) :: c.task in s.tasks && c == CurrentCase(s.tasks[c.task], c.task) && Completed(s, c)
  {
  }

  lemma NothingCompleted(s: Db, m: Db)
    requires ClosedAll(s, m, CompletedCases(s), OutcomeCommitted) && forall t | t in s.tasks :: !Completed(s, CurrentCase(s.tasks[t], t))
    ensures m == s
  {
    CompletedAreCurrent(s);
    assert m.incidents == s.incidents && m.holds == s.holds;
  }

  // ---------------------------------------------------------------- putting the phases together

  /** One row, from the closing of completed incidents to the end of the scan. */
  lemma RowTicked(m2: Db, m3: Db, m4: Db, s': Db, engine: Engine, rows: seq<TaskId>, recovered: seq<TaskId>,
                  now: Time, delays: TaskId -> nat, t: TaskId)
    requires ClosedAll(m2, m3, CompletedCases(m2), OutcomeCommitted) && Checking(m3, m4, engine.registry, {})
    requires Scanned(m4, s', engine, rows, recovered, now, delays)
    requires forall u :: u in rows <==> u in m4.tasks && m4.tasks[u].status in {Running, Status.Failed}
    requires t in m2.tasks
    ensures t in m4.tasks && t in s'.tasks && m4.tasks[t] == m2.tasks[t] && RowQuiet(s', engine, t)
    ensures StopProven(m4, t) <==> StopProven(m2, t)
    ensures var c := CurrentCase(m2.tasks[t], t);
      Completed(m2, c) && m2.tasks[t].def.handler in engine.registry ==> !IsOpen(s', c)
  {
    hide ClosedAll, Checking, Scanned, StopProven, IsOpen, SameCase, RowQuiet, HandlerChecked;
    ClosedRow(m2, m3, t);
    CheckedThrough(m3, m4, engine.registry, t);
    if t in rows {
      ScannedInside(m4, s', engine, rows, recovered, now, delays, t);
    } else {
      ScannedOutside(m4, s', engine, rows, recovered, now, delays, t);
      SameCaseQuiet(m4, s', engine, t);
      CheckedIsQuiet(m4, engine, t);
    }
  }

  lemma CheckedThrough(m: Db, m': Db, registry: set<string>, t: TaskId)
    requires Checking(m, m', registry, {}) && t in m.tasks
    ensures t in m'.tasks && m'.tasks[t] == m.tasks[t] && (StopProven(m', t) <==> StopProven(m, t))
    ensures HandlerChecked(m', registry, t)
    ensures var c := CurrentCase(m.tasks[t], t);
      (!Completed(m, c) ==> !Completed(m', c)) && (m.tasks[t].def.handler in registry && IsOpen(m', c) ==> IsOpen(m, c))
  {
    assert CheckedRow(m, m', registry, t);
    hide HandlerChecked, Completed, HandlerIncident;
  }

  lemma CheckedIsQuiet(s: Db, engine: Engine, t: TaskId)
    requires t in s.tasks && s.tasks[t].status !in {Running, Status.Failed} && HandlerChecked(s, engine.registry, t)
    requires !Completed(s, CurrentCase(s.tasks[t], t))
    ensures RowQuiet(s, engine, t)
  {
  }

  lemma ScannedInside(m: Db, s': Db, engine: Engine, rows: seq<TaskId>, recovered: seq<TaskId>, now: Time,
                      delays: TaskId -> nat, t: TaskId)
    requires Scanned(m, s', engine, rows, recovered, now, delays) && t in rows
    ensures t in m.tasks && t in s'.tasks && RowQuiet(s', engine, t) && Handled(s', engine, t)
  {
    hide Handled, TaskRecovered, RowQuiet, StopProven, SameCase, ErrorKept;
  }

  lemma ScannedOutside(m: Db, s': Db, engine: Engine, rows: seq<TaskId>, recovered: seq<TaskId>, now: Time,
                       delays: TaskId -> nat, t: TaskId)
    requires Scanned(m, s', engine, rows, recovered, now, delays) && t in m.tasks && t !in rows
    ensures t in s'.tasks && s'.tasks[t] == m.tasks[t] && SameCase(m, s', t)
  {
    hide TaskRecovered, ScannedRow, RowQuiet, StopProven;
    assert SameCase(m, s', t);
    hide Scanned;
  }

  lemma PhasesRows(s: Db, m2: Db, m3: Db, m4: Db, s': Db, engine: Engine, rows: seq<TaskId>, recovered: seq<TaskId>,
                   now: Time, delays: TaskId -> nat)
    requires m2 == s.(sessions := m2.sessions) && (forall t | t in s.tasks :: StopProven(m2, t) <==> StopProven(s, t))
    requires ClosedAll(m2, m3, CompletedCases(m2), OutcomeCommitted) && Checking(m3, m4, engine.registry, {})
    requires Scanned(m4, s', engine, rows, recovered, now, delays)
    requires forall u :: u in rows <==> u in m4.tasks && m4.tasks[u].status in {Running, Status.Failed}
    ensures forall t | t in s.tasks ::
              t in s'.tasks && t in m4.tasks && RowQuiet(s', engine, t) && (StopProven(m4, t) <==> StopProven(s, t))
    ensures forall c | Completed(s, c) && s.tasks[c.task].def.handler in engine.registry :: !IsOpen(s', c)
    ensures forall t | t in s.tasks && s.tasks[t].status in {Running, Status.Failed} :: t in s'.tasks && Handled(s', engine, t)
  {
    assert forall c | Completed(s, c) :: c.task in s.tasks;
    hide StopProven, ClosedAll, Checking, Handled, HandlerChecked, Completed, RowQuiet, Scanned;
    forall t | t in s.tasks
      ensures t in s'.tasks && t in m4.tasks && RowQuiet(s', engine, t) && (StopProven(m4, t) <==> StopProven(s, t))
      ensures m4.tasks[t] == s.tasks[t]
    {
      RowTicked(m2, m3, m4, s', engine, rows, recovered, now, delays, t);
    }
    forall c | Completed(s, c) && s.tasks[c.task].def.handler in engine.registry ensures !IsOpen(s', c) {
      CompletedThrough(s, m2, c);
      RowTicked(m2, m3, m4, s', engine, rows, recovered, now, delays, c.task);
    }
    forall t | t in s.tasks && s.tasks[t].status in {Running, Status.Failed} ensures t in s'.tasks && Handled(s', engine, t) {
      ScannedInside(m4, s', engine, rows, recovered, now, delays, t);
    }
  }

  // ---------------------------------------------------------------- the errors of recoveries

  lemma ClosedError(m2: Db, m3: Db, t: TaskId)
    requires ClosedAll(m2, m3, CompletedCases(m2), OutcomeCommitted) && t in m2.tasks
    ensures var c := CurrentCase(m2.tasks[t], t);
      && t in m3.tasks && m3.tasks[t] == m2.tasks[t] && (DecidedByOperator(m3, c) <==> DecidedByOperator(m2, c))
      && (ErrorOpen(m2, t) ==> ErrorOpen(m3, t) && (HandlerIncident(m3, t) <==> HandlerIncident(m2, t)))
  {
    var c := CurrentCase(m2.tasks[t], t);
    assert c in m3.incidents.Keys <==> c in m2.incidents.Keys;
  }

  /** The scan of the row of a running or failed attempt. */
  lemma ScanError(m: Db, s': Db, engine: Engine, rows: seq<TaskId>, recovered: seq<TaskId>, now: Time,
                  delays: TaskId -> nat, t: TaskId)
    requires Scanned(m, s', engine, rows, recovered, now, delays) && t in rows && m.tasks[t].status in {Running, Status.Failed}
    requires m.tasks[t].def.handler in engine.registry
    ensures t in s'.tasks
    ensures ErrorOpen(s', t) <==> ErrorOpen(m, t) && m.tasks[t].status == Running && SessionAlive(s', t)
  {
    assert ScannedRow(m, s', engine, t);
    hide RowQuiet, SameCase;
    if t in recovered {
      assert TaskRecovered(m, s', engine, t, now, delays(t));
      RecoveredStatus(m.tasks[t], InterruptAction(engine, m.tasks[t], now, delays(t), s'.tasks[t].sequence));
      hide RowApply, StopProven;
    } else {
      hide RowApply, StopProven, TaskRecovered;
    }
  }

  /** One row, from the beginning of the tick to its scan. */
  lemma BeforeScan(s: Db, m2: Db, m3: Db, m4: Db, registry: set<string>, t: TaskId)
    requires m2 == s.(sessions := m2.sessions) && t in s.tasks
    requires ClosedAll(m2, m3, CompletedCases(m2), OutcomeCommitted) && Checking(m3, m4, registry, {})
    ensures t in m4.tasks && m4.tasks[t] == s.tasks[t]
    ensures s.tasks[t].status in {Pending, Retrying} ==>
              (DecidedByOperator(m4, CurrentCase(s.tasks[t], t)) <==> DecidedByOperator(s, CurrentCase(s.tasks[t], t)))
    ensures s.tasks[t].def.handler in registry && ErrorOpen(s, t) ==>
              (ErrorOpen(m4, t) <==> !(s.tasks[t].status in {Pending, Retrying} && HandlerIncident(s, t)))
  {
    ClosedError(m2, m3, t);
    assert CheckedRow(m3, m4, registry, t);
    hide ClosedAll, Checking, HandlerChecked, Completed;
  }

  lemma ErrorTicked(s: Db, m4: Db, s': Db, engine: Engine, rows: seq<TaskId>, recovered: seq<TaskId>,
                    now: Time, delays: TaskId -> nat, t: TaskId)
    requires Scanned(m4, s', engine, rows, recovered, now, delays)
    requires forall u :: u in rows <==> u in m4.tasks && m4.tasks[u].status in {Running, Status.Failed}
    requires t in s.tasks && t in m4.tasks && m4.tasks[t] == s.tasks[t]
    requires s.tasks[t].status in {Pending, Retrying} ==>
               (DecidedByOperator(m4, CurrentCase(s.tasks[t], t)) <==> DecidedByOperator(s, CurrentCase(s.tasks[t], t)))
    requires s.tasks[t].def.handler in engine.registry && ErrorOpen(s, t) ==>
               (ErrorOpen(m4, t) <==> !(s.tasks[t].status in {Pending, Retrying} && HandlerIncident(s, t)))
    ensures ErrorsHealed(s, s', engine.registry, t)
    ensures s.tasks[t].status in {Pending, Retrying} ==>
              t in s'.tasks && s'.tasks[t] == s.tasks[t]
              && (DecidedByOperator(s', CurrentCase(s.tasks[t], t)) <==> DecidedByOperator(s, CurrentCase(s.tasks[t], t)))
  {
    hide Scanned, HandlerIncident, DecidedByOperator, ErrorOpen, SessionAlive;
    if t in rows {
      if s.tasks[t].def.handler in engine.registry { ScanError(m4, s', engine, rows, recovered, now, delays, t); }
    } else {
      OutsideScan(m4, s', engine, rows, recovered, now, delays, t);
    }
  }

  lemma OutsideScan(m: Db, s': Db, engine: Engine, rows: seq<TaskId>, recovered: seq<TaskId>, now: Time,
                    delays: TaskId -> nat, t: TaskId)
    requires Scanned(m, s', engine, rows, recovered, now, delays) && t in m.tasks && t !in rows
    ensures t in s'.tasks && s'.tasks[t] == m.tasks[t] && (ErrorOpen(s', t) <==> ErrorOpen(m, t))
    ensures DecidedByOperator(s', CurrentCase(m.tasks[t], t)) <==> DecidedByOperator(m, CurrentCase(m.tasks[t], t))
  {
    hide Scanned;
    ScannedOutside(m, s', engine, rows, recovered, now, delays, t);
  }

  /** In a valid state an incident holds its task exactly as long as it is open. */
  lemma HoldsWhileOpen(s: Db, c: Case)
    requires Inv(s)
    ensures Hold(TaskScope(c.task), ByIncident(c)) in s.holds <==> IsOpen(s, c)
  {
    hide RowsOk, SessionsOk, CallsOk, FlowOk, BudgetsOk;
    if c in s.incidents { assert IncidentOk(c, s.incidents[c], s.holds, s.tasks, s.nodes); }
    var h := Hold(TaskScope(c.task), ByIncident(c));
    if h in s.holds { assert HoldOk(h, s.incidents); }
  }

  lemma HeldTicked(s: Db, s': Db, registry: set<string>, t: TaskId)
    requires Inv(s') && t in s.tasks && t in s'.tasks && HandlerChecked(s', registry, t)
    requires s.tasks[t].status in {Pending, Retrying} ==>
               s'.tasks[t] == s.tasks[t]
               && (DecidedByOperator(s', CurrentCase(s.tasks[t], t)) <==> DecidedByOperator(s, CurrentCase(s.tasks[t], t)))
    ensures HeldForHandler(s, s', registry, t)
  {
    hide Inv;
    HoldsWhileOpen(s', CurrentCase(s.tasks[t], t));
  }

  lemma PhasesTick(s: Db, m2: Db, m3: Db, m4: Db, s': Db, engine: Engine, fenceAfter: nat, rows: seq<TaskId>,
                   recovered: seq<TaskId>,
                   now: Time, delays: TaskId -> nat)
    requires m2 == s.(sessions := map sid | sid in s.sessions :: Watched(s.sessions[sid], fenceAfter, now))
    requires ClosedAll(m2, m3, CompletedCases(m2), OutcomeCommitted) && Checking(m3, m4, engine.registry, {})
    requires Scanned(m4, s', engine, rows, recovered, now, delays)
    requires forall u :: u in rows <==> u in m4.tasks && m4.tasks[u].status in {Running, Status.Failed}
    requires Inv(s')
    ensures Ticked(s, s', engine, fenceAfter, now, delays, recovered) && Quiet(s', engine, fenceAfter, now)
  {
    hide Inv, SameCase, ErrorsHealed, HeldForHandler, Watched, StopProven, ClosedAll, Checking, Scanned,
      WorkerRegistry.Overdue, FenceDue, Handled, HandlerChecked, Completed, TaskRecovered, RowQuiet;
    SessionsWatched(s, m2, fenceAfter, now);
    TickFrames(m2, m3, m4, s', engine, rows, recovered, now, delays);
    PhasesRows(s, m2, m3, m4, s', engine, rows, recovered, now, delays);
    RecoveredThrough(s, m4, s', engine, rows, recovered, now, delays);
    forall t | t in s.tasks
      ensures HandlerChecked(s', engine.registry, t) && HeldForHandler(s, s', engine.registry, t)
      ensures ErrorsHealed(s, s', engine.registry, t)
    {
      QuietIsChecked(s', engine, t);
      BeforeScan(s, m2, m3, m4, engine.registry, t);
      ErrorTicked(s, m4, s', engine, rows, recovered, now, delays, t);
      HeldTicked(s, s', engine.registry, t);
    }
  }

  lemma QuietIsChecked(s: Db, engine: Engine, t: TaskId)
    requires t in s.tasks && RowQuiet(s, engine, t)
    ensures HandlerChecked(s, engine.registry, t) && !Completed(s, CurrentCase(s.tasks[t], t))
  {
  }

  lemma CompletedThrough(s: Db, m: Db, c: Case)
    requires Completed(s, c) && m == s.(sessions := m.sessions)
    ensures c.task in m.tasks && Completed(m, c) && c == CurrentCase(m.tasks[c.task], c.task)
  {
  }

  lemma TickFrames(m2: Db, m3: Db, m4: Db, s': Db, engine: Engine, rows: seq<TaskId>, recovered: seq<TaskId>,
                   now: Time, delays: TaskId -> nat)
    requires ClosedAll(m2, m3, CompletedCases(m2), OutcomeCommitted) && Checking(m3, m4, engine.registry, {})
    requires Scanned(m4, s', engine, rows, recovered, now, delays)
    ensures m4.tasks == m2.tasks && s'.tasks.Keys == m2.tasks.Keys
    ensures s' == m2.(tasks := s'.tasks, incidents := s'.incidents, holds := s'.holds)
  {
    hide Handled, TaskRecovered, RowQuiet, CheckedRow, HandlerChecked, SameCase;
  }

  lemma RecoveredThrough(s: Db, m: Db, s': Db, engine: Engine, rows: seq<TaskId>, recovered: seq<TaskId>, now: Time,
                         delays: TaskId -> nat)
    requires Scanned(m, s', engine, rows, recovered, now, delays) && m.tasks == s.tasks
    requires forall u :: u in rows <==> u in m.tasks && m.tasks[u].status in {Running, Status.Failed}
    requires forall t | t in s.tasks :: StopProven(m, t) <==> StopProven(s, t)
    ensures s'.tasks.Keys == s.tasks.Keys
    ensures forall t :: t in recovered <==>
              t in s.tasks && s.tasks[t].status == Running && StopProven(s, t) && s.tasks[t].def.handler in engine.registry
    ensures forall t | t in s.tasks ::
              if t in recovered then TaskRecovered(s, s', engine, t, now, delays(t)) else s'.tasks[t] == s.tasks[t]
  {
    hide StopProven, Handled, RowQuiet, SameCase;
    forall t | t in recovered ensures TaskRecovered(s, s', engine, t, now, delays(t)) {
      RecoveredLater(s, m, s', engine, t, now, delays(t));
    }
    hide TaskRecovered;
  }

  /** From a quiet state the whole transaction changes no task, no session and no hold. */
  lemma QuietStays(s: Db, m2: Db, m3: Db, m4: Db, s': Db, engine: Engine, fenceAfter: nat, rows: seq<TaskId>,
                   recovered: seq<TaskId>,
                   now: Time, delays: TaskId -> nat)
    requires Quiet(s, engine, fenceAfter, now)
    requires m2 == s.(sessions := map sid | sid in s.sessions :: Watched(s.sessions[sid], fenceAfter, now))
    requires ClosedAll(m2, m3, CompletedCases(m2), OutcomeCommitted) && Checking(m3, m4, engine.registry, {})
    requires Scanned(m4, s', engine, rows, recovered, now, delays)
    requires forall u :: u in rows <==> u in m4.tasks && m4.tasks[u].status in {Running, Status.Failed}
    ensures s'.tasks == s.tasks && s'.sessions == s.sessions && s'.holds == s.holds && recovered == []
  {
    hide Watched, Handled, TaskRecovered, WorkerRegistry.Overdue, FenceDue, ClosedAll, Checking, Scanned, Completed,
      HandlerChecked, RowQuiet;
    SessionsWatched(s, m2, fenceAfter, now);
    assert m2 == s;
    forall t | t in s.tasks ensures !Completed(s, CurrentCase(s.tasks[t], t)) && HandlerChecked(s, engine.registry, t) {
      QuietIsChecked(s, engine, t);
    }
    NothingCompleted(s, m3);
    QuietChecked(s, m4, engine.registry);
    forall t | t in rows ensures t in m4.tasks && RowQuiet(m4, engine, t) { QuietBeforeScan(s, m4, engine, t); }
    QuietScanned(m4, s', engine, rows, recovered, now, delays);
  }

  lemma QuietChecked(s: Db, m: Db, registry: set<string>)
    requires Checking(s, m, registry, {}) && forall t | t in s.tasks :: HandlerChecked(s, registry, t)
    ensures m == s.(incidents := m.incidents) && m.holds == s.holds
  {
    hide HandlerChecked, CheckedRow, SameCase;
  }

  lemma QuietBeforeScan(s: Db, m: Db, engine: Engine, t: TaskId)
    requires Checking(s, m, engine.registry, {}) && t in s.tasks && RowQuiet(s, engine, t)
    requires s.tasks[t].status in {Running, Status.Failed}
    ensures t in m.tasks && RowQuiet(m, engine, t)
  {
    assert CheckedRow(s, m, engine.registry, t);
    hide Checking, HandlerChecked, Completed, HandlerIncident, RowQuiet, SameCase;
    SameCaseQuiet(s, m, engine, t);
  }

  lemma QuietScanned(m: Db, s': Db, engine: Engine, rows: seq<TaskId>, recovered: seq<TaskId>, now: Time,
                     delays: TaskId -> nat)
    requires Scanned(m, s', engine, rows, recovered, now, delays) && forall t | t in rows :: t in m.tasks && RowQuiet(m, engine, t)
    ensures s'.tasks == m.tasks && s'.sessions == m.sessions && s'.holds == m.holds && recovered == []
  {
    hide ScannedRow, TaskRecovered, RowQuiet, SameCase, StopProven;
  }

  // ---------------------------------------------------------------- the transactions

  function ScannedRows(tasks: map<TaskId, TaskRow>): set<TaskId> {
    set t | t in tasks && tasks[t].status in {Running, Status.Failed}
  }

  /** The sessions of the first transaction: suspicion, then fencing. */
  method WatchSessions(db: Database, fenceAfter: nat, now: Time)
    requires db.Valid()
    modifies db
    ensures db.State() == old(db.State()).(
              sessions := map sid | sid in old(db.sessions) :: Watched(old(db.sessions)[sid], fenceAfter, now))
    ensures db.Valid() && Reaches(old(db.State()), db.State())
  {
    hide Inv, Reaches;
    ghost var s := db.State();
    var overdue := WorkerRegistry.DetectOverdue(db, now);
    ghost var m := db.State();
    FenceSuspects(db, fenceAfter, now);
    assert db.sessions == map sid | sid in s.sessions :: Watched(s.sessions[sid], fenceAfter, now);
    ReachesTransitive(s, m, db.State());
    ReachesInv(s, db.State());
  }

  /** The first transaction of `tick`. Sessions are suspected and fenced by their deadlines, incidents of attempts that
      have committed are closed, waiting tasks are held or released by their handlers, and every RUNNING or FAILED row
      is handled: exactly the attempts with proven stop and known handler are recovered, and after the scan a failure
      has an open incident if and only if no operator decided that attempt. A repetition by the same deadlines finds
      nothing to do. */
  method FirstTransaction(db: Database, engine: Engine, fenceAfter: nat, now: Time, delays: TaskId -> nat)
    returns (recovered: seq<TaskId>)
    requires db.Valid()
    modifies db
    ensures Ticked(old(db.State()), db.State(), engine, fenceAfter, now, delays, recovered)
    ensures forall t | t in db.tasks && db.tasks[t].status == Failed && old(db.tasks)[t].status in {Running, Status.Failed} ::
              IsOpen(db.State(), CurrentCase(db.tasks[t], t)) <==> !DecidedByOperator(db.State(), CurrentCase(db.tasks[t], t))
    ensures forall sid | sid in old(db.sessions) ::
              sid in db.sessions && SessionTicked(old(db.sessions)[sid], db.sessions[sid], fenceAfter, now)
    ensures forall t | t in old(db.tasks) :: TaskTicked(old(db.State()), db.State(), engine, t, now, delays(t))
    ensures Quiet(db.State(), engine, fenceAfter, now)
    ensures Quiet(old(db.State()), engine, fenceAfter, now) ==>
              db.tasks == old(db.tasks) && db.sessions == old(db.sessions) && db.holds == old(db.holds) && recovered == []
    ensures db.Valid() && Reaches(old(db.State()), db.State())
  {
    hide Inv, Reaches, Scanned, ClosedAll, Checking, Quiet, Ticked, Watched, SessionTicked, TaskTicked;
    ghost var s := db.State();
    WatchSessions(db, fenceAfter, now);
    ghost var m2 := db.State();
    CloseCompleted(db);
    ghost var m3 := db.State();
    CheckHandlers(db, engine.registry);
    ghost var m4 := db.State();
    var rows := RowsToScan(db);
    recovered := ScanRows(db, engine, rows, now, delays);
    ReachesTransitive(s, m2, m3);
    ReachesTransitive(s, m3, m4);
    ReachesTransitive(s, m4, db.State());
    PhasesTick(s, m2, m3, m4, db.State(), engine, fenceAfter, rows, recovered, now, delays);
    if Quiet(s, engine, fenceAfter, now) { QuietStays(s, m2, m3, m4, db.State(), engine, fenceAfter, rows, recovered, now, delays); }
    OpenUnlessDecided(s, db.State(), engine, fenceAfter, now, delays, recovered);
    SessionsExactly(s, db.State(), engine, fenceAfter, now, delays, recovered);
    forall t | t in s.tasks ensures TaskTicked(s, db.State(), engine, t, now, delays(t)) {
      TaskExactly(s, db.State(), engine, fenceAfter, now, delays, recovered, t);
    }
  }

  method RowsToScan(db: Database) returns (rows: seq<TaskId>)
    requires db.Valid()
    ensures forall t :: t in rows <==> t in db.tasks && db.tasks[t].status in {Running, Status.Failed}
    ensures forall i, j | 0 <= i < j < |rows| :: rows[i] != rows[j]
  {
    hide Inv, RowsOk;
    RowsOfInv(db.State());
    rows := InOrder(db.tasks, ScannedRows(db.tasks));
    OrderIsDistinct(db.tasks, rows);
  }

  lemma OpenUnlessDecided(s: Db, s': Db, engine: Engine, fenceAfter: nat, now: Time, delays: TaskId -> nat,
                          recovered: seq<TaskId>)
    requires Ticked(s, s', engine, fenceAfter, now, delays, recovered)
    ensures s'.tasks.Keys == s.tasks.Keys
    ensures forall t | t in s'.tasks && s'.tasks[t].status == Failed && t in s.tasks && s.tasks[t].status in {Running, Status.Failed} ::
              IsOpen(s', CurrentCase(s'.tasks[t], t)) <==> !DecidedByOperator(s', CurrentCase(s'.tasks[t], t))
  {
    hide TaskRecovered, HandlerChecked, Watched, Completed;
    forall t | t in s'.tasks && s'.tasks[t].status == Failed && t in s.tasks && s.tasks[t].status in {Running, Status.Failed}
      ensures IsOpen(s', CurrentCase(s'.tasks[t], t)) <==> !DecidedByOperator(s', CurrentCase(s'.tasks[t], t))
    {
      assert Handled(s', engine, t);
    }
  }

  function StoppedRows(tasks: map<TaskId, TaskRow>, sessions: map<SessionId, SessionRow>): set<TaskId> {
    set t | t in tasks && tasks[t].status == Running && tasks[t].session.Some? && tasks[t].session.value in sessions
            && sessions[tasks[t].session.value].state == Stopped && sessions[tasks[t].session.value].evidence.Some?
  }

  /** The transaction after the stop verifier: attempts whose session has stopped meanwhile are recovered, or held for
      their handler; of all other tasks neither the row nor the incident of the current attempt changes. */
  method SecondTransaction(db: Database, engine: Engine, now: Time, delays: TaskId -> nat)
    returns (recovered: seq<TaskId>)
    requires db.Valid()
    modifies db
    ensures db.State() == old(db.State()).(tasks := db.tasks, incidents := db.incidents, holds := db.holds)
    ensures db.tasks.Keys == old(db.tasks).Keys
    ensures forall t | t in db.tasks ::
              if t in StoppedRows(old(db.tasks), old(db.sessions))
              then Handled(db.State(), engine, t) && (t in recovered <==> old(db.tasks)[t].def.handler in engine.registry)
              else SameCase(old(db.State()), db.State(), t) && t !in recovered
    ensures forall t | t in db.tasks ::
              if t in recovered then TaskRecovered(old(db.State()), db.State(), engine, t, now, delays(t))
              else db.tasks[t] == old(db.tasks)[t]
    ensures db.Valid() && Reaches(old(db.State()), db.State())
  {
    hide Inv, Reaches, Scanned, RowsOk, Handled, TaskRecovered, SameCase;
    RowsOfInv(db.State());
    var rows := InOrder(db.tasks, StoppedRows(db.tasks, db.sessions));
    OrderIsDistinct(db.tasks, rows);
    ghost var s := db.State();
    recovered := ScanRows(db, engine, rows, now, delays);
    StoppedScanned(s, db.State(), engine, rows, recovered, now, delays);
  }

  lemma StoppedScanned(s: Db, s': Db, engine: Engine, rows: seq<TaskId>, recovered: seq<TaskId>, now: Time,
                       delays: TaskId -> nat)
    requires Scanned(s, s', engine, rows, recovered, now, delays)
    requires forall t :: t in rows <==> t in StoppedRows(s.tasks, s.sessions)
    ensures s' == s.(tasks := s'.tasks, incidents := s'.incidents, holds := s'.holds) && s'.tasks.Keys == s.tasks.Keys
    ensures forall t | t in s'.tasks ::
              if t in StoppedRows(s.tasks, s.sessions)
              then Handled(s', engine, t) && (t in recovered <==> s.tasks[t].def.handler in engine.registry)
              else SameCase(s, s', t) && t !in recovered
    ensures forall t | t in s'.tasks ::
              if t in recovered then TaskRecovered(s, s', engine, t, now, delays(t)) else s'.tasks[t] == s.tasks[t]
  {
    hide Handled, TaskRecovered, RowQuiet, SameCase;
  }
}
