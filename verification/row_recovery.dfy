/** Recovery of interrupted attempts (`_recover_rows`, `recover_worker`, `recover_interrupted`). */
module RowRecovery {
  import opened Types
  import opened Rows
  import opened Protocol
  import opened Invariants
  import opened Reachable
  import opened Tables
  import opened TaskStore
  import opened Outcomes
  import RowLaws

  /** The handlers that an engine knows, and those among all handlers whose calls reach outside. */
  datatype Engine = Engine(registry: set<string>, external: set<string>)

  function InterruptAction(engine: Engine, r: TaskRow, now: Time, delay: nat, sequence: nat): RowAction {
    Interrupt(r.def.handler in engine.external, now, delay, sequence)
  }

  ghost function Recovered(s: Db, engine: Engine, t: TaskId, now: Time, delay: nat, sequence: nat): Db
    requires t in s.tasks && s.tasks[t].status == Running
  {
    TakenOver(s, t, InterruptAction(engine, s.tasks[t], now, delay, sequence))
  }

  /** What the loop of `_recover_rows` does to the object of one task. */
  method Interrupted(r: TaskRow, external: bool, now: Time, delay: nat) returns (e: Ended)
    requires r.status == Running && r.retryAt.None?
    ensures forall sequence :: EndOf(Columns(r, Interrupt(external, now, delay, sequence))) == e
    ensures e.status == Retrying || e.status == Status.Failed
    ensures e.retries == r.retries + (if e.status == Retrying then 1 else 0) && e.result == r.result
  {
    var category := if external then Some(Uncertain) else None;
    e := EndOf(r).(status := Status.Failed, error := Some(Error("UncertainExecutionError", category)));
    if r.def.idempotent && Retryable(category) && e.retries < LimitFor(r) {
      e := BeginRetry(e, now, delay);
    }
  }

  /** `RecoveryJournal.retry_scheduled`. */
  method RetryScheduledFor(db: Database, t: TaskId)
    requires t in db.tasks && db.tasks[t].status == Retrying
    modifies db
    ensures db.State() == if Settles(old(db.State()), t, old(db.tasks[t]))
                          then Closed(old(db.State()), Case(t, old(db.tasks[t].attempts)), RetryWasScheduled) else old(db.State())
  {
    var c := Case(t, db.tasks[t].attempts);
    if c in db.incidents && db.incidents[c].Open() {
      db.incidents := db.incidents[c := db.incidents[c].(resolution := Some(RetryWasScheduled))];
      db.holds := set h | h in db.holds && h.source != ByIncident(c);
    }
  }

  /** The update of the row and the events of its interruption. */
  method WriteInterrupted(db: Database, t: TaskId, external: bool, now: Time, delay: nat)
    requires t in db.tasks && db.tasks[t].status == Running && db.tasks[t].retryAt.None?
    modifies db
    ensures t in db.tasks && IsNext(old(db.tasks), db.tasks[t].sequence)
    ensures db.State() == SetRow(old(db.State()), t, Interrupt(external, now, delay, db.tasks[t].sequence))
    ensures db.tasks[t].status == Retrying || db.tasks[t].status == Status.Failed
  {
    hide IsNext;
    var r := db.tasks[t];
    var e := Interrupted(r, external, now, delay);
    var sequence := NextSequence(db);
    var row := r.(status := e.status, retries := e.retries, error := e.error, lastError := e.lastError,
                  owner := None, session := None, retryAt := e.retryAt, sequence := sequence);
    row := row.(log := row.log + [Event(EventKind.Interrupted, Status.Failed, row.attempts, r.retries, NoDetail)]);
    if row.status == Retrying {
      row := row.(log := row.log + [Event(RetryScheduled, row.status, row.attempts, row.retries, NoDetail)]);
    }
    InterruptedRow(r, external, now, delay, sequence, row);
    db.tasks := db.tasks[t := row];
  }

  /** One turn of the loop; decoding the row fails when its handler is unknown here. */
  method RecoverRow(db: Database, engine: Engine, t: TaskId, now: Time, delay: nat) returns (reply: Reply<TaskRow>)
    requires db.Valid() && t in db.tasks && db.tasks[t].status == Running && SafeToTake(db.State(), t)
    modifies db
    ensures reply.Ok? <==> old(db.tasks[t].def.handler) in engine.registry
    ensures !reply.Ok? ==> db.State() == old(db.State())
    ensures reply.Ok? ==> t in db.tasks && IsNext(old(db.tasks), db.tasks[t].sequence)
    ensures reply.Ok? ==> reply.value == db.tasks[t] && reply.value.status in {Retrying, Status.Failed}
    ensures reply.Ok? ==> db.State() == Recovered(old(db.State()), engine, t, now, delay, db.tasks[t].sequence)
    ensures db.Valid() && Reaches(old(db.State()), db.State())
  {
    ReachesSelf(db.State());
    RunningRow(db.State(), t);
    hide Inv, Reaches, IsNext, SafeToTake, RowApply;
    if db.tasks[t].def.handler !in engine.registry { return Rejected(MissingHandler); }
    ghost var s := db.State();
    WriteInterrupted(db, t, db.tasks[t].def.handler in engine.external, now, delay);
    RecoveredReaches(s, engine, t, now, delay, db.tasks[t].sequence);
    if db.tasks[t].status == Retrying { RetryScheduledFor(db, t); }
    return Ok(db.tasks[t]);
  }

  lemma RunningRow(s: Db, t: TaskId)
    requires Inv(s) && t in s.tasks && s.tasks[t].status == Running
    ensures s.tasks[t].retryAt.None?
  {
    assert RowInv(s.tasks[t]);
  }

  lemma InterruptedRow(r: TaskRow, external: bool, now: Time, delay: nat, sequence: nat, row: TaskRow)
    requires r.status == Running && r.retryAt.None?
    requires var c := Columns(r, Interrupt(external, now, delay, sequence));
      var first := Event(EventKind.Interrupted, Status.Failed, r.attempts, r.retries, NoDetail);
      && row == c.(log := row.log)
      && row.log == if c.status == Retrying
                    then (r.log + [first]) + [Event(RetryScheduled, Retrying, r.attempts, r.retries + 1, NoDetail)]
                    else r.log + [first]
    ensures row == RowApply(r, Interrupt(external, now, delay, sequence))
  {
    assert row.log == r.log + Entries(r, Interrupt(external, now, delay, sequence));
  }

  lemma RecoveredReaches(s: Db, engine: Engine, t: TaskId, now: Time, delay: nat, sequence: nat)
    requires Inv(s) && t in s.tasks && s.tasks[t].status == Running && SafeToTake(s, t) && IsNext(s.tasks, sequence)
    ensures var s' := Recovered(s, engine, t, now, delay, sequence); Reaches(s, s') && Inv(s')
  {
    hide Inv, Reaches, RowApply, TakenOver;
    ReachesSelf(s);
    ReachesStep(s, s, ByStore(Recover(t, InterruptAction(engine, s.tasks[t], now, delay, sequence))));
    ReachesInv(s, Recovered(s, engine, t, now, delay, sequence));
  }

  // ---------------------------------------------------------------- many rows

  /** The rows that meet a condition, by `ORDER BY sequence`. */
  method InOrder(tasks: map<TaskId, TaskRow>, chosen: set<TaskId>) returns (rows: seq<TaskId>)
    requires chosen <= tasks.Keys && RowsOk(tasks)
    ensures forall t :: t in rows <==> t in chosen
    ensures forall i, j | 0 <= i < j < |rows| :: tasks[rows[i]].sequence < tasks[rows[j]].sequence
  {
    hide RowInv;
    rows := [];
    var todo := chosen;
    while todo != {}
      invariant todo <= chosen
      invariant forall t :: t in rows <==> t in chosen && t !in todo
      invariant forall i, j | 0 <= i < j < |rows| :: tasks[rows[i]].sequence < tasks[rows[j]].sequence
      invariant forall i, t | 0 <= i < |rows| && t in todo :: tasks[rows[i]].sequence < tasks[t].sequence
    {
      var first :| first in todo;
      var rest := todo - {first};
      while rest != {}
        invariant first in todo && rest <= todo
        invariant forall t | t in todo && t !in rest :: t == first || tasks[first].sequence < tasks[t].sequence
      {
        var t :| t in rest;
        rest := rest - {t};
        if tasks[t].sequence < tasks[first].sequence { first := t; }
      }
      rows := rows + [first];
      todo := todo - {first};
    }
  }

  /** The incident of one of these rows, open before and settled by its retry. */
  ghost predicate SettledCase(s: Db, s': Db, rows: seq<TaskId>, c: Case) {
    && c in s.incidents && s.incidents[c].Open() && c.task in rows && c.task in s'.tasks
    && s'.tasks[c.task].attempts == c.attempt && s'.tasks[c.task].status == Retrying
  }

  ghost predicate RowRecovered(r: TaskRow, r': TaskRow, engine: Engine, now: Time, delay: nat) {
    && r.status == Running
    && r' == RowApply(r, InterruptAction(engine, r, now, delay, r'.sequence))
    && RowLaws.InterruptedTo(r, r', r.def.handler in engine.external, now, delay)
  }

  ghost predicate TasksRecovered(s: Db, s': Db, engine: Engine, rows: seq<TaskId>, now: Time, delays: TaskId -> nat) {
    && s'.tasks.Keys == s.tasks.Keys
    && (forall t | t in rows :: t in s.tasks && RowRecovered(s.tasks[t], s'.tasks[t], engine, now, delays(t)))
    && (forall t | t in s.tasks && t !in rows :: s'.tasks[t] == s.tasks[t])
    && (forall i, j | 0 <= i < j < |rows| :: s'.tasks[rows[i]].sequence < s'.tasks[rows[j]].sequence)
    && (forall i, t | 0 <= i < |rows| && t in s.tasks && t !in rows :: s.tasks[t].sequence < s'.tasks[rows[i]].sequence)
  }

  ghost predicate CasesSettled(s: Db, s': Db, rows: seq<TaskId>) {
    && s'.incidents.Keys == s.incidents.Keys
    && (forall c | c in s.incidents :: s'.incidents[c] ==
          if SettledCase(s, s', rows, c) then s.incidents[c].(resolution := Some(RetryWasScheduled)) else s.incidents[c])
    && (forall h :: h in s'.holds <==> h in s.holds && !(h.source.ByIncident? && SettledCase(s, s', rows, h.source.incident)))
  }

  /** Every row is interrupted, keeps its place among the others and queues up behind all the rest; an
      open incident is settled exactly when its row will be retried; nothing else changes. */
  ghost predicate AllRecovered(s: Db, s': Db, engine: Engine, rows: seq<TaskId>, now: Time, delays: TaskId -> nat) {
    && TasksRecovered(s, s', engine, rows, now, delays)
    && CasesSettled(s, s', rows)
    && s' == s.(tasks := s'.tasks, incidents := s'.incidents, holds := s'.holds)
  }

  lemma RowsStep(s: Db, m: Db, m': Db, engine: Engine, rows: seq<TaskId>, t: TaskId, now: Time, delays: TaskId -> nat)
    requires TasksRecovered(s, m, engine, rows, now, delays) && t !in rows && t in s.tasks && s.tasks[t].status == Running
    requires m'.tasks.Keys == m.tasks.Keys && RowRecovered(m.tasks[t], m'.tasks[t], engine, now, delays(t))
    requires forall u | u in m.tasks && u != t :: m'.tasks[u] == m.tasks[u]
    ensures forall u | u in rows + [t] :: u in s.tasks && RowRecovered(s.tasks[u], m'.tasks[u], engine, now, delays(u))
    ensures forall u | u in s.tasks && u !in rows + [t] :: m'.tasks[u] == s.tasks[u]
  {
    hide RowRecovered;
  }

  lemma OrderStep(tasks: map<TaskId, TaskRow>, m: map<TaskId, TaskRow>, m': map<TaskId, TaskRow>, rows: seq<TaskId>,
                  t: TaskId)
    requires m.Keys == tasks.Keys == m'.Keys && t !in rows && t in tasks && forall u | u in rows :: u in tasks
    requires forall u | u in m && u != t :: m'[u] == m[u]
    requires forall u | u in m :: m[u].sequence < m'[t].sequence
    requires forall u | u in tasks && u !in rows :: m[u] == tasks[u]
    requires forall i, j | 0 <= i < j < |rows| :: m[rows[i]].sequence < m[rows[j]].sequence
    requires forall i, u | 0 <= i < |rows| && u in tasks && u !in rows :: tasks[u].sequence < m[rows[i]].sequence
    ensures var more := rows + [t];
      && (forall i, j | 0 <= i < j < |more| :: m'[more[i]].sequence < m'[more[j]].sequence)
      && (forall i, u | 0 <= i < |more| && u in tasks && u !in more :: tasks[u].sequence < m'[more[i]].sequence)
  {
    var more := rows + [t];
    forall i | 0 <= i < |rows| ensures more[i] == rows[i] && more[i] in tasks && more[i] != t && m'[more[i]] == m[rows[i]] {
      assert rows[i] in rows;
    }
    assert more[|rows|] == t;
    forall i, u | 0 <= i < |more| && u in tasks && u !in more ensures tasks[u].sequence < m'[more[i]].sequence {
      assert u !in rows && m[u] == tasks[u];
      if i < |rows| { assert rows[i] in rows; }
    }
  }

  lemma TasksStep(s: Db, m: Db, m': Db, engine: Engine, rows: seq<TaskId>, t: TaskId, now: Time, delays: TaskId -> nat)
    requires TasksRecovered(s, m, engine, rows, now, delays) && t !in rows && t in s.tasks && s.tasks[t].status == Running
    requires m'.tasks.Keys == m.tasks.Keys && RowRecovered(m.tasks[t], m'.tasks[t], engine, now, delays(t))
    requires forall u | u in m.tasks && u != t :: m'.tasks[u] == m.tasks[u]
    requires forall u | u in m.tasks :: m.tasks[u].sequence < m'.tasks[t].sequence
    ensures TasksRecovered(s, m', engine, rows + [t], now, delays)
  {
    hide RowRecovered;
    RowsStep(s, m, m', engine, rows, t, now, delays);
    OrderStep(s.tasks, m.tasks, m'.tasks, rows, t);
  }

  lemma CasesStep(s: Db, m: Db, m': Db, engine: Engine, rows: seq<TaskId>, t: TaskId, now: Time, delays: TaskId -> nat)
    requires TasksRecovered(s, m, engine, rows, now, delays) && CasesSettled(s, m, rows) && t !in rows && t in m'.tasks
    requires m'.tasks.Keys == m.tasks.Keys && forall u | u in m.tasks && u != t :: m'.tasks[u] == m.tasks[u]
    requires var c := Case(t, m'.tasks[t].attempts);
      if Settles(m, t, m'.tasks[t])
      then && m'.incidents == m.incidents[c := m.incidents[c].(resolution := Some(RetryWasScheduled))]
           && m'.holds == set h | h in m.holds && h.source != ByIncident(c)
      else m'.incidents == m.incidents && m'.holds == m.holds
    ensures CasesSettled(s, m', rows + [t])
  {
    hide RowRecovered, TasksRecovered;
    assert forall u :: u in rows + [t] <==> u in rows || u == t;
    assert m'.incidents.Keys == s.incidents.Keys;
    forall c | c in s.incidents
      ensures SettledCase(s, m', rows + [t], c) <==>
                SettledCase(s, m, rows, c) || (c == Case(t, m'.tasks[t].attempts) && Settles(m, t, m'.tasks[t]))
    {
    }
  }

  lemma InterruptNumber(r: TaskRow, a: RowAction)
    requires RowGuard(r, a) && a.Interrupt?
    ensures RowApply(r, a).sequence == a.sequence && RowApply(r, a).attempts == r.attempts
  {
  }

  lemma RecoveredShape(m: Db, engine: Engine, t: TaskId, now: Time, delay: nat, sequence: nat)
    requires t in m.tasks && m.tasks[t].status == Running && IsNext(m.tasks, sequence)
    ensures var m' := Recovered(m, engine, t, now, delay, sequence);
      && t in m'.tasks && m'.tasks == m.tasks[t := m'.tasks[t]] && RowRecovered(m.tasks[t], m'.tasks[t], engine, now, delay)
      && m'.tasks[t].sequence == sequence
      && m' == m.(tasks := m'.tasks, incidents := m'.incidents, holds := m'.holds)
      && var c := Case(t, m'.tasks[t].attempts);
         if Settles(m, t, m'.tasks[t])
         then && m'.incidents == m.incidents[c := m.incidents[c].(resolution := Some(RetryWasScheduled))]
              && m'.holds == set h | h in m.holds && h.source != ByIncident(c)
         else m'.incidents == m.incidents && m'.holds == m.holds
  {
    hide RowApply, IsNext, RowLaws.InterruptedTo;
    RowLaws.InterruptionExactly(m.tasks[t], m.tasks[t].def.handler in engine.external, now, delay, sequence);
    InterruptNumber(m.tasks[t], InterruptAction(engine, m.tasks[t], now, delay, sequence));
  }

  lemma AllStep(s: Db, m: Db, engine: Engine, rows: seq<TaskId>, t: TaskId, now: Time, delays: TaskId -> nat,
                sequence: nat)
    requires AllRecovered(s, m, engine, rows, now, delays)
    requires t !in rows && t in s.tasks && t in m.tasks && m.tasks[t].status == Running && s.tasks[t].status == Running
    requires IsNext(m.tasks, sequence)
    ensures AllRecovered(s, Recovered(m, engine, t, now, delays(t), sequence), engine, rows + [t], now, delays)
  {
    hide Recovered, RowRecovered, TasksRecovered, CasesSettled, Settles;
    var m' := Recovered(m, engine, t, now, delays(t), sequence);
    RecoveredShape(m, engine, t, now, delays(t), sequence);
    TasksStep(s, m, m', engine, rows, t, now, delays);
    CasesStep(s, m, m', engine, rows, t, now, delays);
  }

  lemma Untouched(s: Db, engine: Engine, now: Time, delays: TaskId -> nat)
    ensures AllRecovered(s, s, engine, [], now, delays)
  {
  }

  /** `_recover_rows`. A row that cannot be decoded stops the loop, for the caller to roll back. */
  method RecoverRows(db: Database, engine: Engine, rows: seq<TaskId>, now: Time, delays: TaskId -> nat)
    returns (reply: Reply<Unit>)
    requires db.Valid() && forall i, j | 0 <= i < j < |rows| :: rows[i] != rows[j]
    requires forall t | t in rows :: t in db.tasks && db.tasks[t].status == Running && SafeToTake(db.State(), t)
    modifies db
    ensures reply.Ok? <==> forall t | t in rows :: old(db.tasks)[t].def.handler in engine.registry
    ensures reply.Ok? ==> AllRecovered(old(db.State()), db.State(), engine, rows, now, delays)
    ensures reply.Ok? ==> RowsInterrupted(old(db.tasks), db.tasks, engine, rows, now, delays)
    ensures db.Valid() && Reaches(old(db.State()), db.State())
    ensures db.State() == old(db.State()).(tasks := db.tasks, incidents := db.incidents, holds := db.holds)
  {
    hide Inv, Reaches, IsNext, Recovered, TasksRecovered, CasesSettled, SafeToTake, RowsInterrupted;
    ghost var s := db.State();
    ReachesSelf(s);
    Untouched(s, engine, now, delays);
    assert rows[..0] == [];
    for i := 0 to |rows|
      invariant db.Valid() && Reaches(s, db.State())
      invariant AllRecovered(s, db.State(), engine, rows[..i], now, delays)
      invariant forall j | 0 <= j < i :: s.tasks[rows[j]].def.handler in engine.registry
    {
      var t := rows[i];
      assert t in rows && t !in rows[..i];
      StillRunning(s, db.State(), engine, rows[..i], t, now, delays);
      ghost var m := db.State();
      var done := RecoverRow(db, engine, t, now, delays(t));
      ReachesTransitive(s, m, db.State());
      if done.Rejected? { return Rejected(MissingHandler); }
      AllStep(s, m, engine, rows[..i], t, now, delays, db.tasks[t].sequence);
      assert rows[..i + 1] == rows[..i] + [t];
    }
    assert rows[..|rows|] == rows;
    AllInterrupted(s, db.State(), engine, rows, now, delays);
    return Ok(Unit);
  }

  /** Each of the rows is repeated if and only if its task is idempotent with retries left and its handler does not
      reach outside; the rows of external calls are UNCERTAIN failures. */
  ghost predicate RowsInterrupted(tasks: map<TaskId, TaskRow>, tasks': map<TaskId, TaskRow>, engine: Engine,
                                  rows: seq<TaskId>, now: Time, delays: TaskId -> nat)
  {
    forall t | t in rows :: t in tasks && t in tasks' &&
      RowLaws.InterruptedTo(tasks[t], tasks'[t], tasks[t].def.handler in engine.external, now, delays(t))
  }

  lemma AllInterrupted(s: Db, s': Db, engine: Engine, rows: seq<TaskId>, now: Time, delays: TaskId -> nat)
    requires AllRecovered(s, s', engine, rows, now, delays)
    ensures RowsInterrupted(s.tasks, s'.tasks, engine, rows, now, delays)
  {
    hide CasesSettled, RowLaws.InterruptedTo;
    forall t | t in rows ensures t in s'.tasks { assert t in s.tasks.Keys; }
  }

  /** A row whose turn has not come is as it was, and may still be taken. */
  lemma StillRunning(s: Db, m: Db, engine: Engine, rows: seq<TaskId>, t: TaskId, now: Time, delays: TaskId -> nat)
    requires AllRecovered(s, m, engine, rows, now, delays) && t !in rows
    requires t in s.tasks && s.tasks[t].status == Running && SafeToTake(s, t)
    ensures t in m.tasks && m.tasks[t] == s.tasks[t] && SafeToTake(m, t)
  {
    hide RowRecovered, CasesSettled;
    assert t in m.tasks.Keys;
  }

  lemma RowsOfInv(s: Db)
    requires Inv(s)
    ensures RowsOk(s.tasks)
  {
  }

  lemma OrderIsDistinct(tasks: map<TaskId, TaskRow>, rows: seq<TaskId>)
    requires forall t | t in rows :: t in tasks
    requires forall i, j | 0 <= i < j < |rows| :: tasks[rows[i]].sequence < tasks[rows[j]].sequence
    ensures forall i, j | 0 <= i < j < |rows| :: rows[i] != rows[j]
  {
  }

  /** The rows in order of their numbers. */
  ghost predicate Ordered(tasks: map<TaskId, TaskRow>, chosen: set<TaskId>, rows: seq<TaskId>)
    requires chosen <= tasks.Keys
  {
    && (forall t :: t in rows <==> t in chosen)
    && (forall i, j | 0 <= i < j < |rows| :: tasks[rows[i]].sequence < tasks[rows[j]].sequence)
  }

  /** A transaction around the loop: all the chosen rows, or none if one of them cannot be decoded. */
  method RecoverChosen(db: Database, engine: Engine, chosen: set<TaskId>, now: Time, delays: TaskId -> nat)
    returns (reply: Reply<seq<TaskId>>)
    requires db.Valid() && chosen <= db.tasks.Keys
    requires forall t | t in chosen :: db.tasks[t].status == Running && SafeToTake(db.State(), t)
    modifies db
    ensures reply.Ok? <==> forall t | t in chosen :: old(db.tasks)[t].def.handler in engine.registry
    ensures reply.Ok? ==> Ordered(old(db.tasks), chosen, reply.value)
    ensures reply.Ok? ==> AllRecovered(old(db.State()), db.State(), engine, reply.value, now, delays)
    ensures reply.Ok? ==> RowsInterrupted(old(db.tasks), db.tasks, engine, reply.value, now, delays)
    ensures !reply.Ok? ==> reply == Rejected(MissingHandler) && db.State() == old(db.State())
    ensures db.Valid() && Reaches(old(db.State()), db.State())
  {
    hide Inv, Reaches, AllRecovered, SafeToTake, RowsOk, RowsInterrupted;
    ReachesSelf(db.State());
    ghost var s := db.State();
    RowsOfInv(s);
    var tasks, incidents, holds := db.tasks, db.incidents, db.holds;
    var rows := InOrder(db.tasks, chosen);
    OrderIsDistinct(db.tasks, rows);
    var done := RecoverRows(db, engine, rows, now, delays);
    if done.Rejected? {
      db.tasks, db.incidents, db.holds := tasks, incidents, holds;
      assert db.State() == s;
      return Rejected(MissingHandler);
    }
    return Ok(rows);
  }

  function Owned(tasks: map<TaskId, TaskRow>, session: SessionId): set<TaskId> {
    set t | t in tasks && tasks[t].status == Running && tasks[t].session == Some(session)
  }

  lemma OwnedAreSafe(s: Db, sid: SessionId)
    requires StoppedWithEvidence(s, sid)
    ensures forall t | t in Owned(s.tasks, sid) :: SafeToTake(s, t)
  {
  }

  /** `recover_worker`: refused until the session has stopped with evidence. */
  method RecoverWorker(db: Database, engine: Engine, sid: SessionId, now: Time, delays: TaskId -> nat)
    returns (reply: Reply<seq<TaskId>>)
    requires db.Valid()
    modifies db
    ensures reply == Rejected(NotStopped) <==> !StoppedWithEvidence(old(db.State()), sid)
    ensures reply.Ok? ==> StoppedWithEvidence(old(db.State()), sid)
    ensures reply.Ok? ==> Ordered(old(db.tasks), Owned(old(db.tasks), sid), reply.value)
    ensures reply.Ok? ==> AllRecovered(old(db.State()), db.State(), engine, reply.value, now, delays)
    ensures !reply.Ok? ==> db.State() == old(db.State())
    ensures reply == Rejected(NotStopped) <==>
              !old(sid in db.sessions && db.sessions[sid].state == Stopped && db.sessions[sid].evidence.Some?)
    ensures reply.Ok? ==> forall t :: t in reply.value <==>
              t in old(db.tasks) && old(db.tasks)[t].status == Running && old(db.tasks)[t].session == Some(sid)
    ensures reply.Ok? ==> RowsInterrupted(old(db.tasks), db.tasks, engine, reply.value, now, delays)
    ensures db.Valid() && Reaches(old(db.State()), db.State())
  {
    ReachesSelf(db.State());
    hide Inv, Reaches, AllRecovered, SafeToTake, RowsOk, RowsInterrupted;
    if !(sid in db.sessions && db.sessions[sid].state == Stopped && db.sessions[sid].evidence.Some?) {
      return Rejected(NotStopped);
    }
    OwnedAreSafe(db.State(), sid);
    hide StoppedWithEvidence;
    reply := RecoverChosen(db, engine, Owned(db.tasks, sid), now, delays);
  }

  predicate Offline(tasks: map<TaskId, TaskRow>) {
    forall t | t in tasks :: tasks[t].status == Running ==> tasks[t].session.None?
  }

  function RunningTasks(tasks: map<TaskId, TaskRow>): set<TaskId> {
    set t | t in tasks && tasks[t].status == Running
  }

  /** `recover_interrupted`: only for a database without registered owners. The caller vouches that no
      earlier worker is alive. */
  method RecoverInterrupted(db: Database, engine: Engine, now: Time, delays: TaskId -> nat)
    returns (reply: Reply<seq<TaskId>>)
    requires db.Valid() && db.live == {}
    modifies db
    ensures reply == Rejected(NotStopped) <==> !Offline(old(db.tasks))
    ensures reply.Ok? ==> Ordered(old(db.tasks), RunningTasks(old(db.tasks)), reply.value)
    ensures reply.Ok? ==> AllRecovered(old(db.State()), db.State(), engine, reply.value, now, delays)
    ensures reply == Rejected(NotStopped) <==>
              exists t | t in old(db.tasks) :: old(db.tasks)[t].status == Running && old(db.tasks)[t].session.Some?
    ensures reply.Ok? ==> forall t :: t in reply.value <==> t in old(db.tasks) && old(db.tasks)[t].status == Running
    ensures reply.Ok? ==> RowsInterrupted(old(db.tasks), db.tasks, engine, reply.value, now, delays)
    ensures !reply.Ok? ==> db.State() == old(db.State())
    ensures db.Valid() && Reaches(old(db.State()), db.State())
  {
    ReachesSelf(db.State());
    hide Inv, Reaches, AllRecovered, RowsInterrupted;
    if exists t | t in db.tasks :: db.tasks[t].status == Running && db.tasks[t].session.Some? { return Rejected(NotStopped); }
    reply := RecoverChosen(db, engine, RunningTasks(db.tasks), now, delays);
  }
}
