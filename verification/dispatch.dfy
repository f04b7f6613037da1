/** Choosing the next task (`claim_next`): the loop with its moving cursor against the simple
    rule "first in order among those that are eligible and admitted". */
module Dispatch {
  import opened Types
  import opened Rows
  import opened Protocol
  import opened Invariants
  import opened Reachable
  import opened Tables
  import opened TaskStore
  import opened UsageFacts
  import opened RowLaws
  import opened ClaimLaws
  import Usage
  import WorkerRegistry

  // ---------------------------------------------------------------- the rule

  ghost predicate IsRefused(s: Db, registry: set<string>, now: Time, t: TaskId) {
    Candidate(s, registry, t, now) && Protocol.Admission(s, t) == Usage.Refused
  }

  /** The candidates that their budget refuses. */
  ghost function AllRefused(s: Db, registry: set<string>, now: Time): set<TaskId> {
    set t | t in s.tasks && IsRefused(s, registry, now, t)
  }

  ghost function RefusedBefore(s: Db, registry: set<string>, now: Time, r: TaskRow): set<TaskId> {
    set t | t in s.tasks && IsRefused(s, registry, now, t) && Before(s.tasks[t], r)
  }

  /** The rows of these tasks fail, the others stay. */
  ghost function Failing(tasks: map<TaskId, TaskRow>, failed: set<TaskId>): (r: map<TaskId, TaskRow>)
    ensures r.Keys == tasks.Keys
  {
    map t | t in tasks ::
      if t in failed && RowGuard(tasks[t], RefuseBudget) then RowApply(tasks[t], RefuseBudget) else tasks[t]
  }

  /** The task comes first among the candidates that are admitted. */
  ghost predicate Wins(s: Db, registry: set<string>, now: Time, t: TaskId) {
    && Candidate(s, registry, t, now) && Protocol.Admission(s, t) == Usage.Admitted
    && forall u | Candidate(s, registry, u, now) && Protocol.Admission(s, u) == Usage.Admitted ::
         u == t || Before(s.tasks[t], s.tasks[u])
  }

  // ---------------------------------------------------------------- passing over refused candidates

  lemma RefusalKeepsTotals(r: TaskRow)
    requires RowInv(r) && RowGuard(r, RefuseBudget)
    ensures Usage.RowTotals(RowApply(r, RefuseBudget)) == Usage.RowTotals(r)
    ensures RowApply(r, RefuseBudget).def == r.def && RowApply(r, RefuseBudget).sequence == r.sequence
  {
    RowStepInv(r, RefuseBudget);
    TotalsOfRow(r);
    TotalsOfRow(RowApply(r, RefuseBudget));
  }

  /** Failing refused candidates admits or refuses no other task. */
  lemma AdmissionUnmoved(s: Db, tasks': map<TaskId, TaskRow>, t: TaskId)
    requires tasks'.Keys == s.tasks.Keys
    requires forall u | u in s.tasks :: Usage.RowTotals(tasks'[u]) == Usage.RowTotals(s.tasks[u])
    ensures Protocol.Admission(s.(tasks := tasks'), t) == Protocol.Admission(s, t)
  {
    if IsLlm(s, t) {
      var ids := Usage.LlmTasks(t.workflow, s.runs[t.workflow].def.nodes, s.nodes);
      forall u | u in ids ensures u in s.tasks <==> u in tasks' { assert u in s.tasks.Keys <==> u in tasks'.Keys; }
      UsageUnchanged(s.tasks, tasks', ids);
    }
  }

  lemma FailingRow(tasks: map<TaskId, TaskRow>, failed: set<TaskId>, t: TaskId)
    requires t in tasks && RowInv(tasks[t])
    ensures var r, r' := tasks[t], Failing(tasks, failed)[t];
      && r'.def == r.def && r'.sequence == r.sequence && Usage.RowTotals(r') == Usage.RowTotals(r)
      && (t !in failed ==> r' == r)
  {
    if RowGuard(tasks[t], RefuseBudget) { RefusalKeepsTotals(tasks[t]); }
    hide RowInv, RowGuard, RowApply, Usage.RowTotals;
  }

  lemma FailingRows(tasks: map<TaskId, TaskRow>, failed: set<TaskId>)
    requires RowsOk(tasks)
    ensures forall u | u in tasks ::
              var r, r' := tasks[u], Failing(tasks, failed)[u];
              && r'.def == r.def && r'.sequence == r.sequence && Usage.RowTotals(r') == Usage.RowTotals(r)
              && (u !in failed ==> r' == r)
  {
    hide Failing, Usage.RowTotals, RowInv;
    forall u | u in tasks
      ensures var r, r' := tasks[u], Failing(tasks, failed)[u];
        && r'.def == r.def && r'.sequence == r.sequence && Usage.RowTotals(r') == Usage.RowTotals(r)
        && (u !in failed ==> r' == r)
    {
      FailingRow(tasks, failed, u);
    }
  }

  lemma FailingOneMore(tasks: map<TaskId, TaskRow>, failed: set<TaskId>, t: TaskId)
    requires t in tasks && t !in failed && RowGuard(tasks[t], RefuseBudget)
    ensures Failing(tasks, failed)[t] == tasks[t]
    ensures Failing(tasks, failed + {t}) == Failing(tasks, failed)[t := RowApply(tasks[t], RefuseBudget)]
  {
    hide RowGuard, RowApply;
  }

  // ---------------------------------------------------------------- the state of the loop

  /** The refused candidates that the cursor has passed. */
  ghost function RefusedUpTo(s: Db, registry: set<string>, now: Time, cursor: Option<Cursor>): set<TaskId> {
    set t | t in s.tasks && IsRefused(s, registry, now, t) && !Beyond(cursor, s.tasks[t])
  }

  ghost function Passing(s: Db, registry: set<string>, now: Time, cursor: Option<Cursor>): Db {
    s.(tasks := Failing(s.tasks, RefusedUpTo(s, registry, now, cursor)))
  }

  lemma CandidatesAreTasks(s: Db, registry: set<string>, now: Time)
    ensures forall t | Candidate(s, registry, t, now) :: t in s.tasks && RowGuard(s.tasks[t], RefuseBudget)
  {
  }

  lemma CandidateSame(s: Db, tasks': map<TaskId, TaskRow>, registry: set<string>, now: Time, t: TaskId)
    requires t in s.tasks && t in tasks' && tasks'[t] == s.tasks[t]
    ensures Candidate(s.(tasks := tasks'), registry, t, now) <==> Candidate(s, registry, t, now)
  {
  }

  /** Beyond the cursor nothing has changed: the same candidates, with the same admission. */
  lemma PassingKeeps(s: Db, registry: set<string>, now: Time, cursor: Option<Cursor>, t: TaskId)
    requires RowsOk(s.tasks)
    ensures var m := Passing(s, registry, now, cursor);
      && m.tasks.Keys == s.tasks.Keys
      && Protocol.Admission(m, t) == Protocol.Admission(s, t)
      && (t in s.tasks ==> m.tasks[t].def == s.tasks[t].def && m.tasks[t].sequence == s.tasks[t].sequence)
      && (t in s.tasks && Beyond(cursor, s.tasks[t]) ==>
            m.tasks[t] == s.tasks[t] && (Candidate(m, registry, t, now) <==> Candidate(s, registry, t, now)))
  {
    hide Protocol.Admission, Candidate, Failing, RowsOk, Beyond;
    var failed := RefusedUpTo(s, registry, now, cursor);
    FailingRows(s.tasks, failed);
    AdmissionUnmoved(s, Failing(s.tasks, failed), t);
    if t in s.tasks && Beyond(cursor, s.tasks[t]) {
      assert t !in failed;
      CandidateSame(s, Failing(s.tasks, failed), registry, now, t);
    }
  }

  function At(r: TaskRow): Option<Cursor> { Some(Cursor(r.def.priority, r.sequence)) }

  /** The first candidate beyond the cursor is the only one between the cursor and itself. */
  lemma CursorStep(s: Db, registry: set<string>, now: Time, cursor: Option<Cursor>, t: TaskId)
    requires RowsOk(s.tasks) && IsFirst(Passing(s, registry, now, cursor), registry, now, cursor, {}, Some(t))
    ensures Candidate(s, registry, t, now) && Beyond(cursor, s.tasks[t]) && Passing(s, registry, now, cursor).tasks[t] == s.tasks[t]
    ensures forall u | Candidate(s, registry, u, now) ::
              (!Beyond(At(s.tasks[t]), s.tasks[u]) <==> !Beyond(cursor, s.tasks[u]) || u == t)
              && (!Beyond(cursor, s.tasks[u]) <==> Before(s.tasks[u], s.tasks[t]))
  {
    hide Candidate, Passing, RowGuard, Protocol.Admission, RowsOk;
    var m := Passing(s, registry, now, cursor);
    CandidatesAreTasks(s, registry, now);
    CandidatesAreTasks(m, registry, now);
    PassingKeeps(s, registry, now, cursor, t);
    forall u | Candidate(s, registry, u, now)
      ensures (!Beyond(At(s.tasks[t]), s.tasks[u]) <==> !Beyond(cursor, s.tasks[u]) || u == t)
      ensures !Beyond(cursor, s.tasks[u]) <==> Before(s.tasks[u], s.tasks[t])
    {
      PassingKeeps(s, registry, now, cursor, u);
      assert Beyond(cursor, s.tasks[u]) ==> u == t || Before(s.tasks[t], s.tasks[u]);
    }
  }

  lemma PassedOne(s: Db, registry: set<string>, now: Time, cursor: Option<Cursor>, t: TaskId)
    requires RowsOk(s.tasks) && IsFirst(Passing(s, registry, now, cursor), registry, now, cursor, {}, Some(t))
    ensures var m := Passing(s, registry, now, cursor);
      && t in m.tasks && t in s.tasks && m.tasks[t] == s.tasks[t] && RowGuard(m.tasks[t], RefuseBudget)
      && Passing(s, registry, now, At(s.tasks[t])) ==
           if Protocol.Admission(s, t) == Usage.Refused then SetRow(m, t, RefuseBudget) else m
  {
    hide Protocol.Admission, RowGuard, RowApply, Candidate, Failing, Beyond, RowsOk, IsFirst;
    CursorStep(s, registry, now, cursor, t);
    CandidatesAreTasks(s, registry, now);
    var failed := RefusedUpTo(s, registry, now, cursor);
    if Protocol.Admission(s, t) == Usage.Refused {
      FailingOneMore(s.tasks, failed, t);
      assert RefusedUpTo(s, registry, now, At(s.tasks[t])) == failed + {t};
    } else {
      assert RefusedUpTo(s, registry, now, At(s.tasks[t])) == failed;
    }
  }

  // ---------------------------------------------------------------- the end of the loop

  /** No candidate that the cursor has passed is admitted. */
  ghost predicate NonePassed(s: Db, registry: set<string>, now: Time, cursor: Option<Cursor>) {
    forall u | Candidate(s, registry, u, now) && !Beyond(cursor, s.tasks[u]) :: Protocol.Admission(s, u) != Usage.Admitted
  }

  /** When the query finds nothing more, every candidate was passed. */
  lemma NothingLeft(s: Db, registry: set<string>, now: Time, cursor: Option<Cursor>)
    requires RowsOk(s.tasks) && IsFirst(Passing(s, registry, now, cursor), registry, now, cursor, {}, None)
    ensures forall u | Candidate(s, registry, u, now) :: !Beyond(cursor, s.tasks[u])
    ensures RefusedUpTo(s, registry, now, cursor) == AllRefused(s, registry, now)
  {
    hide Candidate, Passing, RowGuard, Protocol.Admission, RowsOk;
    CandidatesAreTasks(s, registry, now);
    forall u | Candidate(s, registry, u, now) ensures !Beyond(cursor, s.tasks[u]) {
      PassingKeeps(s, registry, now, cursor, u);
    }
  }

  /** The winner: all candidates before it were passed, none of them admitted. */
  lemma FirstWins(s: Db, registry: set<string>, now: Time, cursor: Option<Cursor>, t: TaskId)
    requires RowsOk(s.tasks) && NonePassed(s, registry, now, cursor) && Protocol.Admission(s, t) == Usage.Admitted
    requires IsFirst(Passing(s, registry, now, cursor), registry, now, cursor, {}, Some(t))
    ensures Wins(s, registry, now, t)
    ensures RefusedUpTo(s, registry, now, cursor) == RefusedBefore(s, registry, now, s.tasks[t])
  {
    hide Protocol.Admission, Candidate, Passing, RowGuard, RowsOk, IsFirst;
    CursorStep(s, registry, now, cursor, t);
    CandidatesAreTasks(s, registry, now);
    forall u | Candidate(s, registry, u, now) && Protocol.Admission(s, u) == Usage.Admitted
      ensures u == t || Before(s.tasks[t], s.tasks[u])
    {
      assert Beyond(cursor, s.tasks[u]);
    }
  }

  // ---------------------------------------------------------------- the cursor advances

  ghost function Ahead(s: Db, registry: set<string>, now: Time, cursor: Option<Cursor>): set<TaskId> {
    set t | t in s.tasks && Candidate(s, registry, t, now) && Beyond(cursor, s.tasks[t])
  }

  lemma {:induction false} KeepCardinality(a: set<TaskId>, b: set<TaskId>)
    requires a <= b
    ensures |a| <= |b|
    decreases b
  {
    if b != {} {
      var t :| t in b;
      KeepCardinality(a - {t}, b - {t});
    }
  }

  lemma FewerAhead(s: Db, registry: set<string>, now: Time, cursor: Option<Cursor>, t: TaskId)
    requires t in s.tasks && Candidate(s, registry, t, now) && Beyond(cursor, s.tasks[t])
    ensures |Ahead(s, registry, now, At(s.tasks[t]))| < |Ahead(s, registry, now, cursor)|
  {
    hide Candidate;
    var a, b := Ahead(s, registry, now, At(s.tasks[t])), Ahead(s, registry, now, cursor);
    assert a <= b - {t};
    KeepCardinality(a, b - {t});
  }

  // ---------------------------------------------------------------- the loop

  /** The rule that the loop refines. */
  ghost predicate ClaimsFirst(s: Db, s': Db, registry: set<string>, now: Time, owner: string, session: SessionId,
                              claimed: Option<TaskId>)
  {
    match claimed
    case None =>
      && (forall t :: !Wins(s, registry, now, t))
      && (forall t | Candidate(s, registry, t, now) :: Protocol.Admission(s, t) != Usage.Admitted)
      && s' == s.(tasks := Failing(s.tasks, AllRefused(s, registry, now)))
    case Some(t) =>
      && Wins(s, registry, now, t)
      && var m := s.(tasks := Failing(s.tasks, RefusedBefore(s, registry, now, s.tasks[t])));
         && t in m.tasks && RowGuard(m.tasks[t], RefuseBudget)
         && s' == AfterClaim(m, t, owner, Some(session))
  }

  method ClaimNext(db: Database, registry: set<string>, session: SessionId, owner: string, now: Time)
    returns (reply: Reply<Option<TaskId>>)
    requires db.Valid()
    modifies db
    ensures reply.Ok? <==> Claimable(old(db.State()), session, now)
    ensures reply == Rejected(WorkerNotReady) <==> WorkerRegistry.NotReady(old(db.State()), session, now)
    ensures if reply.Ok? then ClaimsFirst(old(db.State()), db.State(), registry, now, owner, session, reply.value)
            else db.State() == old(db.State())
    ensures reply.Ok? <==> old(InCharge(db.State(), session, now))
    ensures reply.Ok? ==> TakesFirst(old(db.State()), db.State(), registry, now, owner, session, reply.value)
    ensures db.Valid() && Reaches(old(db.State()), db.State())
  {
    hide Inv, Reaches, Passing, NonePassed, ClaimsFirst, Claimed, Claims, Ahead, IsFirst, Claimable, WorkerRegistry.NotReady,
      TakesFirst, InCharge, StillReady, StartedTo;
    InChargeExactly(db.State(), session, now);
    var claimable := WorkerRegistry.RequireClaimable(db, session, now);
    ReachesSelf(db.State());
    if claimable.Rejected? { return Rejected(claimable.failure); }
    var cursor: Option<Cursor> := None;
    ghost var s := db.State();
    StartOfLoop(s, registry, now);
    RowsOfInv(s);
    while true
      invariant db.State() == Passing(s, registry, now, cursor)
      invariant NonePassed(s, registry, now, cursor) && Reaches(s, db.State()) && Inv(db.State())
      decreases |Ahead(s, registry, now, cursor)|
    {
      RowsOfInv(db.State());
      var first := FirstBeyond(db, registry, now, cursor);
      if first.None? {
        LoopEndsEmpty(s, registry, now, cursor, owner, session);
        FirstIsTaken(s, db.State(), registry, now, owner, session, None);
        return Ok(None);
      }
      var t := first.value;
      LoopStep(s, registry, now, cursor, owner, session, t);
      LoopReaches(s, db.State(), t, owner, session, now);
      var row := db.tasks[t];
      var claimed := TaskStore.Claim(db, t, Seen(row), owner, Some(session), now);
      if claimed.value.Some? {
        FirstIsTaken(s, db.State(), registry, now, owner, session, Some(t));
        return Ok(Some(t));
      }
      cursor := At(row);
    }
  }

  lemma ReadyExactly(s: Db, registry: set<string>, now: Time)
    requires Inv(s)
    ensures forall t :: Candidate(s, registry, t, now) <==> MayStart(s, registry, now, t)
    ensures forall t :: Protocol.Admission(s, t) == Usage.Admitted <==> Affordable(s, t)
    ensures forall t :: Protocol.Admission(s, t) == Usage.Refused <==> Unaffordable(s, t)
  {
    forall t
      ensures Candidate(s, registry, t, now) <==> MayStart(s, registry, now, t)
      ensures Protocol.Admission(s, t) == Usage.Admitted <==> Affordable(s, t)
      ensures Protocol.Admission(s, t) == Usage.Refused <==> Unaffordable(s, t)
    {
      hide Inv, Eligible, Waits, TooEarly, Protocol.Admission, Affordable, Unaffordable;
      EligibleExactly(s, t, now);
      AdmittedExactly(s, t);
    }
  }

  lemma FailedOrSame(tasks: map<TaskId, TaskRow>, failed: set<TaskId>, u: TaskId)
    requires u in tasks
    ensures u in failed && (tasks[u].status == Pending || tasks[u].status == Retrying) && !tasks[u].blocked ==>
              RefusedTo(tasks[u], Failing(tasks, failed)[u])
    ensures u !in failed ==> Failing(tasks, failed)[u] == tasks[u]
  {
    if u in failed && (tasks[u].status == Pending || tasks[u].status == Retrying) && !tasks[u].blocked {
      ClaimExactly(tasks[u], "", None);
    }
    hide RowApply, RefusedTo, StartedTo;
  }

  /** The rule in the terms of the tables. */
  lemma FirstIsTaken(s: Db, s': Db, registry: set<string>, now: Time, owner: string, session: SessionId,
                     claimed: Option<TaskId>)
    requires Inv(s) && ClaimsFirst(s, s', registry, now, owner, session, claimed)
    ensures TakesFirst(s, s', registry, now, owner, session, claimed)
  {
    hide Inv, Protocol.Admission, Affordable, Unaffordable, RefusedTo, StartedTo, Failing, RowApply;
    ReadyExactly(s, registry, now);
    match claimed
    case None =>
      forall u | u in s.tasks { FailedOrSame(s.tasks, AllRefused(s, registry, now), u); }
      hide Candidate, TooEarly, Wins, RowGuard;
    case Some(t) =>
      var failed := RefusedBefore(s, registry, now, s.tasks[t]);
      forall u | u in s.tasks { FailedOrSame(s.tasks, failed, u); }
      hide Candidate, TooEarly;
      ClaimExactly(s.tasks[t], owner, Some(session));
  }

  lemma LoopReaches(s: Db, m: Db, t: TaskId, owner: string, session: SessionId, now: Time)
    requires Reaches(s, m) && Inv(m) && t in m.tasks && Claimable(m, session, now)
    ensures var m' := Claimed(m, t, Seen(m.tasks[t]), owner, Some(session), now); Reaches(s, m') && Inv(m')
  {
    hide Reaches, Inv, Claimed, Claimable;
    var m' := Claimed(m, t, Seen(m.tasks[t]), owner, Some(session), now);
    ClaimedReaches(m, t, Seen(m.tasks[t]), owner, Some(session), now);
    ReachesInv(m, m');
    ReachesTransitive(s, m, m');
  }

  lemma RowsOfInv(s: Db)
    requires Inv(s)
    ensures RowsOk(s.tasks)
  {
  }

  lemma StartOfLoop(s: Db, registry: set<string>, now: Time)
    ensures s == Passing(s, registry, now, None) && NonePassed(s, registry, now, None)
  {
    assert RefusedUpTo(s, registry, now, None) == {};
    assert Failing(s.tasks, {}) == s.tasks;
  }

  lemma LoopEndsEmpty(s: Db, registry: set<string>, now: Time, cursor: Option<Cursor>, owner: string,
                      session: SessionId)
    requires RowsOk(s.tasks) && NonePassed(s, registry, now, cursor)
    requires IsFirst(Passing(s, registry, now, cursor), registry, now, cursor, {}, None)
    ensures ClaimsFirst(s, Passing(s, registry, now, cursor), registry, now, owner, session, None)
  {
    NothingLeft(s, registry, now, cursor);
    hide Protocol.Admission, Candidate, Failing;
  }

  /** One turn of the loop. */
  lemma LoopStep(s: Db, registry: set<string>, now: Time, cursor: Option<Cursor>, owner: string, session: SessionId,
                 t: TaskId)
    requires RowsOk(s.tasks) && NonePassed(s, registry, now, cursor) && Claimable(s, session, now)
    requires IsFirst(Passing(s, registry, now, cursor), registry, now, cursor, {}, Some(t))
    ensures var m := Passing(s, registry, now, cursor);
      && t in m.tasks && t in s.tasks && m.tasks[t] == s.tasks[t] && Claimable(m, session, now)
      && var m', at := Claimed(m, t, Seen(m.tasks[t]), owner, Some(session), now), At(m.tasks[t]);
         if Claims(m, t, Seen(m.tasks[t]), now)
         then ClaimsFirst(s, m', registry, now, owner, session, Some(t))
         else m' == Passing(s, registry, now, at) && NonePassed(s, registry, now, at)
              && |Ahead(s, registry, now, at)| < |Ahead(s, registry, now, cursor)|
  {
    hide Protocol.Admission, RowGuard, RowsOk, Failing;
    var m := Passing(s, registry, now, cursor);
    PassedOne(s, registry, now, cursor, t);
    PassingKeeps(s, registry, now, cursor, t);
    CursorStep(s, registry, now, cursor, t);
    SameClaims(s, registry, now, cursor, t, session);
    FewerAhead(s, registry, now, cursor, t);
    if Protocol.Admission(s, t) == Usage.Admitted {
      FirstWins(s, registry, now, cursor, t);
      hide Candidate, Eligible, AfterClaim, Claimable, Wins, IsFirst;
    } else {
      hide Eligible, Claimable, Passing, IsFirst, Beyond, SetRow;
      CandidatesAreTasks(s, registry, now);
    }
  }

  lemma SameClaims(s: Db, registry: set<string>, now: Time, cursor: Option<Cursor>, t: TaskId, session: SessionId)
    requires IsFirst(Passing(s, registry, now, cursor), registry, now, cursor, {}, Some(t)) && Claimable(s, session, now)
    ensures Claimable(Passing(s, registry, now, cursor), session, now)
    ensures Eligible(Passing(s, registry, now, cursor), t, now)
  {
  }
}
