/** The task journal: submission, claims and reports (`SQLiteTaskStore`). */
module TaskStore {
  import opened Types
  import opened Rows
  import opened Protocol
  import opened Invariants
  import opened Reachable
  import opened Tables
  import Usage
  import LlmUsage
  import opened ClaimLaws
  import opened RowLaws
  import WorkerRegistry

  /** The number `MAX(sequence) + 1`. */
  ghost predicate IsNext(tasks: map<TaskId, TaskRow>, sequence: nat) {
    && (forall t | t in tasks :: tasks[t].sequence < sequence)
    && (tasks == map[] ==> sequence == 1)
    && (tasks != map[] ==> exists t | t in tasks :: tasks[t].sequence + 1 == sequence)
  }

  method NextSequence(db: Database) returns (sequence: nat)
    ensures IsNext(db.tasks, sequence)
  {
    sequence := 1;
    var todo := db.tasks.Keys;
    while todo != {}
      invariant todo <= db.tasks.Keys
      invariant forall t | t in db.tasks && t !in todo :: db.tasks[t].sequence < sequence
      invariant todo != db.tasks.Keys ==> exists t | t in db.tasks :: t !in todo && db.tasks[t].sequence < sequence
      invariant sequence == 1 || exists t | t in db.tasks :: db.tasks[t].sequence + 1 == sequence
    {
      var t :| t in todo;
      if sequence <= db.tasks[t].sequence { sequence := db.tasks[t].sequence + 1; }
      todo := todo - {t};
    }
    if db.tasks != map[] && sequence == 1 {
      var t :| t in db.tasks && db.tasks[t].sequence < sequence;
      assert db.tasks[t].sequence + 1 == sequence;
    }
  }

  // ---------------------------------------------------------------- submission

  const WORD := 0x8000_0000_0000_0000

  function Capped(def: TaskDef, limit: int): int {
    if def.maxRetries.Some? && def.maxRetries.value < limit then def.maxRetries.value else limit
  }

  predicate Storable(def: TaskDef, retryLimit: int) {
    -WORD <= def.priority < WORD && 0 <= retryLimit && Capped(def, retryLimit) < WORD
  }

  /** Priority and retry limit fit the signed 64-bit columns; a limit that is too large is all right if the task itself
      has a cap that fits. */
  predicate FitsColumns(def: TaskDef, retryLimit: int) {
    && -9_223_372_036_854_775_808 <= def.priority <= 9_223_372_036_854_775_807 && 0 <= retryLimit
    && (retryLimit <= 9_223_372_036_854_775_807 ||
        (def.maxRetries.Some? && def.maxRetries.value <= 9_223_372_036_854_775_807))
  }

  lemma StorableExactly(def: TaskDef, retryLimit: int)
    ensures Storable(def, retryLimit) <==> FitsColumns(def, retryLimit)
  {
  }

  /** Submitting the same definition twice finds the first row; another definition is a conflict. */
  method Submit(db: Database, registry: set<string>, t: TaskId, def: TaskDef, retryLimit: int)
    returns (reply: Reply<TaskRow>)
    modifies db
    ensures reply.Ok? <==> Storable(def, retryLimit) && def.handler in registry && (t in old(db.tasks) ==> old(db.tasks)[t].def == def)
    ensures reply == Rejected(IdempotencyConflict) <==>
              Storable(def, retryLimit) && def.handler in registry && t in old(db.tasks) && old(db.tasks)[t].def != def
    ensures reply.Ok? ==> t in db.tasks && reply.value == db.tasks[t]
    ensures if reply.Ok? && t !in old(db.tasks)
            then IsNext(old(db.tasks), db.tasks[t].sequence) &&
                 db.State() == StoreApply(old(db.State()), SubmitTask(t, def, retryLimit, db.tasks[t].sequence))
            else db.State() == old(db.State())
    ensures reply.Ok? <==> FitsColumns(def, retryLimit) && def.handler in registry && (t in old(db.tasks) ==> old(db.tasks)[t].def == def)
    ensures reply.Ok? && t !in old(db.tasks) ==> SubmittedAs(reply.value, def, retryLimit, false)
  {
    StorableExactly(def, retryLimit);
    if retryLimit < 0 { return Rejected(InvalidArgument); }
    var limit := Capped(def, retryLimit);
    if !(-WORD <= def.priority < WORD) { return Rejected(InvalidArgument); }
    if def.handler !in registry { return Rejected(MissingHandler); }
    reply := Insert(db, t, def, limit, false);
  }

  /** `_submit`, also used for the nodes of a workflow. */
  method Insert(db: Database, t: TaskId, def: TaskDef, retryLimit: int, blocked: bool) returns (reply: Reply<TaskRow>)
    modifies db
    ensures reply.Ok? <==> 0 <= Capped(def, retryLimit) < WORD && (t in old(db.tasks) ==> old(db.tasks)[t].def == def)
    ensures reply == Rejected(IdempotencyConflict) <==>
              0 <= Capped(def, retryLimit) < WORD && t in old(db.tasks) && old(db.tasks)[t].def != def
    ensures reply.Ok? ==> t in db.tasks && reply.value == db.tasks[t]
    ensures if reply.Ok? && t !in old(db.tasks)
            then && IsNext(old(db.tasks), db.tasks[t].sequence)
                 && db.State() == old(db.State()).(
                      tasks := old(db.tasks)[t := NewRow(def, Capped(def, retryLimit), blocked, db.tasks[t].sequence)])
            else db.State() == old(db.State())
  {
    var limit := Capped(def, retryLimit);
    if !(0 <= limit < WORD) { return Rejected(InvalidArgument); }
    if t in db.tasks {
      if db.tasks[t].def != def { return Rejected(IdempotencyConflict); }
      return Ok(db.tasks[t]);
    }
    var sequence := NextSequence(db);
    var row := TaskRow(sequence, def, Pending, 0, 0, None, None, None, None, None, limit, None, blocked, []);
    row := row.(log := row.log + [Event(Created, row.status, 0, 0, NoDetail)]);
    row := row.(log := row.log + [Event(Submitted, row.status, 0, 0, NoDetail)]);
    assert row.log == [Event(Created, Pending, 0, 0, NoDetail), Event(Submitted, Pending, 0, 0, NoDetail)];
    db.tasks := db.tasks[t := row];
    return Ok(row);
  }

  // ---------------------------------------------------------------- claims

  /** What the caller of `claim` knows of the task. */
  datatype Snapshot = Snapshot(status: Status, attempts: nat, retries: nat)

  function Seen(r: TaskRow): Snapshot { Snapshot(r.status, r.attempts, r.retries) }

  /** `CLAIM_GUARD`. */
  method IsHeld(db: Database, t: TaskId) returns (held: bool)
    ensures held <==> Held(db.State(), t)
  {
    held := TaskScope(t) in HoldScopes(db.holds)
      || (t in db.nodes && t.NodeTask? && WorkflowScope(t.workflow) in HoldScopes(db.holds));
  }

  function HoldScopes(holds: set<Hold>): set<Scope> { set h | h in holds :: h.scope }

  /** What claiming does: it starts one attempt exactly when the row is still the one that was seen,
      is eligible and is admitted by its budget; a refused one fails instead. */
  ghost function Claimed(s: Db, t: TaskId, seen: Snapshot, owner: string, session: Option<SessionId>, now: Time): Db {
    if !Eligible(s, t, now) || Seen(s.tasks[t]) != seen || Protocol.Admission(s, t) == Usage.MustWait then s
    else if Protocol.Admission(s, t) == Usage.Refused then SetRow(s, t, RefuseBudget)
    else AfterClaim(s, t, owner, session)
  }

  ghost predicate Claims(s: Db, t: TaskId, seen: Snapshot, now: Time) {
    Eligible(s, t, now) && Seen(s.tasks[t]) == seen && Protocol.Admission(s, t) == Usage.Admitted
  }

  /** The task may be started and affords it, and nobody was faster. */
  ghost predicate StillReady(s: Db, t: TaskId, seen: Snapshot, now: Time) {
    && Waits(s, t) && !TooEarly(s.tasks[t], now) && Affordable(s, t)
    && s.tasks[t].status == seen.status && s.tasks[t].attempts == seen.attempts && s.tasks[t].retries == seen.retries
  }

  lemma ClaimsExactly(s: Db, t: TaskId, seen: Snapshot, now: Time)
    requires Inv(s)
    ensures Claims(s, t, seen, now) <==> StillReady(s, t, seen, now)
  {
    hide Inv, Protocol.Admission, Affordable;
    EligibleExactly(s, t, now);
    AdmittedExactly(s, t);
  }

  method IsEligible(db: Database, t: TaskId, now: Time) returns (eligible: bool)
    ensures eligible <==> Eligible(db.State(), t, now)
  {
    var held := IsHeld(db, t);
    eligible := t in db.tasks && (db.tasks[t].status == Pending || db.tasks[t].status == Retrying)
      && !db.tasks[t].blocked && !held && Due(db.tasks[t], now);
  }

  /** `_claim`. */
  method Claim(db: Database, t: TaskId, seen: Snapshot, owner: string, session: Option<SessionId>, now: Time)
    returns (reply: Reply<Option<TaskRow>>)
    requires db.Valid()
    modifies db
    ensures reply.Ok? <==> (session.Some? ==> Claimable(old(db.State()), session.value, now))
    ensures !reply.Ok? ==> db.State() == old(db.State())
    ensures reply.Ok? ==> db.State() == Claimed(old(db.State()), t, seen, owner, session, now)
    ensures reply.Ok? ==> (reply.value.Some? <==> Claims(old(db.State()), t, seen, now))
    ensures reply.Ok? && reply.value.Some? ==> t in db.tasks && reply.value.value == db.tasks[t]
    ensures reply.Ok? <==> (session.Some? ==> old(InCharge(db.State(), session.value, now)))
    ensures reply.Ok? ==> (reply.value.Some? <==> old(StillReady(db.State(), t, seen, now)))
    ensures reply.Ok? && reply.value.Some? ==> t in old(db.tasks) && StartedTo(old(db.tasks)[t], db.tasks[t], owner, session)
  {
    hide Inv, Protocol.Admission, Claimable, Eligible, AdmittedAfter, InCharge, StillReady, StartedTo;
    if session.Some? { InChargeExactly(db.State(), session.value, now); }
    ClaimsExactly(db.State(), t, seen, now);
    if session.Some? {
      var claimable := WorkerRegistry.RequireClaimable(db, session.value, now);
      if claimable.Rejected? { return Rejected(claimable.failure); }
    }
    var eligible := IsEligible(db, t, now);
    if !eligible { return Ok(None); }
    EligibleRow(db.State(), t, now);
    if Seen(db.tasks[t]) != seen { return Ok(None); }
    var admitted := LlmUsage.AdmitLlm(db, t);
    if !admitted { return Ok(None); }
    var row := StartAttempt(db, t, owner, session);
    return Ok(Some(row));
  }

  /** The update of `_claim`; the call of the attempt is alive from here on. */
  method StartAttempt(db: Database, t: TaskId, owner: string, session: Option<SessionId>) returns (row: TaskRow)
    requires t in db.tasks && RowGuard(db.tasks[t], RefuseBudget)
    modifies db
    ensures db.State() == AfterClaim(old(db.State()), t, owner, session)
    ensures t in db.tasks && row == db.tasks[t] && StartedTo(old(db.tasks)[t], row, owner, session)
  {
    ghost var s := db.State();
    var r := db.tasks[t];
    hide StartedTo, AdmittedAfter, RowApply, RowGuard;
    RowToStart(r, owner, session);
    row := r.(status := Running, owner := Some(owner), session := session, attempts := r.attempts + 1,
              result := None, error := None, retryAt := None);
    row := row.(log := row.log + [Event(Started, row.status, row.attempts, row.retries, NoDetail)]);
    db.tasks := db.tasks[t := row];
    db.live := db.live + {Invocation(t, row.attempts, owner, session)};
    db.claims := db.claims[Case(t, row.attempts) := row];
    db.admitted := AdmittedAfter(s, t, Case(t, row.attempts));
  }

  lemma RowToStart(r: TaskRow, owner: string, session: Option<SessionId>)
    requires RowGuard(r, RefuseBudget)
    ensures RowGuard(r, Start(owner, session)) && StartedTo(r, RowApply(r, Start(owner, session)), owner, session)
    ensures RowApply(r, Start(owner, session)) ==
              r.(status := Running, owner := Some(owner), session := session, attempts := r.attempts + 1, result := None, error := None,
                 retryAt := None, log := r.log + [Event(Started, Running, r.attempts + 1, r.retries, NoDetail)])
  {
    ClaimExactly(r, owner, session);
  }

  /** Claiming is one step of the protocol, or none. */
  lemma ClaimedReaches(s: Db, t: TaskId, seen: Snapshot, owner: string, session: Option<SessionId>, now: Time)
    requires session.Some? ==> Claimable(s, session.value, now)
    ensures Reaches(s, Claimed(s, t, seen, owner, session, now))
  {
    ReachesSelf(s);
    if Eligible(s, t, now) {
      EligibleRow(s, t, now);
      hide Reaches, Protocol.Admission, Claimable, Eligible, AfterClaim, SetRow;
      var claim, refuse := StoreAction.Claim(t, owner, session, now), Refuse(t, now);
      if StoreGuard(s, claim) { ReachesStep(s, s, ByStore(claim)); }
      if StoreGuard(s, refuse) { ReachesStep(s, s, ByStore(refuse)); }
    }
  }

  lemma EligibleRow(s: Db, t: TaskId, now: Time)
    requires Eligible(s, t, now)
    ensures t in s.tasks && RowGuard(s.tasks[t], RefuseBudget)
  {
  }

  // ---------------------------------------------------------------- the next task

  ghost predicate Candidate(s: Db, registry: set<string>, t: TaskId, now: Time) {
    t in s.tasks && Eligible(s, t, now) && s.tasks[t].def.handler in registry
  }

  /** The order of dispatch: higher priority first, then the smaller sequence number. */
  predicate Before(r: TaskRow, q: TaskRow) {
    r.def.priority > q.def.priority || (r.def.priority == q.def.priority && r.sequence < q.sequence)
  }

  datatype Cursor = Cursor(priority: int, sequence: nat)

  predicate Beyond(cursor: Option<Cursor>, r: TaskRow) {
    cursor.None? || r.def.priority < cursor.value.priority ||
    (r.def.priority == cursor.value.priority && r.sequence > cursor.value.sequence)
  }

  /** The query of `claim_next`: the first candidate beyond the cursor. */
  ghost predicate IsFirst(s: Db, registry: set<string>, now: Time, cursor: Option<Cursor>, todo: set<TaskId>,
                          first: Option<TaskId>)
  {
    match first
    case None => forall t | Candidate(s, registry, t, now) && t !in todo :: !Beyond(cursor, s.tasks[t])
    case Some(f) =>
      && Candidate(s, registry, f, now) && Beyond(cursor, s.tasks[f])
      && forall t | Candidate(s, registry, t, now) && t !in todo && Beyond(cursor, s.tasks[t]) ::
           t == f || Before(s.tasks[f], s.tasks[t])
  }

  method IsCandidate(db: Database, registry: set<string>, t: TaskId, now: Time) returns (candidate: bool)
    ensures candidate <==> Candidate(db.State(), registry, t, now)
  {
    var eligible := IsEligible(db, t, now);
    candidate := eligible && db.tasks[t].def.handler in registry;
  }

  method FirstBeyond(db: Database, registry: set<string>, now: Time, cursor: Option<Cursor>)
    returns (first: Option<TaskId>)
    requires RowsOk(db.tasks)
    ensures IsFirst(db.State(), registry, now, cursor, {}, first)
  {
    hide Eligible, RowInv;
    first := None;
    var todo := db.tasks.Keys;
    while todo != {}
      invariant todo <= db.tasks.Keys && IsFirst(db.State(), registry, now, cursor, todo, first)
    {
      var t :| t in todo;
      todo := todo - {t};
      var candidate := IsCandidate(db, registry, t, now);
      if candidate && Beyond(cursor, db.tasks[t]) && (first.None? || Before(db.tasks[t], db.tasks[first.value])) {
        first := Some(t);
      }
    }
  }
}
