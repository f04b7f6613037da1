/** The end of an attempt: reports of the local executor and of remote workers (`finish`, `_finish`),
    and recovery of interrupted rows (`_recover_rows`). */
module Outcomes {
  import opened Types
  import opened Rows
  import opened Protocol
  import opened Invariants
  import opened Tables
  import opened TaskStore
  import opened RowLaws

  // ---------------------------------------------------------------- finish

  /** The fields of a task object that `finish` writes. */
  datatype Ended = Ended(
    status: Status,
    retries: nat,
    result: Option<Json>,
    error: Option<Error>,
    lastError: Option<Error>,
    retryAt: Option<Time>)

  function EndOf(r: TaskRow): Ended {
    Ended(r.status, r.retries, r.result, r.error, r.lastError, r.retryAt)
  }

  predicate Reportable(e: Ended) {
    || (e.status == Success && e.result.Some?)
    || e.status == Status.Failed
    || (e.status == Retrying && 1 <= e.retries)
  }

  function Entered(r: TaskRow, e: Ended): seq<Event>
    requires Reportable(e)
  {
    if e.status == Success then [Event(Succeeded, Success, r.attempts, e.retries, Output(e.result.value))]
    else if e.status == Retrying then
      [Event(FailedEvent, Status.Failed, r.attempts, e.retries - 1, NoDetail),
       Event(RetryScheduled, Retrying, r.attempts, e.retries, NoDetail)]
    else [Event(FailedEvent, Status.Failed, r.attempts, e.retries, NoDetail)]
  }

  function Written(r: TaskRow, e: Ended, sequence: nat): TaskRow
    requires Reportable(e)
  {
    r.(status := e.status, retries := e.retries, result := e.result, error := e.error, lastError := e.lastError,
       retryAt := e.retryAt, owner := None, session := None, sequence := sequence, log := r.log + Entered(r, e))
  }

  /** The attempt is the running one, it was claimed by this owner, and its session, if it has one, is neither fenced
      nor stopped. */
  predicate MayReport(tasks: map<TaskId, TaskRow>, sessions: map<SessionId, SessionRow>, t: TaskId, owner: string,
                      attempt: nat)
  {
    && t in tasks && tasks[t].status == Running && tasks[t].attempts == attempt && tasks[t].owner == Some(owner)
    && (tasks[t].session.Some? ==>
          && tasks[t].session.value in sessions
          && sessions[tasks[t].session.value].state != Fenced && sessions[tasks[t].session.value].state != Stopped)
  }

  lemma ReportsExactly(s: Db, t: TaskId, owner: string, attempt: nat)
    ensures Committable(s, t, owner, attempt) <==> MayReport(s.tasks, s.sessions, t, owner, attempt)
    ensures Committable(s, t, owner, attempt) <==>
              && t in s.tasks && s.tasks[t].status == Running && s.tasks[t].owner == Some(owner) && s.tasks[t].attempts == attempt
              && (s.tasks[t].session.Some? ==>
                    s.tasks[t].session.value in s.sessions
                    && s.sessions[s.tasks[t].session.value].state in {ActiveSession, Suspect, Stopping})
  {
  }

  /** `finish`: only the exact owner of the running attempt, with its session still entitled, may write. */
  method Finish(db: Database, t: TaskId, owner: string, attempt: nat, e: Ended) returns (reply: Reply<Unit>)
    requires Reportable(e)
    modifies db
    ensures reply.Ok? <==> old(Committable(db.State(), t, owner, attempt))
    ensures reply.Ok? <==> old(MayReport(db.tasks, db.sessions, t, owner, attempt))
    ensures !reply.Ok? ==> reply == Rejected(StaleExecution) && db.State() == old(db.State())
    ensures reply.Ok? ==>
      && t in db.tasks && IsNext(old(db.tasks), db.tasks[t].sequence)
      && db.State() == old(db.State()).(tasks := old(db.tasks)[t := Written(old(db.tasks)[t], e, db.tasks[t].sequence)])
  {
    hide Committable, MayReport;
    ReportsExactly(db.State(), t, owner, attempt);
    if t !in db.tasks { return Rejected(StaleExecution); }
    var r := db.tasks[t];
    if r.status != Running || r.owner != Some(owner) || r.attempts != attempt { return Rejected(StaleExecution); }
    if r.session.Some? &&
       !(r.session.value in db.sessions && db.sessions[r.session.value].state in {ActiveSession, Suspect, Stopping}) {
      return Rejected(StaleExecution);
    }
    var sequence := NextSequence(db);
    var row := r.(status := e.status, retries := e.retries, result := e.result, error := e.error, lastError := e.lastError,
                  retryAt := e.retryAt, owner := None, session := None, sequence := sequence);
    if e.status == Success {
      row := row.(log := row.log + [Event(Succeeded, row.status, row.attempts, row.retries, Output(e.result.value))]);
    } else {
      var retrying := e.status == Retrying;
      var before := e.retries - (if retrying then 1 else 0);
      row := row.(log := row.log + [Event(FailedEvent, Status.Failed, row.attempts, before, NoDetail)]);
      if retrying {
        row := row.(log := row.log + [Event(RetryScheduled, row.status, row.attempts, row.retries, NoDetail)]);
        assert row.log == r.log + Entered(r, e);
      }
    }
    db.tasks := db.tasks[t := row];
    return Ok(Unit);
  }

  // ---------------------------------------------------------------- the two reporters

  /** What the business call did. A vetoed failure is one that must not be repeated. */
  datatype CallResult = Returned(json: Json) | Raised(error: Error, veto: bool)

  function ReportAction(outcome: CallResult, via: Committer, now: Time, delay: nat, sequence: nat): RowAction {
    match outcome
    case Returned(json) => FinishSuccess(json, sequence)
    case Raised(error, veto) => FinishFailure(error, veto, via, now, delay, sequence)
  }

  /** `begin_retry` of the retry policy on the object of a failed task. */
  function BeginRetry(e: Ended, now: Time, delay: nat): Ended {
    e.(status := Retrying, retries := e.retries + 1, lastError := if e.error.Some? then e.error else e.lastError,
       retryAt := if delay == 0 then None else Some(now + delay))
  }

  /** `_execute` after the call, on the row that the claim returned. */
  method ExecutorOutcome(claimed: TaskRow, outcome: CallResult, now: Time, delay: nat) returns (e: Ended)
    requires claimed.status == Running && claimed.retryAt.None?
    ensures forall sequence :: EndOf(Columns(claimed, ReportAction(outcome, LocalExecutor, now, delay, sequence))) == e
    ensures Reportable(e)
  {
    e := EndOf(claimed).(result := None, error := None);
    match outcome {
      case Returned(json) => e := e.(status := Success, result := Some(json));
      case Raised(error, veto) =>
        e := e.(status := Status.Failed, result := Some(Null), error := Some(error));
        if !veto && e.retries < claimed.retryLimit && Retryable(error.category) && e.retries < LimitFor(claimed) {
          e := BeginRetry(e, now, delay);
        }
    }
  }

  // ---------------------------------------------------------------- failures that remote workers report

  /** The portable form of a failure. The fields beyond the first two may be missing, and `elapsed` may be null. */
  datatype RemoteFailure = RemoteFailure(
    kind: string,
    nonRetryable: bool,
    timeout: Option<Time>,
    elapsed: Option<Option<Time>>,
    category: Option<string>,
    retryable: Option<bool>)

  datatype RemoteOutcome = Delivered(json: Json) | Broken(report: RemoteFailure)

  function CategoryNamed(name: string): Option<Category> {
    match name
    case "permanent" => Some(Permanent)
    case "transient" => Some(Transient)
    case "uncertain" => Some(Uncertain)
    case _ => None
  }

  /** The report of a soft timeout, from which the service builds the timeout error again. */
  predicate TimedOut(report: RemoteFailure) {
    report.kind == "TaskTimeoutError" && report.timeout.Some? && report.elapsed.Some?
  }

  /** Failures that the service must not repeat even if their worker did not say so. */
  const CONTROL_FAILURES := {"PersistenceError", "StaleExecutionError", "RemoteTransportError"}

  /** What is known of the arguments of a failed call that reached outside. */
  const ARGUMENT_FAILURES := {"ValueError", "TypeError", "LLMOutputError"}

  predicate Portable(outcome: RemoteOutcome) {
    outcome.Broken? ==>
      var report := outcome.report;
      && (TimedOut(report) ==> 0 < report.timeout.value && report.elapsed.value.Some? && 0 <= report.elapsed.value.value)
      && (report.category.Some? ==>
            var category := CategoryNamed(report.category.value);
            category.Some? && (report.retryable.Some? ==> (report.retryable.value <==> category.value == Transient)))
  }

  /** `classify_task_failure`: what the worker says counts; else only calls that reach outside are classified. */
  function CategoryOf(report: RemoteFailure, external: bool): Option<Category> {
    if report.category.Some? then CategoryNamed(report.category.value)
    else if !external then None
    else if report.kind in ARGUMENT_FAILURES then Some(Permanent)
    else Some(Uncertain)
  }

  /** The failure that the service works with. */
  function ResultOf(outcome: RemoteOutcome, external: bool): CallResult {
    match outcome
    case Delivered(json) => Returned(json)
    case Broken(report) =>
      var veto := !TimedOut(report) && (report.nonRetryable || report.kind in CONTROL_FAILURES);
      var name := if TimedOut(report) then "TaskTimeoutError" else if veto then "PersistenceError" else "StoredTaskError";
      Raised(Error(name, CategoryOf(report, external)), veto)
  }

  predicate SoftTimeout(report: RemoteFailure) {
    report.kind == "TaskTimeoutError" && report.timeout.Some? && report.elapsed.Some?
  }

  predicate Vetoed(report: RemoteFailure) {
    || report.nonRetryable || report.kind == "PersistenceError" || report.kind == "StaleExecutionError"
    || report.kind == "RemoteTransportError"
  }

  /** Which reported failures are repeated: soft timeouts and those without a veto, if their category is transient or
      there is none because the call does not reach outside, while retries are left. */
  predicate RepeatsRemote(row: TaskRow, report: RemoteFailure, external: bool) {
    && (SoftTimeout(report) || !Vetoed(report))
    && (if report.category.Some? then report.category.value == "transient" else !external)
    && RetryLeft(row)
  }

  /** The error that is stored. */
  predicate StoredError(report: RemoteFailure, external: bool, error: Error) {
    && error.name == (if SoftTimeout(report) then "TaskTimeoutError" else if Vetoed(report) then "PersistenceError" else "StoredTaskError")
    && match report.category
       case Some(name) =>
         && (name == "permanent" ==> error.category == Some(Permanent)) && (name == "transient" ==> error.category == Some(Transient))
         && (name == "uncertain" ==> error.category == Some(Uncertain))
       case None =>
         && (error.category.None? <==> !external) && error.category != Some(Transient)
         && (error.category == Some(Permanent) <==>
               external && (report.kind == "ValueError" || report.kind == "TypeError" || report.kind == "LLMOutputError"))
  }

  /** The row that a report of a remote worker leaves. */
  ghost predicate ReportedTo(row: TaskRow, row': TaskRow, outcome: RemoteOutcome, external: bool, now: Time,
                             delay: nat) {
    match outcome
    case Delivered(json) => SucceededTo(row, row', json)
    case Broken(report) =>
      exists error :: StoredError(report, external, error) && FailedTo(row, row', error, RepeatsRemote(row, report, external), now, delay)
  }

  /** A report that no failure can be built from: a soft timeout whose times make no sense, an unknown category, or a
      category that contradicts what the report says about retries. */
  predicate Malformed(report: RemoteFailure) {
    || (SoftTimeout(report) &&
          (report.timeout.value <= 0 || report.elapsed.value.None? || report.elapsed.value.value < 0))
    || (report.category.Some? &&
          report.category.value != "permanent" && report.category.value != "transient" && report.category.value != "uncertain")
    || (report.category.Some? && report.retryable.Some? && report.retryable.value != (report.category.value == "transient"))
  }

  /** A failure that a worker reports is repeated in exactly these cases. The veto of a worker is lost if it reports a
      soft timeout. */
  lemma ReportExactly(row: TaskRow, outcome: RemoteOutcome, external: bool, now: Time, delay: nat, sequence: nat)
    requires row.status == Running
    ensures Portable(outcome) <==> !(outcome.Broken? && Malformed(outcome.report))
    ensures var a := ReportAction(ResultOf(outcome, external), RemoteService, now, delay, sequence);
      RowGuard(row, a) && (Portable(outcome) ==> ReportedTo(row, RowApply(row, a), outcome, external, now, delay))
  {
    hide RowApply, SucceededTo, FailedTo;
    match outcome
    case Delivered(json) => SuccessExactly(row, json, sequence);
    case Broken(report) =>
      Categories(report, external);
      var result := ResultOf(outcome, external);
      RemoteFailureExactly(row, result.error, result.veto, now, delay, sequence);
  }

  /** The classification of a portable report. */
  lemma Categories(report: RemoteFailure, external: bool)
    ensures Portable(Broken(report)) <==> !Malformed(report)
    ensures !Malformed(report) ==>
      var result := ResultOf(Broken(report), external);
      && StoredError(report, external, result.error)
      && (!result.veto <==> SoftTimeout(report) || !Vetoed(report))
      && (result.error.category.None? || result.error.category == Some(Transient) <==>
            if report.category.Some? then report.category.value == "transient" else !external)
  {
    if report.category.Some? { NamesDiffer(report.category.value); }
  }

  lemma NamesDiffer(name: string)
    ensures CategoryNamed(name) == Some(Permanent) <==> name == "permanent"
    ensures CategoryNamed(name) == Some(Transient) <==> name == "transient"
    ensures CategoryNamed(name) == Some(Uncertain) <==> name == "uncertain"
  {
    assert "permanent"[0] == 'p' && "transient"[0] == 't' && "uncertain"[0] == 'u';
  }

  /** In particular a vetoed failure is repeated if and only if it is reported as a soft timeout, of the right category,
      with retries left. */
  lemma VetoedRetriesExactly(row: TaskRow, report: RemoteFailure, external: bool, now: Time, delay: nat, sequence: nat)
    requires row.status == Running && !Malformed(report) && report.nonRetryable
    ensures var a := ReportAction(ResultOf(Broken(report), external), RemoteService, now, delay, sequence);
      RowGuard(row, a) &&
      (RowApply(row, a).status == Retrying <==>
         && report.kind == "TaskTimeoutError" && report.timeout.Some? && report.elapsed.Some?
         && (if report.category.Some? then report.category.value == "transient" else !external)
         && (row.retries < row.retryLimit || (row.def.maxRetries.Some? && row.retries < row.def.maxRetries.value)))
  {
    ReportExactly(row, Broken(report), external, now, delay, sequence);
    hide RowApply, Portable, ResultOf;
  }

  /** The failure that a report stands for, unless the report is not portable. */
  method Restored(report: RemoteFailure, external: bool) returns (reply: Reply<CallResult>)
    ensures reply.Ok? <==> Portable(Broken(report))
    ensures reply.Ok? ==> reply.value == ResultOf(Broken(report), external)
    ensures reply.Rejected? ==> reply.failure == InvalidArgument
  {
    var veto := report.nonRetryable || report.kind in CONTROL_FAILURES;
    var name := if veto then "PersistenceError" else "StoredTaskError";
    if report.kind == "TaskTimeoutError" && report.timeout.Some? && report.elapsed.Some? {
      if report.timeout.value <= 0 || report.elapsed.value.None? || report.elapsed.value.value < 0 {
        return Rejected(InvalidArgument);
      }
      veto, name := false, "TaskTimeoutError";
    }
    var category: Option<Category> := None;
    if report.category.Some? {
      category := CategoryNamed(report.category.value);
      if category.None? { return Rejected(InvalidArgument); }
      if report.retryable.Some? && report.retryable.value != (category.value == Transient) { return Rejected(InvalidArgument); }
    } else if external {
      category := Some(if report.kind in ARGUMENT_FAILURES then Permanent else Uncertain);
    }
    return Ok(Raised(Error(name, category), veto));
  }

  /** `RecoveryService._finish` on the row it read, between the two transactions. It refuses reports that are not
      portable, and it does not compare with the stored limit. */
  method ServiceOutcome(row: TaskRow, outcome: RemoteOutcome, external: bool, now: Time, delay: nat)
    returns (reply: Reply<Ended>)
    requires row.status == Running && row.retryAt.None?
    ensures reply.Ok? <==> Portable(outcome)
    ensures reply.Ok? ==>
      && Reportable(reply.value)
      && forall sequence ::
           EndOf(Columns(row, ReportAction(ResultOf(outcome, external), RemoteService, now, delay, sequence))) == reply.value
  {
    hide Portable, ResultOf;
    var e := EndOf(row).(error := None);
    match outcome {
      case Delivered(json) =>
        DeliveredIsPortable(json, external);
        return Ok(e.(status := Success, result := Some(json)));
      case Broken(report) =>
        var restored := Restored(report, external);
        if restored.Rejected? { return Rejected(restored.failure); }
        BrokenIsRaised(report, external);
        var error, veto := restored.value.error, restored.value.veto;
        e := e.(status := Status.Failed, result := Some(Null), error := Some(error));
        if !veto && Retryable(error.category) && e.retries < LimitFor(row) {
          e := BeginRetry(e, now, delay);
        }
        return Ok(e);
    }
  }

  lemma DeliveredIsPortable(json: Json, external: bool)
    ensures Portable(Delivered(json)) && ResultOf(Delivered(json), external) == Returned(json)
  {
  }

  lemma BrokenIsRaised(report: RemoteFailure, external: bool)
    ensures ResultOf(Broken(report), external).Raised?
  {
  }

  lemma WrittenIsApplied(r: TaskRow, outcome: CallResult, via: Committer, now: Time, delay: nat, sequence: nat)
    requires r.status == Running
    ensures var a := ReportAction(outcome, via, now, delay, sequence);
      var e := EndOf(Columns(r, a));
      RowGuard(r, a) && Reportable(e) && Written(r, e, sequence) == RowApply(r, a)
  {
    var a := ReportAction(outcome, via, now, delay, sequence);
    var e := EndOf(Columns(r, a));
    assert Entered(r, e) == Entries(r, a);
  }

  /** A row handed out by a claim is the row in the table for as long as its owner may report. */
  lemma ClaimedRowIsStored(s: Db, t: TaskId, owner: string, claimed: TaskRow)
    requires Inv(s) && Case(t, claimed.attempts) in s.claims && s.claims[Case(t, claimed.attempts)] == claimed
    requires Committable(s, t, owner, claimed.attempts)
    ensures s.tasks[t] == claimed
  {
    assert ClaimOk(s.tasks[t], t, s.claims, s.sessions);
  }

  ghost predicate HoldsClaim(db: Database, t: TaskId, claimed: TaskRow)
    reads db
  {
    && Case(t, claimed.attempts) in db.claims && db.claims[Case(t, claimed.attempts)] == claimed
    && claimed.status == Running && claimed.retryAt.None?
  }

  /** The executor in the claiming process reports the attempt that its claim returned: one Commit step
      of the protocol if the claim still stands, and nothing otherwise. */
  method CommitLocal(db: Database, t: TaskId, owner: string, claimed: TaskRow, outcome: CallResult, now: Time,
                     delay: nat)
    returns (reply: Reply<Unit>)
    requires db.Valid() && HoldsClaim(db, t, claimed)
    requires forall i | i in db.live :: i.task == t && i.attempt == claimed.attempts ==> i.owner != owner
    modifies db
    ensures reply.Ok? <==> old(Committable(db.State(), t, owner, claimed.attempts))
    ensures !reply.Ok? ==> db.State() == old(db.State())
    ensures reply.Ok? ==>
      && t in db.tasks
      && var a := Commit(t, owner, claimed.attempts, ReportAction(outcome, LocalExecutor, now, delay, db.tasks[t].sequence));
         StoreGuard(old(db.State()), a) && db.State() == StoreApply(old(db.State()), a)
    ensures reply.Ok? ==> t in old(db.tasks) && ExecutedTo(old(db.tasks)[t], db.tasks[t], outcome, now, delay)
  {
    hide Inv, Committable, MayReport, IsNext, ExecutedTo;
    ghost var s := db.State();
    var e := ExecutorOutcome(claimed, outcome, now, delay);
    reply := Finish(db, t, owner, claimed.attempts, e);
    if reply.Ok? {
      ExecutionExactly(s, t, owner, claimed.attempts, outcome, now, delay, db.tasks[t].sequence);
      ClaimedRowIsStored(s, t, owner, claimed);
      ReportIsCommit(s, t, owner, claimed.attempts, outcome, LocalExecutor, now, delay, db.tasks[t].sequence);
      CommitWrites(s, t, owner, claimed.attempts, ReportAction(outcome, LocalExecutor, now, delay, db.tasks[t].sequence));
    }
  }

  /** The row that the executor in the claiming process leaves. */
  ghost predicate ExecutedTo(r: TaskRow, r': TaskRow, outcome: CallResult, now: Time, delay: nat) {
    match outcome
    case Returned(json) => SucceededTo(r, r', json)
    case Raised(error, veto) =>
      FailedTo(r, r', error, !veto && (error.category.None? || error.category == Some(Transient)) && r.retries < r.retryLimit, now, delay)
  }

  lemma ExecutionExactly(s: Db, t: TaskId, owner: string, attempt: nat, outcome: CallResult, now: Time, delay: nat,
                         sequence: nat)
    requires Committable(s, t, owner, attempt)
    ensures var a := ReportAction(outcome, LocalExecutor, now, delay, sequence);
      RowGuard(s.tasks[t], a) && ExecutedTo(s.tasks[t], RowApply(s.tasks[t], a), outcome, now, delay)
  {
    hide RowApply, SucceededTo, FailedTo;
    match outcome
    case Returned(json) => SuccessExactly(s.tasks[t], json, sequence);
    case Raised(error, veto) => LocalFailureExactly(s.tasks[t], error, veto, now, delay, sequence);
  }

  lemma CommitWrites(s: Db, t: TaskId, owner: string, attempt: nat, finish: RowAction)
    requires StoreGuard(s, Commit(t, owner, attempt, finish))
    ensures t in s.tasks && RowGuard(s.tasks[t], finish)
    ensures StoreApply(s, Commit(t, owner, attempt, finish)).tasks[t] == RowApply(s.tasks[t], finish)
  {
    hide RowApply;
  }

  lemma ReportIsCommit(s: Db, t: TaskId, owner: string, attempt: nat, outcome: CallResult, via: Committer,
                       now: Time, delay: nat, sequence: nat)
    requires Committable(s, t, owner, attempt) && IsNext(s.tasks, sequence)
    requires forall i | i in s.live :: i.task == t && i.attempt == attempt ==> i.owner != owner
    requires via.RemoteService? ==> s.tasks[t].session.Some?
    ensures var a := Commit(t, owner, attempt, ReportAction(outcome, via, now, delay, sequence));
      var e := EndOf(Columns(s.tasks[t], ReportAction(outcome, via, now, delay, sequence)));
      && StoreGuard(s, a) && Reportable(e)
      && StoreApply(s, a) == s.(tasks := s.tasks[t := Written(s.tasks[t], e, sequence)])
  {
    WrittenIsApplied(s.tasks[t], outcome, via, now, delay, sequence);
    hide Columns, Entries, Written;
  }

  /** The read of `_finish`: the row is the one that was claimed. Other transactions may follow
      before the write. */
  method ReadForReport(db: Database, registry: set<string>, t: TaskId, owner: string, session: Option<SessionId>,
                       attempt: int)
    returns (reply: Reply<TaskRow>)
    requires db.Valid()
    ensures reply.Ok? <==>
      && t in db.tasks && db.tasks[t].status == Running && db.tasks[t].owner == Some(owner)
      && session.Some? && db.tasks[t].session == session && db.tasks[t].attempts == attempt && 1 <= attempt
      && db.tasks[t].def.handler in registry
    ensures reply.Ok? ==> reply.value == db.tasks[t] && HoldsClaim(db, t, reply.value)
  {
    if attempt < 1 { return Rejected(InvalidArgument); }
    if t !in db.tasks || db.tasks[t].status != Running || db.tasks[t].owner != Some(owner)
       || db.tasks[t].session != session || session.None? || db.tasks[t].attempts != attempt {
      return Rejected(StaleExecution);
    }
    if db.tasks[t].def.handler !in registry { return Rejected(MissingHandler); }
    assert RowInv(db.tasks[t]) && ClaimOk(db.tasks[t], t, db.claims, db.sessions);
    return Ok(db.tasks[t]);
  }

  /** The write of `_finish`, in its own transaction: what was read may be stale by now. */
  method CommitRemote(db: Database, t: TaskId, owner: string, read: TaskRow, outcome: RemoteOutcome,
                      external: set<string>,
                      now: Time, delay: nat)
    returns (reply: Reply<Unit>)
    requires db.Valid() && HoldsClaim(db, t, read) && read.session.Some?
    requires forall i | i in db.live :: i.task == t && i.attempt == read.attempts ==> i.owner != owner
    modifies db
    ensures reply.Ok? <==> Portable(outcome) && old(Committable(db.State(), t, owner, read.attempts))
    ensures reply == Rejected(InvalidArgument) <==> outcome.Broken? && Malformed(outcome.report)
    ensures reply.Ok? ==>
      t in db.tasks && t in old(db.tasks) && ReportedTo(old(db.tasks)[t], db.tasks[t], outcome, read.def.handler in external, now, delay)
    ensures !reply.Ok? ==> db.State() == old(db.State())
    ensures reply.Ok? ==>
      && t in db.tasks
      && var result := ResultOf(outcome, read.def.handler in external);
         var a := Commit(t, owner, read.attempts, ReportAction(result, RemoteService, now, delay, db.tasks[t].sequence));
         StoreGuard(old(db.State()), a) && db.State() == StoreApply(old(db.State()), a)
  {
    hide Inv, Committable, MayReport, IsNext, Portable, ResultOf, Malformed, ReportedTo;
    ghost var s := db.State();
    ReportExactly(read, outcome, read.def.handler in external, now, delay, 0);
    var e := ServiceOutcome(read, outcome, read.def.handler in external, now, delay);
    if e.Rejected? { return Rejected(InvalidArgument); }
    reply := Finish(db, t, owner, read.attempts, e.value);
    if reply.Ok? {
      ClaimedRowIsStored(s, t, owner, read);
      ghost var result := ResultOf(outcome, read.def.handler in external);
      ReportExactly(read, outcome, read.def.handler in external, now, delay, db.tasks[t].sequence);
      ReportIsCommit(s, t, owner, read.attempts, result, RemoteService, now, delay, db.tasks[t].sequence);
      CommitWrites(s, t, owner, read.attempts, ReportAction(result, RemoteService, now, delay, db.tasks[t].sequence));
    }
  }
}
