/** What a transition leaves in the row of a task, column by column and told from the row alone: which failures are
    repeated, what becomes of the claim, the result, the errors and the due time, and what is logged. */
module RowLaws {
  import opened Types
  import opened Rows

  /** The task has retries left: below its stored limit, or below its own cap if that is larger. */
  predicate RetryLeft(r: TaskRow) {
    r.retries < r.retryLimit || (r.def.maxRetries.Some? && r.retries < r.def.maxRetries.value)
  }

  /** The task is as submitted, its attempts are those that were started, and nobody owns it. */
  predicate Unclaimed(r: TaskRow, r': TaskRow) {
    && r'.def == r.def && r'.attempts == r.attempts && r'.retryLimit == r.retryLimit && r'.blocked == r.blocked
    && r'.owner == None && r'.session == None
  }

  /** Another attempt is scheduled, and the log says how the last one ended. */
  predicate Again(r: TaskRow, r': TaskRow, kind: EventKind, error: Error, now: Time, delay: nat) {
    && r'.status == Retrying && r'.retries == r.retries + 1 && r'.lastError == Some(error)
    && r'.retryAt == (if delay == 0 then None else Some(now + delay))
    && r'.log == r.log + [Event(kind, Failed, r.attempts, r.retries, NoDetail),
                          Event(RetryScheduled, Retrying, r.attempts, r.retries + 1, NoDetail)]
  }

  /** No other attempt is scheduled. */
  predicate Over(r: TaskRow, r': TaskRow, kind: EventKind) {
    && r'.status == Failed && r'.retries == r.retries && r'.lastError == r.lastError
    && r'.log == r.log + [Event(kind, Failed, r.attempts, r.retries, NoDetail)]
  }

  // ---------------------------------------------------------------- an interrupted attempt

  /** The row of an interrupted attempt: it is repeated if and only if the task is idempotent, its handler does not
      reach outside and retries are left; an external call stays FAILED with the category UNCERTAIN. */
  ghost predicate InterruptedTo(r: TaskRow, r': TaskRow, external: bool, now: Time, delay: nat) {
    var error := Error("UncertainExecutionError", if external then Some(Uncertain) else None);
    && Unclaimed(r, r') && r'.error == Some(error) && r'.result == r.result
    && (r'.status == Retrying <==> r.def.idempotent && !external && RetryLeft(r))
    && (r'.status == Retrying ==> Again(r, r', Interrupted, error, now, delay))
    && (r'.status != Retrying ==> Over(r, r', Interrupted) && r'.retryAt == r.retryAt)
  }

  lemma InterruptionExactly(r: TaskRow, external: bool, now: Time, delay: nat, sequence: nat)
    requires r.status == Running
    ensures InterruptedTo(r, RowApply(r, Interrupt(external, now, delay, sequence)), external, now, delay)
  {
  }

  // ---------------------------------------------------------------- a reported attempt

  /** The row of a failure that was reported, repeated or not. */
  ghost predicate FailedTo(r: TaskRow, r': TaskRow, error: Error, again: bool, now: Time, delay: nat) {
    && Unclaimed(r, r') && r'.error == Some(error) && r'.result == Some(Null)
    && (r'.status == Retrying <==> again)
    && (again ==> Again(r, r', FailedEvent, error, now, delay))
    && (!again ==> Over(r, r', FailedEvent) && r'.retryAt == None)
  }

  ghost predicate SucceededTo(r: TaskRow, r': TaskRow, output: Json) {
    && Unclaimed(r, r') && r'.status == Success && r'.result == Some(output) && r'.error == None && r'.retryAt == None
    && r'.retries == r.retries && r'.lastError == r.lastError
    && r'.log == r.log + [Event(Succeeded, Success, r.attempts, r.retries, Output(output))]
  }

  /** The executor of the claim repeats a failure if and only if it may be repeated, its category is transient or
      unknown and the retries are below the stored limit: a larger cap of the task does not help here. */
  lemma LocalFailureExactly(r: TaskRow, error: Error, veto: bool, now: Time, delay: nat, sequence: nat)
    requires r.status == Running
    ensures var again := !veto && (error.category.None? || error.category == Some(Transient)) && r.retries < r.retryLimit;
      FailedTo(r, RowApply(r, FinishFailure(error, veto, LocalExecutor, now, delay, sequence)), error, again, now, delay)
  {
    ThreeCategories(error.category);
  }

  /** The service that takes the reports of remote workers goes by the larger of the two bounds. */
  lemma RemoteFailureExactly(r: TaskRow, error: Error, veto: bool, now: Time, delay: nat, sequence: nat)
    requires r.status == Running
    ensures var again := !veto && (error.category.None? || error.category == Some(Transient)) && RetryLeft(r);
      FailedTo(r, RowApply(r, FinishFailure(error, veto, RemoteService, now, delay, sequence)), error, again, now, delay)
  {
    ThreeCategories(error.category);
  }

  lemma ThreeCategories(category: Option<Category>)
    ensures Retryable(category) <==> category.None? || category == Some(Transient)
  {
    match category
    case None =>
    case Some(x) => match x { case Permanent => case Transient => case Uncertain => }
  }

  lemma SuccessExactly(r: TaskRow, output: Json, sequence: nat)
    requires r.status == Running
    ensures SucceededTo(r, RowApply(r, FinishSuccess(output, sequence)), output)
  {
  }

  // ---------------------------------------------------------------- a claim

  ghost predicate StartedTo(r: TaskRow, r': TaskRow, owner: string, session: Option<SessionId>) {
    && r'.status == Running && r'.attempts == r.attempts + 1 && r'.owner == Some(owner) && r'.session == session
    && r'.result == None && r'.error == None && r'.retryAt == None
    && r'.def == r.def && r'.retries == r.retries && r'.retryLimit == r.retryLimit && r'.lastError == r.lastError
    && r'.sequence == r.sequence && r'.blocked == r.blocked
    && r'.log == r.log + [Event(Started, Running, r.attempts + 1, r.retries, NoDetail)]
  }

  ghost predicate RefusedTo(r: TaskRow, r': TaskRow) {
    && r'.status == Failed && r'.error == Some(Error("LLMBudgetExceeded", Some(Permanent))) && r'.retryAt == None
    && r'.def == r.def && r'.attempts == r.attempts && r'.retries == r.retries && r'.retryLimit == r.retryLimit
    && r'.result == r.result && r'.lastError == r.lastError && r'.owner == r.owner && r'.session == r.session
    && r'.sequence == r.sequence && r'.blocked == r.blocked
    && r'.log == r.log + [Event(BudgetExceeded, Failed, r.attempts, r.retries, NoDetail)]
  }

  lemma ClaimExactly(r: TaskRow, owner: string, session: Option<SessionId>)
    requires r.status == Pending || r.status == Retrying
    requires !r.blocked
    ensures StartedTo(r, RowApply(r, Start(owner, session)), owner, session)
    ensures RefusedTo(r, RowApply(r, RefuseBudget))
  {
  }

  // ---------------------------------------------------------------- an operator's decision

  /** A stopped attempt whose row could not be decoded becomes an uncertain failure. */
  ghost predicate ReconciledTo(r: TaskRow, r': TaskRow) {
    && r'.status == Failed && r'.error == Some(Error("UncertainExecutionError", None))
    && r'.log == r.log + [Event(Interrupted, Failed, r.attempts, r.retries, NoDetail)]
    && r' == r.(status := r'.status, error := r'.error, log := r'.log)
  }

  /** The row after a decision: a retry counts as one and raises the stored limit by the grant, and so the task has
      retries left unless the grant was none; a success has the supplied result. The failure that was decided is kept. */
  ghost predicate ResolvedTo(r: TaskRow, r': TaskRow, decision: Decision, extra: nat, supplied: Json,
                             retryAt: Option<Time>) {
    && r'.def == r.def && r'.attempts == r.attempts && r'.blocked == r.blocked && r'.sequence == r.sequence
    && r'.owner == None && r'.session == None
    && r'.retryLimit == r.retryLimit + extra
    && r'.lastError == (if r.error.Some? then r.error else r.lastError)
    && match decision
       case Retry =>
         && r'.status == Retrying && r'.retries == r.retries + 1 && r'.retryAt == retryAt && r'.result == None && r'.error == None
         && r'.log == r.log + [Event(ManualResolution, Retrying, r.attempts, r.retries + 1, Manual(Retry, Null)),
                               Event(RetryScheduled, Retrying, r.attempts, r.retries + 1, NoDetail)]
       case Succeed =>
         && r'.status == Success && r'.retries == r.retries && r'.retryAt == None && r'.result == Some(supplied) && r'.error == None
         && r'.log == r.log + [Event(ManualResolution, Success, r.attempts, r.retries, Manual(Succeed, supplied))]
       case Fail =>
         && r'.status == Failed && r'.retries == r.retries && r'.retryAt == None && r'.result == None && r'.error == r.error
         && r'.log == r.log + [Event(ManualResolution, Failed, r.attempts, r.retries, Manual(Fail, Null))]
  }

  lemma DecisionExactly(r: TaskRow, decision: Decision, extra: nat, supplied: Json, retryAt: Option<Time>)
    requires RowGuard(r, Resolve(decision, extra, supplied, retryAt))
    ensures ResolvedTo(r, RowApply(r, Resolve(decision, extra, supplied, retryAt)), decision, extra, supplied, retryAt)
  {
    var r' := RowApply(r, Resolve(decision, extra, supplied, retryAt));
    assert decision == Retry ==> r'.log == r.log + [Event(ManualResolution, Retrying, r.attempts, r.retries + 1, Manual(Retry, Null)),
                               Event(RetryScheduled, Retrying, r.attempts, r.retries + 1, NoDetail)];
  }

  lemma ReconciliationExactly(r: TaskRow)
    requires r.status == Running
    ensures ReconciledTo(r, RowApply(r, Reconcile))
  {
  }

  // ---------------------------------------------------------------- a new row

  /** A new row waits with no attempt behind it, and its retry limit is the smaller of the submitted limit and the
      cap of the task, if it has one. */
  ghost predicate SubmittedAs(r: TaskRow, def: TaskDef, limit: int, blocked: bool) {
    && r.def == def && r.status == Pending && r.blocked == blocked && r.attempts == 0 && r.retries == 0
    && r.result == None && r.error == None && r.lastError == None && r.owner == None && r.session == None && r.retryAt == None
    && r.retryLimit <= limit && (def.maxRetries.Some? ==> r.retryLimit <= def.maxRetries.value)
    && (r.retryLimit == limit || def.maxRetries == Some(r.retryLimit))
    && r.log == [Event(Created, Pending, 0, 0, NoDetail), Event(Submitted, Pending, 0, 0, NoDetail)]
  }

  lemma NewRowExactly(def: TaskDef, limit: nat, blocked: bool, sequence: nat)
    ensures SubmittedAs(NewRow(def, limit, blocked, sequence), def, limit, blocked)
  {
  }
}
