/** One task row and the transitions that transactions apply to it. */
module Rows {
  import opened Types

  // ---------------------------------------------------------------- retry policy

  /** `RetryPolicy.limit_for` on a decoded row: an operator's grant raises the task's own cap. */
  function LimitFor(r: TaskRow): (limit: nat)
    ensures r.retryLimit <= limit
  {
    match r.def.maxRetries
    case None => r.retryLimit
    case Some(cap) => Max(cap, r.retryLimit)
  }

  predicate Retryable(category: Option<Category>) {
    category != Some(Permanent) && category != Some(Uncertain)
  }

  /** Where the decision to retry is taken. Only the executor in the claiming process
      also compares with the stored limit. */
  datatype Committer = LocalExecutor | RemoteService

  predicate WillRetry(r: TaskRow, category: Option<Category>, veto: bool, via: Committer) {
    && !veto
    && Retryable(category)
    && r.retries < LimitFor(r)
    && (via.LocalExecutor? ==> r.retries < r.retryLimit)
  }

  function RetryTime(now: Time, delay: nat): Option<Time> {
    if delay == 0 then None else Some(now + delay)
  }

  // ---------------------------------------------------------------- transitions

  datatype RowAction =
    | Start(owner: string, session: Option<SessionId>)
    | RefuseBudget
    | FinishSuccess(output: Json, sequence: nat)
    | FinishFailure(error: Error, veto: bool, via: Committer, now: Time, delay: nat, sequence: nat)
    | Interrupt(external: bool, now: Time, delay: nat, sequence: nat)
    | OpenGate(kwargs: map<string, Json>)
    | FailBinding
    | Reconcile
    | Resolve(decision: Decision, extra: nat, supplied: Json, retryAt: Option<Time>)

  function NewRow(def: TaskDef, limit: nat, blocked: bool, sequence: nat): TaskRow {
    var capped := match def.maxRetries case None => limit case Some(cap) => if cap < limit then cap else limit;
    TaskRow(sequence, def, Pending, 0, 0, None, None, None, None, None, capped, None, blocked,
            [Event(Created, Pending, 0, 0, NoDetail), Event(Submitted, Pending, 0, 0, NoDetail)])
  }

  function InterruptCategory(external: bool): Option<Category> {
    if external then Some(Uncertain) else None
  }

  const BUDGET_ERROR := Error("LLMBudgetExceeded", Some(Permanent))
  const BINDING_ERROR := Error("InputBindingError", None)
  const RECONCILED_ERROR := Error("UncertainExecutionError", None)

  predicate AutoRetry(r: TaskRow, external: bool) {
    r.def.idempotent && Retryable(InterruptCategory(external)) && r.retries < LimitFor(r)
  }

  predicate RowGuard(r: TaskRow, a: RowAction) {
    match a
    case Start(_, _) => (r.status == Pending || r.status == Retrying) && !r.blocked
    case RefuseBudget => (r.status == Pending || r.status == Retrying) && !r.blocked
    case FinishSuccess(_, _) => r.status == Running
    case FinishFailure(_, _, _, _, _, _) => r.status == Running
    case Interrupt(_, _, _, _) => r.status == Running
    case OpenGate(_) => r.status == Pending && r.blocked
    case FailBinding => r.status == Pending && r.blocked
    case Reconcile => r.status == Running
    case Resolve(decision, extra, _, _) =>
      && r.status == Failed
      && (decision == Retry ==> !r.blocked && r.def.idempotent && r.retries < r.retryLimit + extra)
      && (decision != Retry ==> extra == 0)
  }

  function Released(r: TaskRow, sequence: nat): TaskRow {
    r.(owner := None, session := None, sequence := sequence)
  }

  /** Whether the transition schedules another attempt of a task that just ended one. */
  predicate Retries(r: TaskRow, a: RowAction) {
    match a
    case FinishFailure(error, veto, via, _, _, _) => WillRetry(r, error.category, veto, via)
    case Interrupt(external, _, _, _) => AutoRetry(r, external)
    case Resolve(decision, _, _, _) => decision == Retry
    case _ => false
  }

  /** What the transition appends to `task_events`. */
  function Entries(r: TaskRow, a: RowAction): (entries: seq<Event>)
    ensures |entries| <= 2
    ensures |entries| == 2 ==> entries[1].kind == RetryScheduled && entries[1].status == Retrying
  {
    var announced := if Retries(r, a) then [Event(RetryScheduled, Retrying, r.attempts, r.retries + 1, NoDetail)] else [];
    match a
    case Start(_, _) => [Event(Started, Running, r.attempts + 1, r.retries, NoDetail)]
    case RefuseBudget => [Event(BudgetExceeded, Failed, r.attempts, r.retries, NoDetail)]
    case FinishSuccess(output, _) => [Event(Succeeded, Success, r.attempts, r.retries, Output(output))]
    case FinishFailure(_, _, _, _, _, _) => [Event(FailedEvent, Failed, r.attempts, r.retries, NoDetail)] + announced
    case Interrupt(_, _, _, _) => [Event(Interrupted, Failed, r.attempts, r.retries, NoDetail)] + announced
    case OpenGate(_) => []
    case FailBinding => [Event(FailedEvent, Failed, r.attempts, r.retries, NoDetail)]
    case Reconcile => [Event(Interrupted, Failed, r.attempts, r.retries, NoDetail)]
    case Resolve(Retry, _, _, _) =>
      [Event(ManualResolution, Retrying, r.attempts, r.retries + 1, Manual(Retry, Null))] + announced
    case Resolve(Succeed, _, supplied, _) =>
      [Event(ManualResolution, Success, r.attempts, r.retries, Manual(Succeed, supplied))]
    case Resolve(Fail, _, _, _) => [Event(ManualResolution, Failed, r.attempts, r.retries, Manual(Fail, Null))]
  }

  /** What the transition writes to the columns of `tasks`. */
  function Columns(r: TaskRow, a: RowAction): TaskRow {
    match a
    case Start(owner, session) => r.(
      status := Running, owner := Some(owner), session := session, attempts := r.attempts + 1,
      result := None, error := None, retryAt := None)
    case RefuseBudget => r.(status := Failed, error := Some(BUDGET_ERROR), retryAt := None)
    case FinishSuccess(output, sequence) => Released(r, sequence).(
      status := Success, result := Some(output), error := None, retryAt := None)
    case FinishFailure(error, _, _, now, delay, sequence) =>
      var failed := Released(r, sequence).(status := Failed, result := Some(Null), error := Some(error), retryAt := None);
      if !Retries(r, a) then failed
      else failed.(status := Retrying, retries := r.retries + 1, lastError := Some(error), retryAt := RetryTime(now, delay))
    case Interrupt(external, now, delay, sequence) =>
      var error := Some(Error("UncertainExecutionError", InterruptCategory(external)));
      var failed := Released(r, sequence).(status := Failed, error := error);
      if !Retries(r, a) then failed
      else failed.(status := Retrying, retries := r.retries + 1, lastError := error, retryAt := RetryTime(now, delay))
    case OpenGate(kwargs) => r.(def := r.def.(kwargs := kwargs), blocked := false)
    case FailBinding => r.(status := Failed, error := Some(BINDING_ERROR))
    case Reconcile => r.(status := Failed, error := Some(RECONCILED_ERROR))
    case Resolve(decision, extra, supplied, retryAt) =>
      var base := r.(retryLimit := r.retryLimit + extra, owner := None, session := None,
                     lastError := if r.error.Some? then r.error else r.lastError);
      match decision
      case Retry => base.(status := Retrying, retries := r.retries + 1, retryAt := retryAt, result := None, error := None)
      case Succeed => base.(status := Success, retryAt := None, result := Some(supplied), error := None)
      case Fail => base.(status := Failed, retryAt := None, result := None)
  }

  function RowApply(r: TaskRow, a: RowAction): TaskRow
    requires RowGuard(r, a)
  {
    Columns(r, a).(log := r.log + Entries(r, a))
  }

  // ---------------------------------------------------------------- reading the log

  function Count(log: seq<Event>, kind: EventKind): nat {
    if log == [] then 0
    else Count(log[..|log| - 1], kind) + (if log[|log| - 1].kind == kind then 1 else 0)
  }

  /** How an attempt ended: with a result, or with its result lost. */
  datatype Outcome = Done(json: Json) | Lost

  function EventOutcome(e: Event): Option<Outcome> {
    match e.kind
    case Succeeded => Some(Done(if e.detail.Output? then e.detail.json else Null))
    case FailedEvent => Some(Lost)
    case Interrupted => Some(Lost)
    case ManualResolution =>
      if e.detail.Manual? && e.detail.decision == Succeed then Some(Done(e.detail.supplied)) else None
    case _ => None
  }

  /** The last word of the log about an attempt. */
  function OutcomeOf(log: seq<Event>, attempt: nat): Option<Outcome> {
    if log == [] then None
    else
      var e := log[|log| - 1];
      if e.attempt == attempt && EventOutcome(e).Some? then EventOutcome(e)
      else OutcomeOf(log[..|log| - 1], attempt)
  }

  predicate Ends(e: Event, attempt: nat) {
    e.attempt == attempt && (e.kind == Succeeded || e.kind == FailedEvent || e.kind == Interrupted)
  }

  /** How many times the end of an attempt was committed. */
  function EndCount(log: seq<Event>, attempt: nat): nat {
    if log == [] then 0
    else EndCount(log[..|log| - 1], attempt) + (if Ends(log[|log| - 1], attempt) then 1 else 0)
  }

  lemma LogAppend(log: seq<Event>, e: Event)
    ensures forall kind :: Count(log + [e], kind) == Count(log, kind) + (if e.kind == kind then 1 else 0)
    ensures forall a :: EndCount(log + [e], a) == EndCount(log, a) + (if Ends(e, a) then 1 else 0)
    ensures forall a :: OutcomeOf(log + [e], a) ==
              if e.attempt == a && EventOutcome(e).Some? then EventOutcome(e) else OutcomeOf(log, a)
  {
    assert (log + [e])[..|log|] == log;
  }

  // ---------------------------------------------------------------- row invariant

  /** The counters of the row are counts of its log. */
  ghost predicate CountsAgree(r: TaskRow) {
    && r.log != []
    && r.log[|r.log| - 1].status == r.status
    && r.attempts == Count(r.log, Started)
    && r.retries == Count(r.log, RetryScheduled)
  }

  ghost predicate StatusShape(r: TaskRow) {
    && (r.status == Pending ==> r.attempts == 0 && r.retries == 0)
    && (r.status == Running ==> 1 <= r.attempts && r.owner.Some? && r.retryAt.None?)
    && (r.status == Retrying ==> r.attempts <= r.retries)
    && r.attempts <= r.retries + 1
    && (r.status == Success ==> r.result.Some?)
    && (r.blocked ==> r.attempts == 0 && r.status != Running && r.status != Retrying)
  }

  function LastOutcome(r: TaskRow): Outcome {
    if r.status == Success && r.result.Some? then Done(r.result.value) else Lost
  }

  /** What the log says of attempt `a` when `attempts` were started, the last of them is
      still going or not, and ended (if it has) with `last`. */
  ghost predicate Explains(log: seq<Event>, attempts: nat, going: bool, last: Outcome, a: nat) {
    var over := a < attempts || (a == attempts && !going);
    && EndCount(log, a) == (if over then 1 else 0)
    && OutcomeOf(log, a) == (if !over then None else Some(if a == attempts then last else Lost))
  }

  ghost predicate RowExplains(r: TaskRow, a: nat) {
    Explains(r.log, r.attempts, r.status == Running, LastOutcome(r), a)
  }

  /** Every attempt that is over has exactly one committed end and every other has none;
      only the last attempt of a successful task has a result, the one in the row. */
  ghost predicate LogExplainsRow(r: TaskRow) {
    forall a: nat :: 1 <= a ==> RowExplains(r, a)
  }

  ghost predicate WasInterrupted(r: TaskRow) { Count(r.log, Interrupted) > 0 }

  ghost predicate UncertainIsFinal(r: TaskRow) {
    WasInterrupted(r) && !r.def.idempotent ==> r.status == Failed || r.status == Success
  }

  ghost predicate RetriesCapped(r: TaskRow) { r.retries <= LimitFor(r) }

  ghost predicate RowInv(r: TaskRow) {
    CountsAgree(r) && StatusShape(r) && LogExplainsRow(r) && UncertainIsFinal(r) && RetriesCapped(r)
  }

  lemma NewRowInv(def: TaskDef, limit: nat, blocked: bool, sequence: nat)
    ensures RowInv(NewRow(def, limit, blocked, sequence))
  {
    var first := Event(Created, Pending, 0, 0, NoDetail);
    var second := Event(Submitted, Pending, 0, 0, NoDetail);
    LogAppend([], first);
    LogAppend([first], second);
    assert [] + [first] == [first] && [first] + [second] == [first, second];
  }

  /** Reading a log after one transition: only its first entry can end an attempt, the
      second only announces a retry. */
  lemma LogStep(log: seq<Event>, entries: seq<Event>)
    requires 1 <= |entries| <= 2
    requires |entries| == 2 ==> entries[1].kind == RetryScheduled
    ensures var after, e := log + entries, entries[0];
      && after[|after| - 1] == entries[|entries| - 1]
      && (forall kind ::
            Count(after, kind) == Count(log, kind) + (if e.kind == kind then 1 else 0)
                                + (if |entries| == 2 && kind == RetryScheduled then 1 else 0))
      && (forall n :: EndCount(after, n) == EndCount(log, n) + (if Ends(e, n) then 1 else 0))
      && (forall n :: OutcomeOf(after, n) ==
            if e.attempt == n && EventOutcome(e).Some? then EventOutcome(e) else OutcomeOf(log, n))
  {
    LogAppend(log, entries[0]);
    if |entries| == 1 {
      assert entries == [entries[0]];
    } else {
      LogAppend(log + [entries[0]], entries[1]);
      assert log + entries == (log + [entries[0]]) + [entries[1]];
    }
  }

  /** How the columns and the new entries belong together. */
  lemma EntriesFit(r: TaskRow, a: RowAction)
    requires RowGuard(r, a) && !a.OpenGate?
    ensures var r', d := Columns(r, a), Entries(r, a);
      && 1 <= |d|
      && d[0].kind != RetryScheduled
      && (d[0].kind == Interrupted <==> a.Interrupt? || a.Reconcile?)
      && r'.attempts == r.attempts + (if d[0].kind == Started then 1 else 0)
      && r'.retries == r.retries + (if |d| == 2 then 1 else 0)
      && r'.status == d[|d| - 1].status
  {
  }

  lemma CountsStep(log: seq<Event>, d: seq<Event>)
    requires 1 <= |d| <= 2
    requires d[0].kind != RetryScheduled
    requires |d| == 2 ==> d[1].kind == RetryScheduled
    ensures Count(log + d, Started) == Count(log, Started) + (if d[0].kind == Started then 1 else 0)
    ensures Count(log + d, RetryScheduled) == Count(log, RetryScheduled) + (if |d| == 2 then 1 else 0)
    ensures Count(log + d, Interrupted) == Count(log, Interrupted) + (if d[0].kind == Interrupted then 1 else 0)
    ensures (log + d)[|log + d| - 1] == d[|d| - 1]
  {
    LogStep(log, d);
  }

  lemma RowStepCounts(r: TaskRow, a: RowAction)
    requires CountsAgree(r) && RowGuard(r, a)
    ensures CountsAgree(RowApply(r, a))
  {
    hide Columns, Entries, RowGuard, Count;
    if a.OpenGate? {
      OpenedGateLog(r, a);
    } else {
      EntriesFit(r, a);
      CountsStep(r.log, Entries(r, a));
    }
  }

  lemma OpenedGateLog(r: TaskRow, a: RowAction)
    requires RowGuard(r, a) && a.OpenGate?
    ensures var r' := RowApply(r, a);
      r'.log == r.log && r'.status == r.status && r'.attempts == r.attempts && r'.retries == r.retries
  {
    assert r.log + [] == r.log;
  }

  lemma InterruptionIsLogged(r: TaskRow, a: RowAction)
    requires RowGuard(r, a)
    ensures WasInterrupted(RowApply(r, a)) <==> WasInterrupted(r) || a.Interrupt? || a.Reconcile?
  {
    if a.OpenGate? {
      assert r.log + [] == r.log;
    } else {
      EntriesFit(r, a);
      CountsStep(r.log, Entries(r, a));
    }
  }

  lemma RowStepShape(r: TaskRow, a: RowAction)
    requires StatusShape(r) && UncertainIsFinal(r) && RetriesCapped(r) && RowGuard(r, a)
    ensures StatusShape(RowApply(r, a)) && RetriesCapped(RowApply(r, a)) && UncertainIsFinal(RowApply(r, a))
  {
    InterruptionIsLogged(r, a);
  }

  /** One transition cannot end an attempt twice, and only ends the one that is going. */
  lemma ExplainsStep(log: seq<Event>, attempts: nat, going: bool, last: Outcome,
                     d: seq<Event>, attempts': nat, going': bool, last': Outcome, n: nat)
    requires 1 <= n && Explains(log, attempts, going, last, n)
    requires 1 <= |d| <= 2 && (|d| == 2 ==> d[1].kind == RetryScheduled)
    requires
      || (d[0].kind == Started && !going && going' && attempts' == attempts + 1 && (1 <= attempts ==> last == Lost))
      || (Ends(d[0], attempts) && going && !going' && attempts' == attempts && EventOutcome(d[0]) == Some(last'))
      || (!Ends(d[0], n) && !going && !going' && attempts' == attempts && d[0].attempt == attempts
          && last' == if EventOutcome(d[0]).Some? then EventOutcome(d[0]).value else last)
    ensures Explains(log + d, attempts', going', last', n)
  {
    LogStep(log, d);
  }

  lemma RowStepLog(r: TaskRow, a: RowAction, n: nat)
    requires StatusShape(r) && LogExplainsRow(r) && RowGuard(r, a) && 1 <= n
    ensures RowExplains(RowApply(r, a), n)
  {
    var r' := RowApply(r, a);
    assert RowExplains(r, n);
    if a.OpenGate? {
      assert r.log + [] == r.log;
    } else {
      ExplainsStep(r.log, r.attempts, r.status == Running, LastOutcome(r),
                   Entries(r, a), r'.attempts, r'.status == Running, LastOutcome(r'), n);
    }
  }

  lemma RowStepInv(r: TaskRow, a: RowAction)
    requires RowInv(r) && RowGuard(r, a)
    ensures RowInv(RowApply(r, a))
  {
    RowStepCounts(r, a);
    RowStepShape(r, a);
    forall n: nat | 1 <= n ensures RowExplains(RowApply(r, a), n) { RowStepLog(r, a, n); }
  }
}
