/** Accounting of generation calls from the committed attempts (`llm_usage.py`), and the gate
    that a claim passes (`admit_llm`). */
module LlmUsage {
  import opened Types
  import opened Rows
  import opened Usage
  import opened UsageFacts
  import opened Protocol
  import opened Invariants
  import opened Tables
  import opened TokenLaws
  import opened RowLaws
  import opened ClaimLaws
  import KeepSubmit

  type Attempts = map<(TaskId, nat), Option<Outcome>>

  datatype Report = Report(calls: nat, successes: nat, failures: nat, running: nat, tokens: nat, missing: nat) {
    function UnknownOutcomes(): int { calls - successes - failures - running }

    function InTotal(): Totals { Totals(calls, running, tokens, missing) }
  }

  ghost predicate Listed(tasks: map<TaskId, TaskRow>, rows: seq<TaskId>) {
    Distinct(rows) && forall t | t in rows :: t in tasks && RowInv(tasks[t])
  }

  /** One entry for each started attempt of the first `n` rows. */
  ghost predicate Covers(tasks: map<TaskId, TaskRow>, rows: seq<TaskId>, n: nat, attempts: Attempts)
    requires n <= |rows| && forall t | t in rows :: t in tasks
  {
    forall t, a :: (t, a) in attempts <==> t in rows[..n] && 1 <= a <= tasks[t].attempts
  }

  method StartedAttempts(tasks: map<TaskId, TaskRow>, rows: seq<TaskId>) returns (attempts: Attempts, running: nat)
    requires Listed(tasks, rows)
    ensures Covers(tasks, rows, |rows|, attempts) && forall key | key in attempts :: attempts[key] == None
    ensures running == UsageOf(tasks, rows).running
  {
    hide RowInv;
    attempts, running := map[], 0;
    for i := 0 to |rows|
      invariant Covers(tasks, rows, i, attempts) && forall key | key in attempts :: attempts[key] == None
      invariant running == UsageOf(tasks, rows[..i]).running
    {
      var t := rows[i];
      assert rows[..i + 1] == rows[..i] + [t] && rows[..i + 1][..i] == rows[..i];
      for number := 1 to tasks[t].attempts + 1
        invariant forall u, a :: (u, a) in attempts <==>
          (u in rows[..i] && 1 <= a <= tasks[u].attempts) || (u == t && 1 <= a < number)
        invariant forall key | key in attempts :: attempts[key] == None
      {
        attempts := attempts[(t, number) := None];
      }
      assert forall u :: u in rows[..i + 1] <==> u in rows[..i] || u == t;
      if tasks[t].status == Running { running := running + 1; }
    }
    assert rows[..|rows|] == rows;
  }

  /** What the events say of each attempt; `None` while nothing ended it. */
  method ReadEvents(tasks: map<TaskId, TaskRow>, rows: seq<TaskId>, started: Attempts) returns (attempts: Attempts)
    requires Listed(tasks, rows) && Covers(tasks, rows, |rows|, started) && forall key | key in started :: started[key] == None
    ensures attempts.Keys == started.Keys
    ensures forall t, a | (t, a) in attempts :: t in rows && attempts[(t, a)] == OutcomeOf(tasks[t].log, a)
  {
    attempts := started;
    for i := 0 to |rows|
      invariant attempts.Keys == started.Keys
      invariant forall t, a | (t, a) in attempts ::
        attempts[(t, a)] == if t in rows[..i] then OutcomeOf(tasks[t].log, a) else None
    {
      var t, log := rows[i], tasks[rows[i]].log;
      assert t !in rows[..i];
      for k := 0 to |log|
        invariant attempts.Keys == started.Keys
        invariant forall u, a | (u, a) in attempts ::
          attempts[(u, a)] == if u == t then OutcomeOf(log[..k], a) else if u in rows[..i] then OutcomeOf(tasks[u].log, a) else None
      {
        var e := log[k];
        LogAppend(log[..k], e);
        assert log[..k + 1] == log[..k] + [e];
        if (t, e.attempt) in attempts && EventOutcome(e).Some? {
          attempts := attempts[(t, e.attempt) := EventOutcome(e)];
        }
      }
      assert log[..|log|] == log && rows[..i + 1] == rows[..i] + [t];
    }
    assert rows[..|rows|] == rows;
  }

  /** The columns of a row stand in for an end that no event reports. */
  method FillFromColumns(tasks: map<TaskId, TaskRow>, rows: seq<TaskId>, read: Attempts) returns (attempts: Attempts)
    requires Listed(tasks, rows) && Covers(tasks, rows, |rows|, read)
    requires forall t, a | (t, a) in read :: read[(t, a)] == OutcomeOf(tasks[t].log, a)
    ensures attempts == read
  {
    attempts := read;
    for i := 0 to |rows|
      invariant attempts == read
    {
      var t, r := rows[i], tasks[rows[i]];
      EndIsLogged(r);
      if (t, r.attempts) in attempts && attempts[(t, r.attempts)].None? && (r.status == Success || r.status == Status.Failed) {
        assert false;
      }
    }
  }

  /** The log always knows how an attempt ended, so the columns never have to stand in. */
  lemma EndIsLogged(r: TaskRow)
    requires RowInv(r)
    ensures 1 <= r.attempts && r.status != Running ==> OutcomeOf(r.log, r.attempts).Some?
  {
    if 1 <= r.attempts { assert RowExplains(r, r.attempts); }
  }

  lemma EndedOrRunning(r: TaskRow, number: nat)
    requires RowInv(r) && 1 <= number <= r.attempts
    ensures OutcomeOf(r.log, number).None? <==> r.status == Running && number == r.attempts
  {
    assert RowExplains(r, number);
  }

  /** Only the last attempt of a success has succeeded. */
  lemma DoneOnlyLast(r: TaskRow, number: nat)
    requires RowInv(r) && 1 <= number <= r.attempts
    ensures var o := OutcomeOf(r.log, number);
      o.Some? && o.value.Done? <==> r.status == Success && number == r.attempts
  {
    assert RowExplains(r, number);
  }

  /** The attempts of one row. */
  method SumRow(t: TaskId, r: TaskRow, attempts: Attempts) returns (successes: nat, failures: nat, totals: Totals)
    requires RowInv(r)
    requires forall a | 1 <= a <= r.attempts :: (t, a) in attempts && attempts[(t, a)] == OutcomeOf(r.log, a)
    ensures totals == RowTotals(r).(running := 0)
    ensures totals.calls == successes + failures + RowTotals(r).running
    ensures successes == if r.status == Success && 1 <= r.attempts then 1 else 0
  {
    hide RowInv;
    successes, failures := 0, 0;
    var tokens, missing := 0, 0;
    for number := 1 to r.attempts + 1
      invariant number - 1 == successes + failures + (if r.status == Running && 1 <= r.attempts < number then 1 else 0)
      invariant tokens == SumTokens(r.log, number - 1) && missing == SumMissing(r.log, number - 1)
      invariant successes == if r.status == Success && 1 <= r.attempts < number then 1 else 0
    {
      EndedOrRunning(r, number);
      DoneOnlyLast(r, number);
      var outcome := attempts[(t, number)];
      if outcome.Some? {
        if outcome.value.Done? { successes := successes + 1; } else { failures := failures + 1; }
      }
      match KnownTokens(outcome) {
        case Some(known) => tokens := tokens + known;
        case None => missing := missing + 1;
      }
    }
    RunningIsStarted(r);
    totals := Totals(r.attempts, 0, tokens, missing);
  }

  lemma RunningIsStarted(r: TaskRow)
    requires RowInv(r)
    ensures r.status == Running ==> 1 <= r.attempts
  {
  }

  /** How many of the tasks were called and have succeeded. */
  function Succeeded(tasks: map<TaskId, TaskRow>, rows: seq<TaskId>): nat {
    if rows == [] then 0
    else
      var t := rows[|rows| - 1];
      Succeeded(tasks, rows[..|rows| - 1]) + (if t in tasks && tasks[t].status == Success && 1 <= tasks[t].attempts then 1 else 0)
  }

  method SumUp(tasks: map<TaskId, TaskRow>, rows: seq<TaskId>, attempts: Attempts, running: nat)
    returns (report: Report)
    requires Listed(tasks, rows) && Covers(tasks, rows, |rows|, attempts) && running == UsageOf(tasks, rows).running
    requires forall t, a | (t, a) in attempts :: attempts[(t, a)] == OutcomeOf(tasks[t].log, a)
    ensures report.InTotal() == UsageOf(tasks, rows) && report.UnknownOutcomes() == 0
    ensures report.successes == Succeeded(tasks, rows)
  {
    hide RowInv, RowTotals;
    var totals: Totals, successes: nat, failures: nat := Totals(0, 0, 0, 0), 0, 0;
    for i := 0 to |rows|
      invariant totals == UsageOf(tasks, rows[..i]).(running := 0)
      invariant totals.calls == successes + failures + UsageOf(tasks, rows[..i]).running
      invariant successes == Succeeded(tasks, rows[..i])
    {
      var t := rows[i];
      assert t in rows[..|rows|];
      var done, lost, more := SumRow(t, tasks[t], attempts);
      totals, successes, failures := totals.Plus(more), successes + done, failures + lost;
      assert rows[..i + 1] == rows[..i] + [t] && rows[..i + 1][..i] == rows[..i];
    }
    assert rows[..|rows|] == rows;
    report := Report(totals.calls, successes, failures, running, totals.tokens, totals.missing);
  }

  /** `workflow_usage`: it equals the totals over the attempts that the rows count, and every call
      has succeeded, failed or is running. */
  method WorkflowUsage(db: Database, wf: string) returns (report: Report)
    requires db.Valid() && wf in db.runs
    ensures report.InTotal() == UsageOfRun(db.State(), wf)
    ensures report.calls == report.successes + report.failures + report.running
    ensures report.successes == Succeeded(db.tasks, LlmTasks(wf, db.runs[wf].def.nodes, db.nodes))
    ensures var defs := db.runs[wf].def.nodes;
      report.calls == CallsMade(db.State(), wf, defs) && report.tokens == Spent(db.State(), wf, defs)
  {
    TotalsAreStored(db.State(), wf);
    var rows := LlmTasks(wf, db.runs[wf].def.nodes, db.nodes);
    RowsAreListed(db.State(), wf);
    hide Inv;
    var attempts, running := StartedAttempts(db.tasks, rows);
    attempts := ReadEvents(db.tasks, rows, attempts);
    attempts := FillFromColumns(db.tasks, rows, attempts);
    report := SumUp(db.tasks, rows, attempts, running);
  }

  lemma TotalsAreStored(s: Db, wf: string)
    requires Inv(s) && wf in s.runs
    ensures var u, defs := UsageOfRun(s, wf), s.runs[wf].def.nodes; u.calls == CallsMade(s, wf, defs) && u.tokens == Spent(s, wf, defs)
  {
    hide Inv, RowInv;
    NodesHaveRows(s, wf);
    WorkflowSums(s, wf, s.runs[wf].def.nodes);
  }

  lemma RowsAreListed(s: Db, wf: string)
    requires Inv(s) && wf in s.runs
    ensures Listed(s.tasks, LlmTasks(wf, s.runs[wf].def.nodes, s.nodes))
  {
    hide SessionsOk, CallsOk, HoldsOk, BudgetsOk;
    KeepSubmit.LlmTasksInTables(s.runs, s.nodes, s.tasks, wf);
  }

  // ---------------------------------------------------------------- the gate

  datatype BudgetReason = MaxCalls | MaxTotalTokens | UnknownTokenUsage

  datatype BudgetStatus = BudgetStatus(
    remainingCalls: Option<nat>,
    remainingTokens: Option<nat>,
    reason: Option<BudgetReason>,
    waiting: bool)

  function StatusOf(budget: Budget, u: Totals): BudgetStatus {
    var reason :=
      if budget.maxCalls.Some? && u.calls >= budget.maxCalls.value then Some(MaxCalls)
      else if budget.maxTokens.None? then None
      else if u.tokens >= budget.maxTokens.value then Some(MaxTotalTokens)
      else if u.missing > u.running then Some(UnknownTokenUsage)
      else None;
    BudgetStatus(
      if budget.maxCalls.None? then None else Some(Max(0, budget.maxCalls.value - u.calls)),
      if budget.maxTokens.None? || u.missing > 0 then None else Some(Max(0, budget.maxTokens.value - u.tokens)),
      reason,
      budget.maxTokens.Some? && u.running > 0 && reason.None?)
  }

  /** What is left of a budget and what has been used make up the cap, until it is passed; tokens are left for certain
      only if every call has reported. A spent budget names its first reason, and waiting is for a running call only. */
  lemma StatusMeans(budget: Budget, u: Totals)
    ensures var status := StatusOf(budget, u);
      && (status.remainingCalls.Some? <==> budget.maxCalls.Some?)
      && (status.remainingCalls.Some? ==>
            && (u.calls <= budget.maxCalls.value ==> u.calls + status.remainingCalls.value == budget.maxCalls.value)
            && (budget.maxCalls.value <= u.calls ==> status.remainingCalls.value == 0)
            && (status.reason == Some(MaxCalls) <==> status.remainingCalls.value == 0))
      && (status.remainingTokens.Some? <==> budget.maxTokens.Some? && u.missing == 0)
      && (status.remainingTokens.Some? ==>
            && (u.tokens <= budget.maxTokens.value ==> u.tokens + status.remainingTokens.value == budget.maxTokens.value)
            && (budget.maxTokens.value <= u.tokens ==> status.remainingTokens.value == 0)
            && (status.remainingTokens.value == 0 ==> status.reason == Some(MaxCalls) || status.reason == Some(MaxTotalTokens)))
      && (budget.maxTokens.None? ==> status.reason.None? || status.reason == Some(MaxCalls))
      && (status.waiting <==> status.reason.None? && budget.maxTokens.Some? && 1 <= u.running)
  {
  }

  lemma StatusIsGate(budget: Budget, u: Totals)
    ensures Gate(Some(budget), u) == Refused <==> StatusOf(budget, u).reason.Some?
    ensures Gate(Some(budget), u) == MustWait <==> StatusOf(budget, u).waiting
  {
  }

  lemma NoBudgetAdmits(u: Totals)
    ensures Gate(None, u) == Admitted
  {
  }

  lemma RefusedExactly(r: TaskRow, r': TaskRow)
    requires RowGuard(r, RefuseBudget)
    requires r' == r.(status := Status.Failed, error := Some(BUDGET_ERROR), retryAt := None,
                      log := r.log + [Event(BudgetExceeded, Status.Failed, r.attempts, r.retries, NoDetail)])
    ensures r' == RowApply(r, RefuseBudget) && RefusedTo(r, r')
  {
    ClaimExactly(r, "", None);
  }

  /** `admit_llm`: a candidate of a blocked workflow fails for good, one that must wait for the usage
      of a running call is passed over. */
  method AdmitLlm(db: Database, t: TaskId) returns (admitted: bool)
    requires db.Valid() && t in db.tasks && RowGuard(db.tasks[t], RefuseBudget)
    modifies db
    ensures admitted <==> Protocol.Admission(old(db.State()), t) == Admitted
    ensures db.State() == if Protocol.Admission(old(db.State()), t) == Refused
                          then SetRow(old(db.State()), t, RefuseBudget) else old(db.State())
    ensures admitted <==> old(Affordable(db.State(), t))
    ensures if old(Unaffordable(db.State(), t))
            then t in db.tasks && RefusedTo(old(db.tasks)[t], db.tasks[t]) else db.State() == old(db.State())
  {
    hide Inv, Affordable, Unaffordable, RefusedTo, Gate, StatusOf, CallsMade, Spent, Succeeded, RowApply;
    AdmittedExactly(db.State(), t);
    if !(t in db.nodes && db.nodes[t].llm && t.NodeTask? && t.workflow in db.runs) { return true; }
    var limits := db.runs[t.workflow].def.budget;
    var usage := WorkflowUsage(db, t.workflow);
    NoBudgetAdmits(usage.InTotal());
    if limits.None? { return true; }
    var status := StatusOf(limits.value, usage.InTotal());
    StatusIsGate(limits.value, usage.InTotal());
    if status.reason.Some? {
      var r := db.tasks[t];
      var failed := r.(status := Status.Failed, error := Some(BUDGET_ERROR), retryAt := None);
      failed := failed.(log := r.log + [Event(BudgetExceeded, Status.Failed, r.attempts, r.retries, NoDetail)]);
      RefusedExactly(r, failed);
      db.tasks := db.tasks[t := failed];
      return false;
    }
    return !status.waiting;
  }
}
