/** What a transition of one row does to the rows and to the budgets. */
module KeepRows {
  import opened Types
  import opened Rows
  import opened Invariants
  import opened UsageFacts
  import Usage

  /** The transition numbers the row anew only with a number above all others. */
  predicate Numbered(tasks: map<TaskId, TaskRow>, a: RowAction) {
    match a
    case FinishSuccess(_, sequence) => forall t | t in tasks :: tasks[t].sequence < sequence
    case FinishFailure(_, _, _, _, _, sequence) => forall t | t in tasks :: tasks[t].sequence < sequence
    case Interrupt(_, _, _, sequence) => forall t | t in tasks :: tasks[t].sequence < sequence
    case _ => true
  }

  lemma NumberUnused(tasks: map<TaskId, TaskRow>, t: TaskId, a: RowAction, u: TaskId)
    requires t in tasks && u in tasks && u != t && tasks[u].sequence != tasks[t].sequence
    requires RowGuard(tasks[t], a) && Numbered(tasks, a)
    ensures RowApply(tasks[t], a).sequence != tasks[u].sequence
  {
  }

  lemma RowsKept(tasks: map<TaskId, TaskRow>, t: TaskId, a: RowAction)
    requires RowsOk(tasks) && t in tasks && RowGuard(tasks[t], a) && Numbered(tasks, a)
    ensures RowsOk(tasks[t := RowApply(tasks[t], a)])
  {
    RowStepInv(tasks[t], a);
    var r' := RowApply(tasks[t], a);
    forall u | u in tasks && u != t ensures r'.sequence != tasks[u].sequence { NumberUnused(tasks, t, a, u); }
  }

  /** Whatever ends or settles an attempt that had no known usage, the last admitted call
      absorbs it. */
  lemma TokensKept(cap: nat, tasks: map<TaskId, TaskRow>, ids: seq<TaskId>, last: Option<Case>, t: TaskId, r': TaskRow)
    requires Distinct(ids) && t in tasks && RowInv(tasks[t]) && RowInv(r')
    requires forall u | u in ids && u in tasks :: RowInv(tasks[u])
    requires tasks[t].status != Success && r'.attempts == tasks[t].attempts && (r'.status == Running ==> tasks[t].status == Running)
    requires forall a: nat | 1 <= a < r'.attempts :: OutcomeOf(r'.log, a) == OutcomeOf(tasks[t].log, a)
    requires TokensOk(cap, Usage.UsageOf(tasks, ids), tasks, ids, last)
    ensures var tasks' := tasks[t := r']; TokensOk(cap, Usage.UsageOf(tasks', ids), tasks', ids, last)
  {
    var r := tasks[t];
    UsageReplaced(tasks, ids, t, r');
    TotalsOfRow(r);
    TotalsOfRow(r');
    if t in ids {
      UsageIncludes(tasks, ids, t, t);
      if r.attempts > 0 {
        var c := last.value;
        TotalsOfRow(tasks[c.task]);
        UsageIncludes(tasks, ids, t, c.task);
        MissingWithin(tasks[c.task], c.attempt);
        assert RowExplains(r, r.attempts) && RowExplains(r', r.attempts);
        assert c == Case(t, r.attempts);
      }
    }
  }

  lemma {:induction false} MissingSum(log: seq<Event>, attempts: nat, a: nat)
    requires 1 <= a <= attempts
    ensures Usage.SumMissing(log, attempts) >= Usage.Missing(log, a)
  {
    if a < attempts { MissingSum(log, attempts - 1, a); }
  }

  lemma MissingWithin(r: TaskRow, a: nat)
    requires 1 <= a <= r.attempts
    ensures Usage.RowTotals(r).missing >= Usage.Missing(r.log, a)
  {
    MissingSum(r.log, r.attempts, a);
  }

  /** Apart from starting an attempt, no transition changes what is known of earlier ones. */
  lemma EarlierAttempts(r: TaskRow, a: RowAction, n: nat)
    requires RowInv(r) && RowGuard(r, a) && !a.Start? && 1 <= n < r.attempts
    ensures RowApply(r, a).attempts == r.attempts
    ensures OutcomeOf(RowApply(r, a).log, n) == OutcomeOf(r.log, n)
  {
    RowStepInv(r, a);
    assert RowExplains(r, n) && RowExplains(RowApply(r, a), n);
  }

  lemma BudgetKept(budget: Option<Budget>, tasks: map<TaskId, TaskRow>, ids: seq<TaskId>, last: Option<Case>,
                   t: TaskId, a: RowAction)
    requires Distinct(ids) && RowsOk(tasks) && t in tasks && RowGuard(tasks[t], a) && !a.Start?
    requires BudgetOk(budget, tasks, ids, last)
    ensures BudgetOk(budget, tasks[t := RowApply(tasks[t], a)], ids, last)
  {
    var r, r' := tasks[t], RowApply(tasks[t], a);
    RowStepInv(r, a);
    UsageReplaced(tasks, ids, t, r');
    NotStarted(r, a);
    forall n: nat | 1 <= n < r'.attempts ensures OutcomeOf(r'.log, n) == OutcomeOf(r.log, n) {
      EarlierAttempts(r, a, n);
    }
    if budget.Some? && budget.value.maxTokens.Some? {
      TokensKept(budget.value.maxTokens.value, tasks, ids, last, t, r');
    }
  }

  lemma NotStarted(r: TaskRow, a: RowAction)
    requires RowGuard(r, a) && !a.Start?
    ensures r.status != Success && RowApply(r, a).attempts == r.attempts && RowApply(r, a).status != Running
  {
  }

  /** An admitted generation call becomes the last one; the calls before it are all accounted for. */
  lemma BudgetAfterClaim(budget: Option<Budget>, tasks: map<TaskId, TaskRow>, ids: seq<TaskId>, t: TaskId, r': TaskRow)
    requires Distinct(ids) && t in tasks && t in ids && RowInv(tasks[t]) && RowInv(r')
    requires tasks[t].status != Success && tasks[t].status != Running
    requires r'.status == Running && r'.attempts == tasks[t].attempts + 1
    requires Usage.Gate(budget, Usage.UsageOf(tasks, ids)) == Usage.Admitted
    ensures BudgetOk(budget, tasks[t := r'], ids, Some(Case(t, r'.attempts)))
  {
    UsageReplaced(tasks, ids, t, r');
    TotalsOfRow(tasks[t]);
    TotalsOfRow(r');
    assert RowExplains(r', r'.attempts);
  }

  /** A claim of another task leaves the budget of this workflow alone. */
  lemma BudgetElsewhere(budget: Option<Budget>, tasks: map<TaskId, TaskRow>, ids: seq<TaskId>, last: Option<Case>,
                        t: TaskId, r': TaskRow)
    requires Distinct(ids) && t !in ids && t in tasks && BudgetOk(budget, tasks, ids, last)
    ensures BudgetOk(budget, tasks[t := r'], ids, last)
  {
    UsageReplaced(tasks, ids, t, r');
  }
}
