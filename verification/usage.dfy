/** LLM accounting recomputed from committed attempts, and the budget gate. */
module Usage {
  import opened Types
  import opened Rows

  // ---------------------------------------------------------------- one attempt

  /** The known total of one attempt, if its result reports one. */
  function KnownTokens(o: Option<Outcome>): Option<nat> {
    match o
    case Some(Done(Obj(result))) =>
      if "usage" in result && result["usage"].Obj? && "total_tokens" in result["usage"].fields then
        match result["usage"].fields["total_tokens"]
        case Int(n) => if n >= 0 then Some(n as nat) else None
        case _ => None
      else None
    case _ => None
  }

  function Tokens(log: seq<Event>, attempt: nat): nat {
    match KnownTokens(OutcomeOf(log, attempt)) case Some(n) => n case None => 0
  }

  function Missing(log: seq<Event>, attempt: nat): nat {
    if KnownTokens(OutcomeOf(log, attempt)).None? then 1 else 0
  }

  // ---------------------------------------------------------------- totals

  function SumTokens(log: seq<Event>, attempts: nat): nat {
    if attempts == 0 then 0 else SumTokens(log, attempts - 1) + Tokens(log, attempts)
  }

  function SumMissing(log: seq<Event>, attempts: nat): nat {
    if attempts == 0 then 0 else SumMissing(log, attempts - 1) + Missing(log, attempts)
  }

  /** The part of `workflow_usage` that the budget reads. */
  datatype Totals = Totals(calls: nat, running: nat, tokens: nat, missing: nat) {
    function Plus(other: Totals): Totals {
      Totals(calls + other.calls, running + other.running, tokens + other.tokens, missing + other.missing)
    }
  }

  function RowTotals(r: TaskRow): Totals {
    Totals(r.attempts, if r.status == Running then 1 else 0, SumTokens(r.log, r.attempts), SumMissing(r.log, r.attempts))
  }

  function UsageOf(tasks: map<TaskId, TaskRow>, ids: seq<TaskId>): Totals {
    if ids == [] then Totals(0, 0, 0, 0)
    else
      var rest := UsageOf(tasks, ids[..|ids| - 1]);
      var t := ids[|ids| - 1];
      if t in tasks then rest.Plus(RowTotals(tasks[t])) else rest
  }

  /** The generation tasks of a workflow, in the order of its definition. */
  function LlmTasks(workflow: string, defs: seq<NodeDef>, nodes: map<TaskId, NodeRow>): seq<TaskId> {
    if defs == [] then []
    else
      var rest := LlmTasks(workflow, defs[..|defs| - 1], nodes);
      var t := NodeTask(workflow, defs[|defs| - 1].id);
      if t in nodes && nodes[t].llm then rest + [t] else rest
  }

  // ---------------------------------------------------------------- the gate

  datatype Admission = Admitted | MustWait | Refused

  /** `budget_status`: `Refused` is `blocked`, `MustWait` is `waiting_for_usage`. */
  function Gate(budget: Option<Budget>, u: Totals): Admission {
    match budget
    case None => Admitted
    case Some(Budget(maxCalls, maxTokens)) =>
      if maxCalls.Some? && u.calls >= maxCalls.value then Refused
      else if maxTokens.None? then Admitted
      else if u.tokens >= maxTokens.value || u.missing > u.running then Refused
      else if u.running > 0 then MustWait
      else Admitted
  }
}
