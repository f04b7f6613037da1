/** The budget of a workflow, read off the results of its generation tasks: what a call costs is the number that its
    own result reports, and what is not reported is unknown. */
module TokenLaws {
  import opened Types
  import opened Rows
  import opened Bindings
  import opened Protocol
  import opened Invariants
  import opened UsageFacts
  import Usage

  /** The place of the total in the result of a generation call. */
  const TOTAL := [Key("usage"), Key("total_tokens")]

  predicate Reports(result: Json, n: nat) { PathValue(result, TOTAL) == Some(Int(n)) }

  /** The task of a generation node of the workflow. */
  predicate Generates(s: Db, wf: string, n: NodeDef) {
    && wf in s.runs && n in s.runs[wf].def.nodes
    && NodeTask(wf, n.id) in s.tasks && NodeTask(wf, n.id) in s.nodes && s.nodes[NodeTask(wf, n.id)].llm
  }

  /** What the last attempt of a row has reported: only a success reports. */
  function Cost(r: TaskRow): nat {
    if r.status != Success || r.attempts == 0 || r.result.None? then 0
    else match PathValue(r.result.value, TOTAL)
      case Some(Int(n)) => if n < 0 then 0 else n
      case _ => 0
  }

  ghost predicate LastReports(r: TaskRow) {
    r.status == Success && r.result.Some? && exists n: nat :: Reports(r.result.value, n)
  }

  /** Every attempt of the row has ended and said what it has used. */
  ghost predicate Accounted(r: TaskRow) { r.attempts == 0 || (r.attempts == 1 && LastReports(r)) }

  /** Some attempt of the row has ended without saying what it has used. */
  ghost predicate Unaccounted(r: TaskRow) { r.attempts > (if r.status == Running || LastReports(r) then 1 else 0) }

  ghost function CallsMade(s: Db, wf: string, defs: seq<NodeDef>): nat {
    if defs == [] then 0
    else CallsMade(s, wf, defs[..|defs| - 1])
         + (if Generates(s, wf, defs[|defs| - 1]) then s.tasks[NodeTask(wf, defs[|defs| - 1].id)].attempts else 0)
  }

  ghost function Spent(s: Db, wf: string, defs: seq<NodeDef>): nat {
    if defs == [] then 0
    else Spent(s, wf, defs[..|defs| - 1])
         + (if Generates(s, wf, defs[|defs| - 1]) then Cost(s.tasks[NodeTask(wf, defs[|defs| - 1].id)]) else 0)
  }

  // ---------------------------------------------------------------- one row

  /** The tokens that count for a success are those at `usage.total_tokens` of its result, if there is a
      nonnegative integer, and they are unknown otherwise. */
  lemma TokensOfSuccess(r: TaskRow, n: nat)
    requires RowInv(r) && r.status == Success && 1 <= r.attempts
    ensures r.result.Some?
    ensures Usage.KnownTokens(OutcomeOf(r.log, r.attempts)) == Some(n) <==> Reports(r.result.value, n)
  {
    assert RowExplains(r, r.attempts);
    TotalAtPath(r.result.value, n);
  }

  lemma TotalAtPath(result: Json, n: nat)
    ensures Usage.KnownTokens(Some(Done(result))) == Some(n) <==> Reports(result, n)
  {
    assert TOTAL[1..] == [Key("total_tokens")] && TOTAL[1..][1..] == [];
    if result.Obj? && "usage" in result.fields {
      var usage := result.fields["usage"];
      assert PathValue(result, TOTAL) == PathValue(usage, TOTAL[1..]);
      if usage.Obj? && "total_tokens" in usage.fields {
        assert PathValue(usage, TOTAL[1..]) == PathValue(usage.fields["total_tokens"], []);
      }
    }
  }

  /** The contribution of one row, in the terms of its columns. */
  lemma RowSums(r: TaskRow)
    requires RowInv(r)
    ensures var u := Usage.RowTotals(r);
      && u.calls == r.attempts && u.tokens == Cost(r) && u.missing >= u.running
      && (u.missing > u.running <==> Unaccounted(r))
      && (u.missing == 0 <==> Accounted(r))
  {
    TotalsOfRow(r);
    if r.status == Success && 1 <= r.attempts {
      var known := Usage.KnownTokens(OutcomeOf(r.log, r.attempts));
      if known.Some? {
        TokensOfSuccess(r, known.value);
      } else {
        forall n: nat ensures !Reports(r.result.value, n) { TokensOfSuccess(r, n); }
        var total := PathValue(r.result.value, TOTAL);
        assert total.Some? && total.value.Int? && 0 <= total.value.n ==> Reports(r.result.value, total.value.n);
      }
    }
    hide Usage.KnownTokens, LogExplainsRow, CountsAgree;
  }

  // ---------------------------------------------------------------- all rows of a workflow

  lemma {:induction false} WorkflowSums(s: Db, wf: string, defs: seq<NodeDef>)
    requires wf in s.runs && (forall n | n in defs :: n in s.runs[wf].def.nodes)
    requires forall n | n in defs :: NodeTask(wf, n.id) in s.tasks && RowInv(s.tasks[NodeTask(wf, n.id)])
    ensures var u := Usage.UsageOf(s.tasks, Usage.LlmTasks(wf, defs, s.nodes));
      && u.calls == CallsMade(s, wf, defs) && u.tokens == Spent(s, wf, defs) && u.missing >= u.running
      && (u.missing > u.running <==> exists n :: n in defs && Generates(s, wf, n) && Unaccounted(s.tasks[NodeTask(wf, n.id)]))
      && (u.missing == 0 <==> forall n | n in defs && Generates(s, wf, n) :: Accounted(s.tasks[NodeTask(wf, n.id)]))
  {
    hide RowInv, Usage.RowTotals, Cost, Accounted, Unaccounted;
    if defs != [] {
      var front, last := defs[..|defs| - 1], defs[|defs| - 1];
      assert forall n :: n in defs <==> n in front || n == last;
      WorkflowSums(s, wf, front);
      var ids := Usage.LlmTasks(wf, front, s.nodes);
      var t := NodeTask(wf, last.id);
      if Generates(s, wf, last) {
        assert (ids + [t])[..|ids|] == ids;
        RowSums(s.tasks[t]);
      }
    }
  }

  /** The task of a generation node in a workflow with a budget. */
  predicate Budgeted(s: Db, t: TaskId) {
    t.NodeTask? && t in s.nodes && s.nodes[t].llm && t.workflow in s.runs && s.runs[t.workflow].def.budget.Some?
  }

  /** The budget of the workflow allows another call: calls are left and, under a token cap, the reported tokens are
      below it and every call that was started has reported. */
  ghost predicate MayCall(s: Db, wf: string)
    requires wf in s.runs && s.runs[wf].def.budget.Some?
  {
    var defs, budget := s.runs[wf].def.nodes, s.runs[wf].def.budget.value;
    && (budget.maxCalls.Some? ==> CallsMade(s, wf, defs) < budget.maxCalls.value)
    && (budget.maxTokens.Some? ==>
          && Spent(s, wf, defs) < budget.maxTokens.value
          && forall n | n in defs && Generates(s, wf, n) :: Accounted(s.tasks[NodeTask(wf, n.id)]))
  }

  /** The budget will never allow another call: the calls are used up, or under a token cap the reported tokens
      reach it or a call has ended without reporting. */
  ghost predicate UsedUp(s: Db, wf: string)
    requires wf in s.runs && s.runs[wf].def.budget.Some?
  {
    var defs, budget := s.runs[wf].def.nodes, s.runs[wf].def.budget.value;
    || (budget.maxCalls.Some? && budget.maxCalls.value <= CallsMade(s, wf, defs))
    || (budget.maxTokens.Some? && budget.maxTokens.value <= Spent(s, wf, defs))
    || (budget.maxTokens.Some? && exists n :: n in defs && Generates(s, wf, n) && Unaccounted(s.tasks[NodeTask(wf, n.id)]))
  }

  /** The gate, said of the stored results. */
  lemma AdmissionExactly(s: Db, wf: string, id: string)
    requires Inv(s) && wf in s.runs && s.runs[wf].def.budget.Some?
    requires NodeTask(wf, id) in s.nodes && s.nodes[NodeTask(wf, id)].llm
    ensures Protocol.Admission(s, NodeTask(wf, id)) == Usage.Refused <==> UsedUp(s, wf)
    ensures Protocol.Admission(s, NodeTask(wf, id)) == Usage.Admitted <==> MayCall(s, wf)
  {
    hide Inv, RowInv, Cost, Accounted, Unaccounted, Generates, CallsMade, Spent, Usage.Gate, Usage.UsageOf, Usage.LlmTasks;
    NodesHaveRows(s, wf);
    WorkflowSums(s, wf, s.runs[wf].def.nodes);
    GateExactly(s.runs[wf].def.budget.value, UsageOfRun(s, wf));
  }

  lemma GateExactly(budget: Budget, u: Usage.Totals)
    requires u.missing >= u.running
    ensures Usage.Gate(Some(budget), u) == Usage.Refused <==>
              || (budget.maxCalls.Some? && budget.maxCalls.value <= u.calls)
              || (budget.maxTokens.Some? && budget.maxTokens.value <= u.tokens)
              || (budget.maxTokens.Some? && u.missing > u.running)
    ensures Usage.Gate(Some(budget), u) == Usage.Admitted <==>
              && (budget.maxCalls.Some? ==> u.calls < budget.maxCalls.value)
              && (budget.maxTokens.Some? ==> u.tokens < budget.maxTokens.value && u.missing == 0)
  {
  }

  lemma NodesHaveRows(s: Db, wf: string)
    requires Inv(s) && wf in s.runs
    ensures forall n | n in s.runs[wf].def.nodes :: NodeTask(wf, n.id) in s.tasks && RowInv(s.tasks[NodeTask(wf, n.id)])
  {
    hide SessionsOk, CallsOk, HoldsOk, BudgetsOk, RowInv, HasDefinition;
    forall n | n in s.runs[wf].def.nodes ensures NodeTask(wf, n.id) in s.tasks { assert NodeOk(s.nodes, s.tasks, wf, n); }
  }

  /** A workflow whose committed total reaches its cap gets no further call: here one result suffices. */
  lemma OneResultReachesCap(s: Db, wf: string, id: string, n: NodeDef, cap: nat, total: nat)
    requires Inv(s) && wf in s.runs && s.runs[wf].def.budget.Some? && s.runs[wf].def.budget.value.maxTokens == Some(cap)
    requires NodeTask(wf, id) in s.nodes && s.nodes[NodeTask(wf, id)].llm && Generates(s, wf, n)
    requires var r := s.tasks[NodeTask(wf, n.id)];
      r.status == Success && 1 <= r.attempts && r.result.Some? && Reports(r.result.value, total)
    requires cap <= total
    ensures Protocol.Admission(s, NodeTask(wf, id)) == Usage.Refused
  {
    hide Inv;
    AdmissionExactly(s, wf, id);
    SpentCovers(s, wf, s.runs[wf].def.nodes, n);
  }

  lemma {:induction false} SpentCovers(s: Db, wf: string, defs: seq<NodeDef>, n: NodeDef)
    requires n in defs && Generates(s, wf, n)
    ensures Cost(s.tasks[NodeTask(wf, n.id)]) <= Spent(s, wf, defs)
  {
    if defs[|defs| - 1] != n {
      assert n in defs[..|defs| - 1];
      SpentCovers(s, wf, defs[..|defs| - 1], n);
    }
  }
}
