/** How one transition of one row moves the totals of its workflow. */
module UsageFacts {
  import opened Types
  import opened Rows
  import opened Usage

  // ---------------------------------------------------------------- one row

  lemma {:induction false} SumsOfLost(log: seq<Event>, attempts: nat)
    requires forall a | 1 <= a <= attempts :: KnownTokens(OutcomeOf(log, a)).None?
    ensures SumTokens(log, attempts) == 0 && SumMissing(log, attempts) == attempts
  {
    if attempts > 0 { SumsOfLost(log, attempts - 1); }
  }

  /** Only the last attempt of a successful task can have usage. */
  lemma TotalsOfRow(r: TaskRow)
    requires RowInv(r)
    ensures r.status != Success || r.attempts == 0 ==>
      RowTotals(r) == Totals(r.attempts, if r.status == Running then 1 else 0, 0, r.attempts)
    ensures r.status == Success && r.attempts > 0 ==>
      RowTotals(r) == Totals(r.attempts, 0, Tokens(r.log, r.attempts), r.attempts - 1 + Missing(r.log, r.attempts))
  {
    forall a: nat | 1 <= a <= r.attempts && (a < r.attempts || r.status != Success)
      ensures KnownTokens(OutcomeOf(r.log, a)).None?
    {
      assert RowExplains(r, a);
    }
    if r.attempts > 0 && r.status == Success {
      SumsOfLost(r.log, r.attempts - 1);
    } else {
      SumsOfLost(r.log, r.attempts);
    }
  }

  // ---------------------------------------------------------------- one row among many

  ghost predicate Distinct(ids: seq<TaskId>) {
    forall i, j | 0 <= i < j < |ids| :: ids[i] != ids[j]
  }

  lemma {:induction false} UsageUnchanged(tasks: map<TaskId, TaskRow>, tasks': map<TaskId, TaskRow>, ids: seq<TaskId>)
    requires forall t | t in ids :: (t in tasks <==> t in tasks') && (t in tasks ==> RowTotals(tasks[t]) == RowTotals(tasks'[t]))
    ensures UsageOf(tasks, ids) == UsageOf(tasks', ids)
  {
    if ids != [] {
      var front := ids[..|ids| - 1];
      assert forall t | t in front :: t in ids;
      UsageUnchanged(tasks, tasks', front);
    }
  }

  /** Replacing one row replaces its contribution. */
  lemma {:induction false} UsageReplaced(tasks: map<TaskId, TaskRow>, ids: seq<TaskId>, t: TaskId, r': TaskRow)
    requires Distinct(ids) && t in tasks
    ensures t !in ids ==> UsageOf(tasks[t := r'], ids) == UsageOf(tasks, ids)
    ensures t in ids ==>
      UsageOf(tasks[t := r'], ids).Plus(RowTotals(tasks[t])) == UsageOf(tasks, ids).Plus(RowTotals(r'))
  {
    if ids != [] {
      var front, last := ids[..|ids| - 1], ids[|ids| - 1];
      UsageReplaced(tasks, front, t, r');
      if last == t {
        assert t !in front;
      }
    }
  }

  /** The calls of a workflow include those of each of its tasks. */
  lemma {:induction false} UsageIncludes(tasks: map<TaskId, TaskRow>, ids: seq<TaskId>, t: TaskId, u: TaskId)
    requires Distinct(ids) && t in tasks && t in ids
    ensures UsageOf(tasks, ids).missing >= RowTotals(tasks[t]).missing
    ensures u in tasks && u in ids && t != u ==>
      UsageOf(tasks, ids).missing >= RowTotals(tasks[t]).missing + RowTotals(tasks[u]).missing
    ensures UsageOf(tasks, ids).running >= RowTotals(tasks[t]).running
    ensures UsageOf(tasks, ids).calls >= RowTotals(tasks[t]).calls
  {
    var front, last := ids[..|ids| - 1], ids[|ids| - 1];
    if last == t {
      assert u in ids && t != u ==> u in front;
      if u in front && u in tasks { UsageIncludes(tasks, front, u, u); }
    } else {
      assert t in front;
      UsageIncludes(tasks, front, t, u);
    }
  }

  lemma {:induction false} UsageOfNewRows(tasks: map<TaskId, TaskRow>, ids: seq<TaskId>)
    requires forall t | t in ids && t in tasks :: tasks[t].attempts == 0 && tasks[t].status != Running
    ensures var u := UsageOf(tasks, ids); u.calls == 0 && u.running == 0 && u.tokens == 0 && u.missing == 0
  {
    if ids != [] {
      var front := ids[..|ids| - 1];
      assert forall t | t in front :: t in ids;
      UsageOfNewRows(tasks, front);
    }
  }

  /** A call that is running has no known usage yet, and neither has one that was lost. */
  lemma {:induction false} MissingCoversRunning(tasks: map<TaskId, TaskRow>, ids: seq<TaskId>, t: TaskId)
    requires Distinct(ids) && forall u | u in ids && u in tasks :: RowInv(tasks[u])
    ensures UsageOf(tasks, ids).missing >= UsageOf(tasks, ids).running
    ensures t in ids && t in tasks && tasks[t].status != Running && tasks[t].status != Success && tasks[t].attempts > 0 ==>
              UsageOf(tasks, ids).missing > UsageOf(tasks, ids).running
  {
    if ids != [] {
      var front, last := ids[..|ids| - 1], ids[|ids| - 1];
      assert forall u | u in front :: u in ids;
      MissingCoversRunning(tasks, front, t);
      assert last in ids;
      if last in tasks { TotalsOfRow(tasks[last]); }
      assert t in ids ==> t in front || t == last;
    }
  }

  // ---------------------------------------------------------------- the list of tasks

  lemma {:induction false} LlmTasksUnchanged(wf: string, defs: seq<NodeDef>, nodes: map<TaskId, NodeRow>,
                                             nodes': map<TaskId, NodeRow>)
    requires forall n | n in defs :: var t := NodeTask(wf, n.id);
               (t in nodes <==> t in nodes') && (t in nodes ==> nodes[t].llm == nodes'[t].llm)
    ensures LlmTasks(wf, defs, nodes) == LlmTasks(wf, defs, nodes')
  {
    if defs != [] {
      var front := defs[..|defs| - 1];
      assert forall n | n in front :: n in defs;
      assert defs[|defs| - 1] in defs;
      LlmTasksUnchanged(wf, front, nodes, nodes');
    }
  }

  lemma {:induction false} LlmTasksMembers(wf: string, defs: seq<NodeDef>, nodes: map<TaskId, NodeRow>)
    requires forall i, j | 0 <= i < j < |defs| :: defs[i].id != defs[j].id
    ensures Distinct(LlmTasks(wf, defs, nodes))
    ensures forall t :: t in LlmTasks(wf, defs, nodes) <==>
              exists n | n in defs :: t == NodeTask(wf, n.id) && t in nodes && nodes[t].llm
  {
    if defs != [] {
      var front, last := defs[..|defs| - 1], defs[|defs| - 1];
      LlmTasksMembers(wf, front, nodes);
      var t := NodeTask(wf, last.id);
      assert t !in LlmTasks(wf, front, nodes);
      assert last in defs && forall n :: n in defs <==> n in front || n == last;
    }
  }
}
