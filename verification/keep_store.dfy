/** Steps of the task store: claiming, refusing, committing and recovering one attempt. */
module KeepStore {
  import opened Types
  import opened Rows
  import opened Protocol
  import opened Invariants
  import opened UsageFacts
  import opened KeepRows
  import opened KeepFlow
  import opened KeepSubmit
  import Usage

  // ---------------------------------------------------------------- business calls

  ghost predicate NoCall(live: set<Invocation>, t: TaskId) { forall i | i in live :: i.task != t }

  lemma CallsKeptByEnd(s: Db, t: TaskId, r': TaskRow)
    requires CallsOk(s.live, s.claims, s.attested, s.tasks, s.sessions) && t in s.tasks && NoCall(s.live, t)
    requires r'.status != Running && r'.attempts == s.tasks[t].attempts
    ensures CallsOk(s.live, s.claims, s.attested, s.tasks[t := r'], s.sessions)
  {
    var tasks' := s.tasks[t := r'];
    forall i | i in s.live ensures CallOk(i, tasks', s.sessions) { assert CallOk(i, s.tasks, s.sessions); }
    forall u | u in tasks' ensures ClaimOk(tasks'[u], u, s.claims, s.sessions) {
      assert ClaimOk(s.tasks[u], u, s.claims, s.sessions);
    }
  }

  /** The owner that may commit has no call alive: it commits after its call returned, and a
      live call of the attempt could only be its own. */
  lemma CommitterIsDone(s: Db, t: TaskId, owner: string, attempt: nat, finish: RowAction)
    requires CallsOk(s.live, s.claims, s.attested, s.tasks, s.sessions) && StoreGuard(s, Commit(t, owner, attempt, finish))
    ensures NoCall(s.live, t)
  {
    forall i | i in s.live ensures i.task != t { assert CallOk(i, s.tasks, s.sessions); }
  }

  /** A session that stopped has no call alive, so its rows may be taken. */
  lemma TakenIsDone(s: Db, t: TaskId)
    requires CallsOk(s.live, s.claims, s.attested, s.tasks, s.sessions)
    requires t in s.tasks && SafeToTake(s, t)
    ensures NoCall(s.live, t)
  {
    forall i | i in s.live ensures i.task != t { assert CallOk(i, s.tasks, s.sessions); }
  }

  lemma WaitingIsDone(s: Db, t: TaskId)
    requires CallsOk(s.live, s.claims, s.attested, s.tasks, s.sessions)
    requires t in s.tasks && s.tasks[t].status != Running
    ensures NoCall(s.live, t)
  {
    forall i | i in s.live ensures i.task != t { assert CallOk(i, s.tasks, s.sessions); }
  }

  lemma CallsAfterClaim(s: Db, t: TaskId, owner: string, session: Option<SessionId>, r': TaskRow)
    requires CallsOk(s.live, s.claims, s.attested, s.tasks, s.sessions) && t in s.tasks && s.tasks[t].status != Running
    requires r'.status == Running && r'.owner == Some(owner) && r'.session == session
    requires r'.attempts == s.tasks[t].attempts + 1
    requires session.Some? ==> session.value in s.sessions && s.sessions[session.value].state != Stopped
    ensures CallsOk(s.live + {Invocation(t, r'.attempts, owner, session)},
                    s.claims[Case(t, r'.attempts) := r'],
                    s.attested, s.tasks[t := r'], s.sessions)
  {
    WaitingIsDone(s, t);
    var tasks' := s.tasks[t := r'];
    var live' := s.live + {Invocation(t, r'.attempts, owner, session)};
    var claims' := s.claims[Case(t, r'.attempts) := r'];
    forall i | i in live' ensures CallOk(i, tasks', s.sessions) {
      assert i in s.live ==> CallOk(i, s.tasks, s.sessions);
    }
    forall u | u in tasks' ensures ClaimOk(tasks'[u], u, claims', s.sessions) {
      assert ClaimOk(s.tasks[u], u, s.claims, s.sessions);
    }
  }

  // ---------------------------------------------------------------- holds and budgets

  lemma HoldsKeptByRow(s: Db, t: TaskId, r': TaskRow)
    requires HoldsOk(s.incidents, s.holds, s.tasks, s.nodes) && t in s.tasks && s.tasks[t].attempts <= r'.attempts
    requires r'.status == Running ==> s.tasks[t].attempts < r'.attempts
    ensures HoldsOk(s.incidents, s.holds, s.tasks[t := r'], s.nodes)
  {
    forall c | c in s.incidents ensures IncidentOk(c, s.incidents[c], s.holds, s.tasks[t := r'], s.nodes) {
      assert IncidentOk(c, s.incidents[c], s.holds, s.tasks, s.nodes);
    }
  }

  lemma BudgetsKeptByRow(s: Db, t: TaskId, a: RowAction)
    requires RowsOk(s.tasks) && FlowOk(s.runs, s.nodes, s.tasks) && BudgetsOk(s.runs, s.nodes, s.tasks, s.admitted)
    requires t in s.tasks && RowGuard(s.tasks[t], a) && !a.Start?
    ensures BudgetsOk(s.runs, s.nodes, s.tasks[t := RowApply(s.tasks[t], a)], s.admitted)
  {
    forall wf | wf in s.runs
      ensures BudgetOk(s.runs[wf].def.budget, s.tasks[t := RowApply(s.tasks[t], a)],
                       Usage.LlmTasks(wf, s.runs[wf].def.nodes, s.nodes), LastAdmitted(s.admitted, wf))
    {
      LlmTasksInTables(s.runs, s.nodes, s.tasks, wf);
      BudgetKept(s.runs[wf].def.budget, s.tasks, Usage.LlmTasks(wf, s.runs[wf].def.nodes, s.nodes),
                 LastAdmitted(s.admitted, wf), t, a);
    }
  }

  lemma LlmTaskIsListed(runs: map<string, RunRow>, nodes: map<TaskId, NodeRow>, tasks: map<TaskId, TaskRow>, t: TaskId)
    requires FlowOk(runs, nodes, tasks) && t in nodes && nodes[t].llm && t.NodeTask? && t.workflow in runs
    ensures t in Usage.LlmTasks(t.workflow, runs[t.workflow].def.nodes, nodes)
  {
    assert HasDefinition(runs, t);
    var n :| IsNodeOf(runs, t, n);
    LlmTasksMembers(t.workflow, runs[t.workflow].def.nodes, nodes);
    assert t == NodeTask(t.workflow, n.id);
  }

  /** The generation tasks of a workflow, as its budget sees them. */
  ghost predicate ListOk(s: Db, wf: string)
    requires wf in s.runs
  {
    var ids := Usage.LlmTasks(wf, s.runs[wf].def.nodes, s.nodes);
    Distinct(ids) && forall t :: t in ids <==> IsLlm(s, t) && t.workflow == wf
  }

  lemma ListIsOk(s: Db, wf: string)
    requires FlowOk(s.runs, s.nodes, s.tasks) && wf in s.runs
    ensures ListOk(s, wf)
  {
    LlmTasksInTables(s.runs, s.nodes, s.tasks, wf);
    forall t | IsLlm(s, t) && t.workflow == wf ensures t in Usage.LlmTasks(wf, s.runs[wf].def.nodes, s.nodes) {
      LlmTaskIsListed(s.runs, s.nodes, s.tasks, t);
    }
  }

  lemma BudgetOfClaimedRun(s: Db, t: TaskId, r': TaskRow)
    requires t in s.tasks && RowInv(s.tasks[t]) && RowInv(r')
    requires s.tasks[t].status != Success && s.tasks[t].status != Running
    requires r'.status == Running && r'.attempts == s.tasks[t].attempts + 1
    requires IsLlm(s, t) && Usage.Gate(s.runs[t.workflow].def.budget, UsageOfRun(s, t.workflow)) == Usage.Admitted
    requires ListOk(s, t.workflow)
    ensures var run := s.runs[t.workflow].def;
      BudgetOk(run.budget, s.tasks[t := r'], Usage.LlmTasks(t.workflow, run.nodes, s.nodes), Some(Case(t, r'.attempts)))
  {
    BudgetAfterClaim(s.runs[t.workflow].def.budget, s.tasks,
                     Usage.LlmTasks(t.workflow, s.runs[t.workflow].def.nodes, s.nodes), t, r');
  }

  lemma BudgetOfOtherRun(s: Db, t: TaskId, r': TaskRow, wf: string)
    requires BudgetsOk(s.runs, s.nodes, s.tasks, s.admitted)
    requires t in s.tasks && wf in s.runs && !(IsLlm(s, t) && t.workflow == wf) && ListOk(s, wf)
    ensures BudgetOk(s.runs[wf].def.budget, s.tasks[t := r'], Usage.LlmTasks(wf, s.runs[wf].def.nodes, s.nodes),
                     LastAdmitted(s.admitted, wf))
  {
    BudgetElsewhere(s.runs[wf].def.budget, s.tasks, Usage.LlmTasks(wf, s.runs[wf].def.nodes, s.nodes),
                    LastAdmitted(s.admitted, wf), t, r');
  }

  lemma BudgetsAfterClaim(s: Db, t: TaskId, r': TaskRow)
    requires BudgetsOk(s.runs, s.nodes, s.tasks, s.admitted)
    requires forall wf | wf in s.runs :: ListOk(s, wf)
    requires t in s.tasks && RowInv(s.tasks[t]) && RowInv(r')
    requires s.tasks[t].status != Success && s.tasks[t].status != Running
    requires r'.status == Running && r'.attempts == s.tasks[t].attempts + 1
    requires Admission(s, t) == Usage.Admitted
    ensures BudgetsOk(s.runs, s.nodes, s.tasks[t := r'], AdmittedAfter(s, t, Case(t, r'.attempts)))
  {
    var admitted' := AdmittedAfter(s, t, Case(t, r'.attempts));
    forall wf | wf in s.runs
      ensures BudgetOk(s.runs[wf].def.budget, s.tasks[t := r'], Usage.LlmTasks(wf, s.runs[wf].def.nodes, s.nodes),
                       LastAdmitted(admitted', wf))
    {
      if IsLlm(s, t) && t.workflow == wf {
        BudgetOfClaimedRun(s, t, r');
      } else {
        BudgetOfOtherRun(s, t, r', wf);
      }
    }
  }

  // ---------------------------------------------------------------- closing an incident

  lemma ClosedKeeps(s: Db, c: Case, resolution: Resolution)
    requires HoldsOk(s.incidents, s.holds, s.tasks, s.nodes) && c in s.incidents
    requires resolution.Decided? && c.task in s.tasks ==> s.tasks[c.task].status != Running
    ensures var s' := Closed(s, c, resolution); HoldsOk(s'.incidents, s'.holds, s.tasks, s.nodes)
  {
    var s' := Closed(s, c, resolution);
    forall d | d in s'.incidents ensures IncidentOk(d, s'.incidents[d], s'.holds, s.tasks, s.nodes) {
      assert IncidentOk(d, s.incidents[d], s.holds, s.tasks, s.nodes);
    }
    forall h | h in s'.holds ensures HoldOk(h, s'.incidents) { assert HoldOk(h, s.incidents); }
  }

  lemma CloseKeeps(s: Db, c: Case, resolution: Resolution)
    requires Inv(s) && c in s.incidents
    requires resolution.Decided? && c.task in s.tasks ==> s.tasks[c.task].status != Running
    ensures Inv(Closed(s, c, resolution))
  {
    hide RowsOk, SessionsOk, CallsOk, FlowOk, BudgetsOk;
    ClosedKeeps(s, c, resolution);
  }

  // ---------------------------------------------------------------- the steps

  /** A step that takes the attempt of `t` to its end, whoever does it. */
  lemma EndKeeps(s: Db, t: TaskId, a: RowAction)
    requires Inv(s) && t in s.tasks && RowGuard(s.tasks[t], a) && Numbered(s.tasks, a) && NoCall(s.live, t)
    requires !a.Start? && !s.tasks[t].blocked && s.tasks[t].status != Failed
    ensures Inv(SetRow(s, t, a))
  {
    var r' := RowApply(s.tasks[t], a);
    RowsKept(s.tasks, t, a);
    NotStarted(s.tasks[t], a);
    RowKeepsDef(s.tasks[t], a);
    CallsKeptByEnd(s, t, r');
    HoldsKeptByRow(s, t, r');
    FlowKeptByRow(s.runs, s.nodes, s.tasks, t, r');
    BudgetsKeptByRow(s, t, a);
  }

  lemma StartedRow(r: TaskRow, owner: string, session: Option<SessionId>)
    requires RowInv(r) && RowGuard(r, Start(owner, session))
    ensures var r' := RowApply(r, Start(owner, session));
      && RowInv(r') && r'.status == Running && r'.attempts == r.attempts + 1 && r'.owner == Some(owner) && r'.session == session
      && r'.def == r.def && !r'.blocked && r'.retries == r.retries && r'.retryLimit == r.retryLimit && r'.sequence == r.sequence
      && r.status != Success && r.status != Failed && r.status != Running && !r.blocked
  {
    RowStepInv(r, Start(owner, session));
  }

  lemma ClaimedRowOk(tasks: map<TaskId, TaskRow>, t: TaskId, r': TaskRow)
    requires RowsOk(tasks) && t in tasks && RowInv(r') && r'.sequence == tasks[t].sequence
    ensures RowsOk(tasks[t := r'])
  {
  }

  lemma ClaimKeeps(s: Db, t: TaskId, owner: string, session: Option<SessionId>, now: Time)
    requires Inv(s) && StoreGuard(s, Claim(t, owner, session, now))
    ensures Inv(AfterClaim(s, t, owner, session))
  {
    var r' := RowApply(s.tasks[t], Start(owner, session));
    StartedRow(s.tasks[t], owner, session);
    ClaimedRowOk(s.tasks, t, r');
    CallsAfterClaim(s, t, owner, session, r');
    HoldsKeptByRow(s, t, r');
    FlowKeptByRow(s.runs, s.nodes, s.tasks, t, r');
    forall wf | wf in s.runs ensures ListOk(s, wf) { ListIsOk(s, wf); }
    BudgetsAfterClaim(s, t, r');
  }

  lemma CommitKeeps(s: Db, t: TaskId, owner: string, attempt: nat, finish: RowAction)
    requires Inv(s) && StoreGuard(s, Commit(t, owner, attempt, finish))
    ensures Inv(StoreApply(s, Commit(t, owner, attempt, finish)))
  {
    assert RowInv(s.tasks[t]);
    CommitterIsDone(s, t, owner, attempt, finish);
    EndKeeps(s, t, finish);
  }

  lemma RecoverKeeps(s: Db, t: TaskId, interrupt: RowAction)
    requires Inv(s) && StoreGuard(s, Recover(t, interrupt))
    ensures Inv(TakenOver(s, t, interrupt))
  {
    assert RowInv(s.tasks[t]);
    TakenIsDone(s, t);
    EndKeeps(s, t, interrupt);
    hide Inv, SetRow, Closed;
    var s' := SetRow(s, t, interrupt);
    if Settles(s', t, s'.tasks[t]) { CloseKeeps(s', Case(t, s'.tasks[t].attempts), RetryWasScheduled); }
  }

  lemma RefuseKeeps(s: Db, t: TaskId, now: Time)
    requires Inv(s) && StoreGuard(s, Refuse(t, now))
    ensures Inv(SetRow(s, t, RefuseBudget))
  {
    WaitingIsDone(s, t);
    EndKeeps(s, t, RefuseBudget);
  }

  lemma InvKept(s: Db, a: StoreAction)
    requires Inv(s) && StoreGuard(s, a)
    ensures Inv(StoreApply(s, a))
  {
    match a
    case SubmitTask(t, def, limit, sequence) => SubmitTaskKeeps(s, t, def, limit, sequence);
    case Claim(t, owner, session, now) => ClaimKeeps(s, t, owner, session, now);
    case Refuse(t, now) => RefuseKeeps(s, t, now);
    case EndInvocation(i) =>
    case Commit(t, owner, attempt, finish) => CommitKeeps(s, t, owner, attempt, finish);
    case Recover(t, interrupt) => RecoverKeeps(s, t, interrupt);
  }
}
