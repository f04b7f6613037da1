/** When the stored retry limit bounds the retries of a task. */
module RetryBudget {
  import opened Types
  import opened Rows
  import opened Protocol
  import opened Reachable
  import opened History
  import opened Safety

  /** However a task submitted with this definition and limit is run, its retries stay within
      the limit stored in its row, which operators may raise. */
  ghost predicate LimitBinds(def: TaskDef, limit: nat) {
    forall run: seq<Db>, k: nat, i: nat, t: TaskId, sequence: nat |
      Behaviour(run) && TakesStep(run, k, ByStore(SubmitTask(t, def, limit, sequence))) && k < i < |run| ::
      t in run[i].tasks && run[i].tasks[t].retries <= run[i].tasks[t].retryLimit
  }

  /** The limit binds exactly when the task has no cap of its own above it. The executor in the
      claiming process checks the stored limit as well, but a remote report and a recovery
      only ask the cap of the decoded task. */
  lemma LimitBindsExactly(def: TaskDef, limit: nat)
    ensures LimitBinds(def, limit) <==> def.maxRetries.None? || def.maxRetries.value <= limit
  {
    if def.maxRetries.None? || def.maxRetries.value <= limit {
      forall run: seq<Db>, k: nat, i: nat, t: TaskId, sequence: nat |
        Behaviour(run) && TakesStep(run, k, ByStore(SubmitTask(t, def, limit, sequence))) && k < i < |run|
        ensures t in run[i].tasks && run[i].tasks[t].retries <= run[i].tasks[t].retryLimit
      {
        WithinLimit(run, k, i, t, def, limit, sequence);
      }
    } else {
      var run := RetryAgain(def, limit, limit + 1);
      assert TakesStep(run, 1, ByStore(SubmitTask(TASK, def, limit, 0)));
      assert run[|run| - 1].tasks[TASK].retries > run[|run| - 1].tasks[TASK].retryLimit;
    }
  }

  lemma WithinLimit(run: seq<Db>, k: nat, i: nat, t: TaskId, def: TaskDef, limit: nat, sequence: nat)
    requires Behaviour(run) && TakesStep(run, k, ByStore(SubmitTask(t, def, limit, sequence))) && k < i < |run|
    requires def.maxRetries.None? || def.maxRetries.value <= limit
    ensures t in run[i].tasks && run[i].tasks[t].retries <= run[i].tasks[t].retryLimit
  {
    hide Steps;
    TaskAlong(run, k + 1, i, t);
    RetryBounds(run, i, t);
  }

  // ---------------------------------------------------------------- the run that passes the limit

  const TASK := Plain("task")
  const WORKER: WorkerId := "worker"
  const SESSION: SessionId := "session"

  function Clock(def: TaskDef): Time {
    if def.scheduledAt.Some? then def.scheduledAt.value else 0
  }

  ghost predicate OneTask(s: Db, def: TaskDef, limit: nat, k: nat) {
    && s.tasks.Keys == {TASK} && s.nodes == map[] && s.holds == {}
    && s.sessions == map[SESSION := SessionRow(WORKER, ActiveSession, Clock(def), 1, None, false, "host")]
    && s.registry == map[WORKER := RegistryRow(SESSION, true, Clock(def))]
    && s.tasks[TASK].def == def && s.tasks[TASK].retryLimit == limit && s.tasks[TASK].retries == k
  }

  /** The task waits for its next attempt after `k` retries, and its worker is ready to claim. */
  ghost predicate Waits(s: Db, def: TaskDef, limit: nat, k: nat) {
    && OneTask(s, def, limit, k) && s.live == {}
    && (s.tasks[TASK].status == Pending || s.tasks[TASK].status == Retrying)
    && !s.tasks[TASK].blocked && s.tasks[TASK].retryAt.None?
  }

  /** The task is claimed by the worker, and `live` are the calls that are going. */
  ghost predicate Works(s: Db, def: TaskDef, limit: nat, k: nat, live: set<Invocation>) {
    && OneTask(s, def, limit, k) && s.live == live
    && s.tasks[TASK].status == Running && !s.tasks[TASK].blocked
    && s.tasks[TASK].owner == Some(WORKER) && s.tasks[TASK].session == Some(SESSION)
  }

  ghost predicate Waiting(run: seq<Db>, def: TaskDef, limit: nat, k: nat) {
    && Behaviour(run) && |run| >= 3 && TakesStep(run, 1, ByStore(SubmitTask(TASK, def, limit, 0)))
    && Waits(run[|run| - 1], def, limit, k)
  }

  lemma Extend(run: seq<Db>, a: Action) returns (run': seq<Db>)
    requires Behaviour(run) && Guard(run[|run| - 1], a)
    ensures run' == run + [Apply(run[|run| - 1], a)] && Behaviour(run')
  {
    hide Guard, Apply;
    run' := run + [Apply(run[|run| - 1], a)];
    forall i | 0 < i < |run'| ensures Next(run'[i - 1], run'[i]) {
      if i < |run| {
        assert run'[i - 1] == run[i - 1] && run'[i] == run[i] && Next(run[i - 1], run[i]);
      } else {
        assert Guard(run'[i - 1], a) && run'[i] == Apply(run'[i - 1], a);
      }
    }
  }

  lemma Begin(def: TaskDef, limit: nat) returns (run: seq<Db>)
    requires def.maxRetries.Some? && limit < def.maxRetries.value
    ensures Waiting(run, def, limit, 0)
  {
    var register := ByRegistry(Register(WORKER, SESSION, 1, "host", Clock(def)));
    var submit := ByStore(SubmitTask(TASK, def, limit, 0));
    assert Behaviour([EMPTY]);
    var r1 := Extend([EMPTY], register);
    var s := r1[1];
    assert Guard(s, submit);
    run := Extend(r1, submit);
    assert run[1] == s && run[2] == Apply(s, submit);
    assert Apply(s, submit).tasks == map[TASK := NewRow(def, limit, false, 0)];
  }

  const FAILURE := Error("ConnectionError", Some(Transient))

  function Report(s: Db): RowAction
    requires TASK in s.tasks
  {
    FinishFailure(FAILURE, false, RemoteService, 0, 0, s.tasks[TASK].sequence + 1)
  }

  function ClaimIt(def: TaskDef): Action { ByStore(Claim(TASK, WORKER, Some(SESSION), Clock(def))) }

  function Call(s: Db): Invocation
    requires TASK in s.tasks
  {
    Invocation(TASK, s.tasks[TASK].attempts + 1, WORKER, Some(SESSION))
  }

  lemma Claims(s: Db, def: TaskDef, limit: nat, k: nat)
    requires Waits(s, def, limit, k)
    ensures Guard(s, ClaimIt(def))
    ensures Works(Apply(s, ClaimIt(def)), def, limit, k, {Call(s)})
  {
    assert IsCurrent(s, WORKER, SESSION);
    assert Guard(s, ClaimIt(def)) by { hide RowApply; }
    hide Guard, Eligible, Due, Admission, Claimable;
    var s' := AfterClaim(s, TASK, WORKER, Some(SESSION));
    assert s'.tasks.Keys == {TASK} && s'.live == {Call(s)};
  }

  lemma Returns(s: Db, def: TaskDef, limit: nat, k: nat, call: Invocation)
    requires Works(s, def, limit, k, {call})
    ensures Guard(s, ByStore(EndInvocation(call)))
    ensures Works(Apply(s, ByStore(EndInvocation(call))), def, limit, k, {})
  {
    assert {call} - {call} == {};
  }

  function ReportIt(s: Db): Action
    requires TASK in s.tasks
  {
    ByStore(Commit(TASK, WORKER, s.tasks[TASK].attempts, Report(s)))
  }

  lemma Reports(s: Db, def: TaskDef, limit: nat, k: nat)
    requires Works(s, def, limit, k, {}) && def.maxRetries.Some? && k < def.maxRetries.value && limit < def.maxRetries.value
    ensures Guard(s, ReportIt(s))
    ensures Waits(Apply(s, ReportIt(s)), def, limit, k + 1)
  {
    assert Guard(s, ReportIt(s));
    assert Apply(s, ReportIt(s)).tasks.Keys == {TASK};
  }

  lemma {:induction false} RetryAgain(def: TaskDef, limit: nat, k: nat) returns (run: seq<Db>)
    requires def.maxRetries.Some? && limit < def.maxRetries.value && k <= def.maxRetries.value
    ensures Waiting(run, def, limit, k)
    decreases k
  {
    hide Guard, Apply;
    if k == 0 {
      run := Begin(def, limit);
    } else {
      var r0 := RetryAgain(def, limit, k - 1);
      var s := r0[|r0| - 1];
      Claims(s, def, limit, k - 1);
      var r1 := Extend(r0, ClaimIt(def));
      Returns(r1[|r1| - 1], def, limit, k - 1, Call(s));
      var r2 := Extend(r1, ByStore(EndInvocation(Call(s))));
      Reports(r2[|r2| - 1], def, limit, k - 1);
      run := Extend(r2, ReportIt(r2[|r2| - 1]));
      assert run[1] == r0[1] && run[2] == r0[2];
    }
  }
}
