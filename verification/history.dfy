/** How one task row, one session, one run and one incident change over a stretch of a run. */
module History {
  import opened Types
  import opened Rows
  import opened Bindings
  import opened Protocol
  import opened Invariants
  import opened Reachable
  import KeepSessions
  import KeepSubmit

  // ---------------------------------------------------------------- one row

  /** `r'` is the same row at a later time. */
  ghost predicate RowLater(r: TaskRow, r': TaskRow) {
    && |r.log| <= |r'.log| && r'.log[..|r.log|] == r.log
    && r.attempts <= r'.attempts && r.retries <= r'.retries && r.retryLimit <= r'.retryLimit
    && r'.def == r.def.(kwargs := r'.def.kwargs)
    && (!r.blocked ==> !r'.blocked && r'.def == r.def)
    && (r.status == Success ==> r' == r)
    && (r'.status == Running && r'.attempts == r.attempts ==>
          r.status == Running && r'.owner == r.owner && r'.session == r.session)
    && (WasInterrupted(r) && !r.def.idempotent ==> WasInterrupted(r') && r'.attempts == r.attempts)
  }

  lemma LaterSelf(r: TaskRow)
    ensures RowLater(r, r)
  {
  }

  lemma {:induction false} CountGrows(log: seq<Event>, more: seq<Event>, kind: EventKind)
    ensures Count(log, kind) <= Count(log + more, kind)
  {
    if more == [] {
      assert log + more == log;
    } else {
      assert (log + more)[..|log + more| - 1] == log + more[..|more| - 1];
      CountGrows(log, more[..|more| - 1], kind);
    }
  }

  lemma ActionIsLater(m: TaskRow, a: RowAction)
    requires RowInv(m) && RowGuard(m, a)
    ensures RowLater(m, RowApply(m, a))
  {
    CountGrows(m.log, Entries(m, a), Interrupted);
    assert m.log <= m.log + Entries(m, a);
  }

  lemma LaterTransitive(r: TaskRow, m: TaskRow, r': TaskRow)
    requires RowLater(r, m) && RowLater(m, r')
    ensures RowLater(r, r')
  {
    assert r'.log[..|r.log|] == r'.log[..|m.log|][..|r.log|];
  }

  // ---------------------------------------------------------------- one step of the system

  datatype Effect = Nothing | On(task: TaskId, action: RowAction)

  /** The transition of a row that a step stands for. */
  function EffectOf(s: Db, a: Action): Effect {
    match a
    case ByStore(Claim(t, owner, session, _)) => On(t, Start(owner, session))
    case ByStore(Refuse(t, _)) => On(t, RefuseBudget)
    case ByStore(Commit(t, _, _, finish)) => On(t, finish)
    case ByStore(Recover(t, interrupt)) => On(t, interrupt)
    case ByRecovery(ReconcileStopped(t)) => On(t, Reconcile)
    case ByRecovery(Decide(c, decision, extra, supplied, retryAt)) => On(c.task, Resolve(decision, extra, supplied, retryAt))
    case ByWorkflow(Dispatch(wf, n)) =>
      var kwargs := Materialize(n, Outputs(s.tasks, wf, n));
      On(NodeTask(wf, n.id), OpenGate(if kwargs.Some? then kwargs.value else map[]))
    case ByWorkflow(RejectBinding(wf, n)) => On(NodeTask(wf, n.id), FailBinding)
    case _ => Nothing
  }

  ghost predicate HasEffect(s: Db, e: Effect, s': Db) {
    match e
    case Nothing => forall t | t in s.tasks :: t in s'.tasks && s'.tasks[t] == s.tasks[t]
    case On(t, a) => t in s.tasks && RowGuard(s.tasks[t], a) && s'.tasks == s.tasks[t := RowApply(s.tasks[t], a)]
  }

  lemma StoreEffect(s: Db, a: StoreAction)
    requires Inv(s) && StoreGuard(s, a)
    ensures HasEffect(s, EffectOf(s, ByStore(a)), StoreApply(s, a))
  {
    hide RowsOk, SessionsOk, CallsOk, HoldsOk, FlowOk, BudgetsOk, RowApply;
    if a.Commit? || a.Recover? { TasksOf(s); }
  }

  lemma TasksOf(s: Db)
    requires Inv(s)
    ensures forall t | t in s.tasks :: RowInv(s.tasks[t])
  {
  }

  lemma RecoveryEffect(s: Db, a: RecoveryAction)
    requires RecoveryGuard(s, a)
    ensures HasEffect(s, EffectOf(s, ByRecovery(a)), RecoveryApply(s, a))
  {
    hide RowApply, Settled, Opened, Closed;
    match a
    case Decide(c, decision, extra, supplied, retryAt) => DecideEffect(s, c, decision, extra, supplied, retryAt);
    case OpenIncident(t, kind, reason) => OpenFrame(s, t, kind, reason);
    case CloseIncident(c, resolution) => CloseIncidents(s, c, resolution);
    case _ =>
  }

  lemma OpenFrame(s: Db, t: TaskId, kind: IncidentKind, reason: Reason)
    requires t in s.tasks
    ensures var s' := Opened(s, t, kind, reason); s' == s.(incidents := s'.incidents, holds := s'.holds)
  {
  }

  lemma BeforeClosingFrame(s: Db, c: Case, decision: Decision, extra: nat, supplied: Json, retryAt: Option<Time>)
    requires c in s.incidents && c.task in s.tasks && RowGuard(s.tasks[c.task], Resolve(decision, extra, supplied, retryAt))
    ensures var s' := BeforeClosing(s, c, decision, extra, supplied, retryAt);
      && s' == s.(tasks := s.tasks[c.task := RowApply(s.tasks[c.task], Resolve(decision, extra, supplied, retryAt))],
                  nodes := s'.nodes, runs := s'.runs)
      && SameDefs(s.runs, s'.runs) && s'.runs.Keys == s.runs.Keys && s'.nodes.Keys == s.nodes.Keys
  {
    hide RowApply, Reopened, RowGuard, Mirror, SetRow, SetNode, SameDefs;
    RowFrame(s, c.task, Resolve(decision, extra, supplied, retryAt));
    if s.incidents[c].workflow.None? || decision == Fail {
      NoDefs(s.runs);
    } else {
      ReopeningFrame(s, c, SetRow(s, c.task, Resolve(decision, extra, supplied, retryAt)), s.incidents[c].workflow.value);
    }
  }

  /** The node of the decided task shows its status, its workflow runs again and the skipped nodes wait again. */
  lemma ReopeningFrame(s: Db, c: Case, m: Db, wf: string)
    requires c.task in m.tasks && m == s.(tasks := m.tasks)
    ensures var m' := if c.task in s.nodes then SetNode(m, c.task, Mirror(m.tasks[c.task].status), None) else m;
      var runs := if wf in s.runs then s.runs[wf := s.runs[wf].(status := RunRunning)] else s.runs;
      var s' := m'.(nodes := Reopened(m'.nodes, wf), runs := runs);
      && s' == m.(nodes := s'.nodes, runs := s'.runs)
      && SameDefs(s.runs, s'.runs) && s'.runs.Keys == s.runs.Keys && s'.nodes.Keys == s.nodes.Keys
  {
    hide Reopened, Mirror, SetNode, SameDefs;
    if c.task in s.nodes { NodeFrame(m, c.task, Mirror(m.tasks[c.task].status), None); }
    var m' := if c.task in s.nodes then SetNode(m, c.task, Mirror(m.tasks[c.task].status), None) else m;
    ReopenedFrame(m', wf);
  }

  lemma RowFrame(s: Db, t: TaskId, a: RowAction)
    requires t in s.tasks && RowGuard(s.tasks[t], a)
    ensures SetRow(s, t, a) == s.(tasks := s.tasks[t := RowApply(s.tasks[t], a)]) && t in SetRow(s, t, a).tasks
  {
    hide RowApply, RowGuard;
  }

  lemma NodeFrame(s: Db, t: TaskId, state: NodeState, error: Option<string>)
    requires t in s.nodes
    ensures var s' := SetNode(s, t, state, error); s' == s.(nodes := s'.nodes) && s'.nodes.Keys == s.nodes.Keys
  {
  }

  lemma NoDefs(runs: map<string, RunRow>)
    ensures SameDefs(runs, runs)
  {
  }

  /** A workflow runs again and its skipped nodes wait again. */
  lemma ReopenedFrame(s: Db, wf: string)
    ensures Reopened(s.nodes, wf).Keys == s.nodes.Keys
    ensures var runs := if wf in s.runs then s.runs[wf := s.runs[wf].(status := RunRunning)] else s.runs;
      SameDefs(s.runs, runs) && runs.Keys == s.runs.Keys
  {
  }

  lemma DecideEffect(s: Db, c: Case, decision: Decision, extra: nat, supplied: Json, retryAt: Option<Time>)
    requires RecoveryGuard(s, Decide(c, decision, extra, supplied, retryAt))
    ensures var s' := Settled(s, c, decision, extra, supplied, retryAt);
      && s' == s.(tasks := s.tasks[c.task := RowApply(s.tasks[c.task], Resolve(decision, extra, supplied, retryAt))],
                  incidents := s.incidents[c := s.incidents[c].(resolution := Some(Decided(decision, extra)))],
                  holds := s'.holds, nodes := s'.nodes, runs := s'.runs)
      && SameDefs(s.runs, s'.runs) && s'.nodes.Keys == s.nodes.Keys
  {
    BeforeClosingFrame(s, c, decision, extra, supplied, retryAt);
    hide RowApply, BeforeClosing;
  }

  ghost predicate SameDefs(runs: map<string, RunRow>, runs': map<string, RunRow>) {
    forall wf | wf in runs :: wf in runs' && runs'[wf].def == runs[wf].def
  }

  lemma FlowEffect(s: Db, a: FlowAction)
    requires FlowOk(s.runs, s.nodes, s.tasks) && FlowGuard(s, a)
    ensures HasEffect(s, EffectOf(s, ByWorkflow(a)), FlowApply(s, a))
  {
    hide RowApply, RowGuard, RunTasks, Materialize, Outputs, SetRow, SetNode, FlowOk;
    match a
    case SubmitRun(wf, run, policy, llm, sequence) => KeepSubmit.RunIsNew(s, wf, run, policy, llm, sequence);
    case Dispatch(wf, n) => NodeRowEffect(s, NodeTask(wf, n.id), Ready, s.nodes[NodeTask(wf, n.id)].error,
                                          OpenGate(Materialize(n, Outputs(s.tasks, wf, n)).value));
    case RejectBinding(wf, n) => NodeRowEffect(s, NodeTask(wf, n.id), NodeFailed, Some(BINDING_FAILED), FailBinding);
    case SkipNode(wf, n) => NodeFrame(s, NodeTask(wf, n.id), Skipped, Some(DEPENDENCY_FAILED));
    case SyncNode(wf, n) =>
      NodeFrame(s, NodeTask(wf, n.id), Mirror(s.tasks[NodeTask(wf, n.id)].status), s.nodes[NodeTask(wf, n.id)].error);
    case SetRun(_, _) =>
  }

  /** A node and the row of its task are written together. */
  lemma NodeRowEffect(s: Db, t: TaskId, state: NodeState, error: Option<string>, a: RowAction)
    requires t in s.nodes && t in s.tasks && (a.OpenGate? || a.FailBinding?) && s.tasks[t].status == Pending && s.tasks[t].blocked
    ensures RowGuard(s.tasks[t], a) && t in SetNode(s, t, state, error).tasks && RowGuard(SetNode(s, t, state, error).tasks[t], a)
    ensures SetRow(SetNode(s, t, state, error), t, a).tasks == s.tasks[t := RowApply(s.tasks[t], a)]
  {
    hide RowApply;
  }

  lemma StepEffect(s: Db, a: Action)
    requires Inv(s) && Guard(s, a)
    ensures HasEffect(s, EffectOf(s, a), Apply(s, a))
  {
    hide RowsOk, SessionsOk, CallsOk, HoldsOk, FlowOk, BudgetsOk, RowApply, HasEffect;
    match a
    case ByRegistry(x) => RegistryEffect(s, x);
    case ByStore(x) => StoreEffect(s, x);
    case ByRecovery(x) => RecoveryEffect(s, x);
    case ByWorkflow(x) => FlowEffect(s, x);
  }

  lemma RegistryEffect(s: Db, a: RegistryAction)
    requires RegistryGuard(s, a)
    ensures HasEffect(s, Nothing, RegistryApply(s, a))
  {
  }

  lemma TaskStep(s: Db, a: Action, t: TaskId)
    requires Inv(s) && Guard(s, a) && t in s.tasks
    ensures t in Apply(s, a).tasks && RowLater(s.tasks[t], Apply(s, a).tasks[t])
  {
    hide Guard, Apply, RowApply, RowLater, RowGuard, RowInv;
    StepEffect(s, a);
    TasksOf(s);
    LaterSelf(s.tasks[t]);
    match EffectOf(s, a)
    case Nothing =>
    case On(u, x) => if u == t { ActionIsLater(s.tasks[t], x); }
  }

  /** A task that is submitted stays, and only moves on. */
  lemma {:induction false} TaskAlong(run: seq<Db>, i: nat, j: nat, t: TaskId)
    requires Behaviour(run) && i <= j < |run| && t in run[i].tasks
    ensures t in run[j].tasks && RowLater(run[i].tasks[t], run[j].tasks[t])
    decreases j
  {
    hide Inv, Guard, Apply, RowLater;
    if i == j {
      LaterSelf(run[i].tasks[t]);
    } else {
      TaskAlong(run, i, j - 1, t);
      ReachableInv(run, j - 1);
      assert Next(run[j - 1], run[j]);
      var a :| Guard(run[j - 1], a) && run[j] == Apply(run[j - 1], a);
      TaskStep(run[j - 1], a, t);
      LaterTransitive(run[i].tasks[t], run[j - 1].tasks[t], run[j].tasks[t]);
    }
  }

  // ---------------------------------------------------------------- sessions

  ghost predicate SessionLater(x: SessionRow, x': SessionRow) {
    && x'.worker == x.worker && x'.host == x.host && x'.timeout == x.timeout && x.lastHeartbeat <= x'.lastHeartbeat
    && (x.state == Fenced ==> x'.state == Fenced || x'.state == Stopped)
    && (x.state == Stopped ==> x' == x)
    && (x.stopRequested ==> x'.stopRequested && x'.state != ActiveSession)
  }

  lemma StoreFrame(s: Db, a: StoreAction)
    requires StoreGuard(s, a)
    ensures var s' := StoreApply(s, a);
      s' == s.(tasks := s'.tasks, live := s'.live, claims := s'.claims, admitted := s'.admitted,
               incidents := s'.incidents, holds := s'.holds)
    ensures forall c | DecidedByOperator(s, c) :: c in StoreApply(s, a).incidents && StoreApply(s, a).incidents[c] == s.incidents[c]
  {
    hide RowApply, Closed;
    if a.Recover? {
      var s1 := SetRow(s, a.t, a.interrupt);
      if Settles(s1, a.t, s1.tasks[a.t]) { CloseIncidents(s1, Case(a.t, s1.tasks[a.t].attempts), RetryWasScheduled); }
    }
  }

  lemma FlowFrame(s: Db, a: FlowAction)
    requires FlowGuard(s, a)
    ensures var s' := FlowApply(s, a); s' == s.(tasks := s'.tasks, nodes := s'.nodes, runs := s'.runs)
    ensures SameDefs(s.runs, FlowApply(s, a).runs) && s.nodes.Keys <= FlowApply(s, a).nodes.Keys
  {
    hide RowApply, RunTasks, RunNodes;
  }

  lemma RecoveryFrame(s: Db, a: RecoveryAction)
    requires RecoveryGuard(s, a)
    ensures RecoveryApply(s, a).sessions == s.sessions && SameDefs(s.runs, RecoveryApply(s, a).runs)
    ensures RecoveryApply(s, a).nodes.Keys == s.nodes.Keys
    ensures forall c | DecidedByOperator(s, c) ::
              c in RecoveryApply(s, a).incidents && RecoveryApply(s, a).incidents[c] == s.incidents[c]
  {
    hide RowApply, Settled, Closed;
    match a
    case Decide(c, decision, extra, supplied, retryAt) => DecideEffect(s, c, decision, extra, supplied, retryAt);
    case OpenIncident(t, kind, reason) => OpenFrame(s, t, kind, reason);
    case CloseIncident(c, resolution) => CloseIncidents(s, c, resolution);
    case _ =>
  }

  lemma CloseIncidents(s: Db, c: Case, resolution: Resolution)
    requires c in s.incidents
    ensures var s' := Closed(s, c, resolution); s' == s.(incidents := s'.incidents, holds := s'.holds)
    ensures forall d | d in s.incidents && d != c ::
              d in Closed(s, c, resolution).incidents && Closed(s, c, resolution).incidents[d] == s.incidents[d]
  {
  }

  lemma SessionStep(s: Db, a: Action, sid: SessionId)
    requires Inv(s) && Guard(s, a) && sid in s.sessions
    ensures sid in Apply(s, a).sessions && SessionLater(s.sessions[sid], Apply(s, a).sessions[sid])
  {
    hide RowsOk, CallsOk, HoldsOk, FlowOk, BudgetsOk, RegistryGuard, StoreGuard, RecoveryGuard, FlowGuard,
      RegistryApply, StoreApply, RecoveryApply, FlowApply;
    assert SessionOk(s.sessions[sid]);
    match a
    case ByRegistry(x) => SessionChange(s, x, sid);
    case ByStore(x) => StoreFrame(s, x);
    case ByRecovery(x) => RecoveryFrame(s, x);
    case ByWorkflow(x) => FlowFrame(s, x);
  }

  lemma SessionChange(s: Db, a: RegistryAction, sid: SessionId)
    requires SessionsOk(s.sessions, s.registry) && RegistryGuard(s, a) && sid in s.sessions
    ensures sid in RegistryApply(s, a).sessions && SessionLater(s.sessions[sid], RegistryApply(s, a).sessions[sid])
  {
    assert SessionOk(s.sessions[sid]);
    forall w | w in s.registry ensures Listed(w, s.sessions, s.registry) {}
  }

  lemma {:induction false} SessionAlong(run: seq<Db>, i: nat, j: nat, sid: SessionId)
    requires Behaviour(run) && i <= j < |run| && sid in run[i].sessions
    ensures sid in run[j].sessions && SessionLater(run[i].sessions[sid], run[j].sessions[sid])
    decreases j
  {
    hide Guard, Apply, RowsOk, CallsOk, HoldsOk, FlowOk, BudgetsOk;
    ReachableInv(run, i);
    assert SessionOk(run[i].sessions[sid]);
    if i < j {
      SessionAlong(run, i, j - 1, sid);
      ReachableInv(run, j - 1);
      assert Next(run[j - 1], run[j]);
      var a :| Guard(run[j - 1], a) && run[j] == Apply(run[j - 1], a);
      SessionStep(run[j - 1], a, sid);
    }
  }

  // ---------------------------------------------------------------- incidents

  /** The steps that write the incident of this case. */
  predicate Touches(s: Db, a: Action, c: Case) {
    match a
    case ByStore(Recover(t, _)) => t in s.tasks && Case(t, s.tasks[t].attempts) == c
    case ByRecovery(Decide(d, _, _, _, _)) => d == c
    case ByRecovery(OpenIncident(t, _, _)) => t in s.tasks && Case(t, s.tasks[t].attempts) == c
    case ByRecovery(CloseIncident(d, _)) => d == c
    case _ => false
  }

  lemma Untouched(s: Db, a: Action, c: Case)
    requires Guard(s, a) && !Touches(s, a, c)
    ensures c in Apply(s, a).incidents <==> c in s.incidents
    ensures c in s.incidents ==> Apply(s, a).incidents[c] == s.incidents[c]
  {
    hide RegistryGuard, StoreGuard, RecoveryGuard, FlowGuard, RegistryApply, StoreApply, RecoveryApply, FlowApply;
    match a
    case ByRegistry(x) => KeepSessions.RegistryFrame(s, x);
    case ByStore(x) => StoredElsewhere(s, x, c);
    case ByRecovery(x) => RecoveredElsewhere(s, x, c);
    case ByWorkflow(x) => FlowFrame(s, x);
  }

  lemma StoredElsewhere(s: Db, a: StoreAction, c: Case)
    requires StoreGuard(s, a) && !Touches(s, ByStore(a), c)
    ensures c in StoreApply(s, a).incidents <==> c in s.incidents
    ensures c in s.incidents ==> StoreApply(s, a).incidents[c] == s.incidents[c]
  {
    hide RowApply, TakenOver, Eligible, Admission, Claimable, AdmittedAfter, SafeToTake, Committable;
    if a.Recover? { TakenElsewhere(s, a.t, a.interrupt, c); }
  }

  lemma TakenElsewhere(s: Db, t: TaskId, interrupt: RowAction, c: Case)
    requires t in s.tasks && RowGuard(s.tasks[t], interrupt) && interrupt.Interrupt? && Case(t, s.tasks[t].attempts) != c
    ensures c in TakenOver(s, t, interrupt).incidents <==> c in s.incidents
    ensures c in s.incidents ==> TakenOver(s, t, interrupt).incidents[c] == s.incidents[c]
  {
    hide Closed;
    var s1 := SetRow(s, t, interrupt);
    assert s1.tasks[t].attempts == s.tasks[t].attempts;
    hide RowApply;
    if Settles(s1, t, s1.tasks[t]) { CloseOneIncident(s1, Case(t, s1.tasks[t].attempts), RetryWasScheduled); }
  }

  lemma CloseOneIncident(s: Db, c: Case, resolution: Resolution)
    requires c in s.incidents
    ensures Closed(s, c, resolution).incidents == s.incidents[c := s.incidents[c].(resolution := Some(resolution))]
  {
  }

  lemma RecoveredElsewhere(s: Db, a: RecoveryAction, c: Case)
    requires RecoveryGuard(s, a) && !Touches(s, ByRecovery(a), c)
    ensures c in RecoveryApply(s, a).incidents <==> c in s.incidents
    ensures c in s.incidents ==> RecoveryApply(s, a).incidents[c] == s.incidents[c]
  {
    hide RowApply, Settled, Closed, Opened;
    match a
    case Decide(d, decision, extra, supplied, retryAt) => DecideEffect(s, d, decision, extra, supplied, retryAt);
    case OpenIncident(t, kind, reason) => OpenedElsewhere(s, t, kind, reason, c);
    case CloseIncident(d, resolution) => CloseOneIncident(s, d, resolution);
    case _ =>
  }

  lemma OpenedElsewhere(s: Db, t: TaskId, kind: IncidentKind, reason: Reason, c: Case)
    requires t in s.tasks && c != Case(t, s.tasks[t].attempts)
    ensures c in Opened(s, t, kind, reason).incidents <==> c in s.incidents
    ensures c in s.incidents ==> Opened(s, t, kind, reason).incidents[c] == s.incidents[c]
  {
  }

  // ---------------------------------------------------------------- runs, nodes and decisions

  lemma FixedStep(s: Db, a: Action)
    requires Guard(s, a)
    ensures SameDefs(s.runs, Apply(s, a).runs) && s.nodes.Keys <= Apply(s, a).nodes.Keys
    ensures forall c | DecidedByOperator(s, c) :: c in Apply(s, a).incidents && Apply(s, a).incidents[c] == s.incidents[c]
  {
    hide RegistryGuard, StoreGuard, RecoveryGuard, FlowGuard, RegistryApply, StoreApply, RecoveryApply, FlowApply;
    match a
    case ByRegistry(x) => KeepSessions.RegistryFrame(s, x);
    case ByStore(x) => StoreFrame(s, x);
    case ByRecovery(x) => RecoveryFrame(s, x);
    case ByWorkflow(x) => FlowFrame(s, x);
  }

  /** Definitions are immutable and operator decisions are final. */
  lemma {:induction false} FixedAlong(run: seq<Db>, i: nat, j: nat)
    requires Behaviour(run) && i <= j < |run|
    ensures SameDefs(run[i].runs, run[j].runs) && run[i].nodes.Keys <= run[j].nodes.Keys
    ensures forall c | DecidedByOperator(run[i], c) ::
              DecidedByOperator(run[j], c) && run[j].incidents[c] == run[i].incidents[c]
    decreases j
  {
    hide Guard, Apply;
    if i < j {
      FixedAlong(run, i, j - 1);
      assert Next(run[j - 1], run[j]);
      var a :| Guard(run[j - 1], a) && run[j] == Apply(run[j - 1], a);
      FixedStep(run[j - 1], a);
    }
  }

  /** Only a claim starts a business call, and the call carries the session of the claim. */
  lemma CallsStep(s: Db, a: Action, i: Invocation)
    requires Guard(s, a) && i in Apply(s, a).live
    ensures i in s.live || (a.ByStore? && a.store.Claim? && a.store.session == i.session)
  {
    hide RegistryGuard, StoreGuard, RecoveryGuard, FlowGuard, RegistryApply, StoreApply, RecoveryApply, FlowApply;
    match a
    case ByRegistry(x) => KeepSessions.RegistryFrame(s, x);
    case ByStore(x) => StoreCalls(s, x, i);
    case ByRecovery(x) => RecoveryCalls(s, x);
    case ByWorkflow(x) => FlowFrame(s, x);
  }

  lemma StoreCalls(s: Db, a: StoreAction, i: Invocation)
    requires StoreGuard(s, a) && i in StoreApply(s, a).live
    ensures i in s.live || (a.Claim? && a.session == i.session)
  {
    hide RowApply, TakenOver, Eligible, Admission, Claimable, AdmittedAfter, SafeToTake, Committable;
    if a.Recover? { TakingOverFrame(s, a.t, a.interrupt); }
  }

  lemma TakingOverFrame(s: Db, t: TaskId, interrupt: RowAction)
    requires t in s.tasks && RowGuard(s.tasks[t], interrupt)
    ensures TakenOver(s, t, interrupt).live == s.live
  {
    hide RowApply, Closed;
    var s1 := SetRow(s, t, interrupt);
    if Settles(s1, t, s1.tasks[t]) { CloseIncidents(s1, Case(t, s1.tasks[t].attempts), RetryWasScheduled); }
  }

  lemma RecoveryCalls(s: Db, a: RecoveryAction)
    requires RecoveryGuard(s, a)
    ensures RecoveryApply(s, a).live == s.live
  {
    hide RowApply, Settled, Closed;
    match a
    case Decide(c, decision, extra, supplied, retryAt) => DecideEffect(s, c, decision, extra, supplied, retryAt);
    case OpenIncident(t, kind, reason) => OpenFrame(s, t, kind, reason);
    case CloseIncident(c, resolution) => CloseIncidents(s, c, resolution);
    case _ =>
  }

  lemma ClaimsStep(s: Db, a: Action, c: Case)
    requires Inv(s) && Guard(s, a) && c in s.claims
    ensures c in Apply(s, a).claims && Apply(s, a).claims[c] == s.claims[c]
  {
    hide RowsOk, SessionsOk, CallsOk, HoldsOk, FlowOk, BudgetsOk, RegistryGuard, StoreGuard, RecoveryGuard, FlowGuard,
      RegistryApply, StoreApply, RecoveryApply, FlowApply;
    match a
    case ByRegistry(x) => KeepSessions.RegistryFrame(s, x);
    case ByStore(x) => StoreClaims(s, x, c);
    case ByRecovery(x) => RecoveryClaims(s, x);
    case ByWorkflow(x) => FlowFrame(s, x);
  }

  lemma StoreClaims(s: Db, a: StoreAction, c: Case)
    requires CallsOk(s.live, s.claims, s.attested, s.tasks, s.sessions) && StoreGuard(s, a) && c in s.claims
    ensures c in StoreApply(s, a).claims && StoreApply(s, a).claims[c] == s.claims[c]
  {
    hide RowApply;
  }

  lemma RecoveryClaims(s: Db, a: RecoveryAction)
    requires RecoveryGuard(s, a)
    ensures RecoveryApply(s, a).claims == s.claims
  {
    hide RowApply, Settled, Closed;
    match a
    case Decide(c, decision, extra, supplied, retryAt) => DecideEffect(s, c, decision, extra, supplied, retryAt);
    case OpenIncident(t, kind, reason) => OpenFrame(s, t, kind, reason);
    case CloseIncident(c, resolution) => CloseIncidents(s, c, resolution);
    case _ =>
  }

  /** The row that a claim handed out is on record for ever. */
  lemma {:induction false} ClaimsAlong(run: seq<Db>, i: nat, j: nat, c: Case)
    requires Behaviour(run) && i <= j < |run| && c in run[i].claims
    ensures c in run[j].claims && run[j].claims[c] == run[i].claims[c]
    decreases j
  {
    hide Guard, Apply, Inv;
    if i < j {
      ClaimsAlong(run, i, j - 1, c);
      ReachableInv(run, j - 1);
      assert Next(run[j - 1], run[j]);
      var a :| Guard(run[j - 1], a) && run[j] == Apply(run[j - 1], a);
      ClaimsStep(run[j - 1], a, c);
    }
  }
}
