/** The tables of the control plane and the atomic steps that transactions are made of. */
module Protocol {
  import opened Types
  import opened Rows
  import opened Bindings
  import opened Graph
  import Usage

  /** A business call that is executing now. */
  datatype Invocation = Invocation(task: TaskId, attempt: nat, owner: string, session: Option<SessionId>)

  /** The tables, followed by three records that no table holds: the calls that are alive, the row
      that each claim handed to its executor and the last generation call admitted in each workflow. */
  datatype Db = Db(
    tasks: map<TaskId, TaskRow>,
    sessions: map<SessionId, SessionRow>,
    registry: map<WorkerId, RegistryRow>,
    incidents: map<Case, Incident>,
    holds: set<Hold>,
    runs: map<string, RunRow>,
    nodes: map<TaskId, NodeRow>,
    attested: set<Case>,
    live: set<Invocation>,
    claims: map<Case, TaskRow>,
    admitted: map<string, Case>)

  const EMPTY := Db(map[], map[], map[], map[], {}, map[], map[], {}, {}, map[], map[])

  // ---------------------------------------------------------------- reading the tables

  predicate IsCurrent(s: Db, w: WorkerId, sid: SessionId) {
    && sid in s.sessions && s.sessions[sid].worker == w
    && w in s.registry && s.registry[w].session == sid
  }

  predicate HasRunning(s: Db, sid: SessionId) {
    exists t | t in s.tasks :: s.tasks[t].status == Running && s.tasks[t].session == Some(sid)
  }

  /** `_require_claimable` lets the session through. */
  predicate Claimable(s: Db, sid: SessionId, now: Time) {
    && sid in s.sessions
    && IsCurrent(s, s.sessions[sid].worker, sid)
    && s.sessions[sid].state == ActiveSession
    && now - s.sessions[sid].lastHeartbeat <= s.sessions[sid].timeout
  }

  predicate HeldWorkflow(s: Db, wf: string) {
    exists h | h in s.holds :: h.scope == WorkflowScope(wf)
  }

  /** The negation of `CLAIM_GUARD`. */
  predicate Held(s: Db, t: TaskId) {
    exists h | h in s.holds :: h.scope == TaskScope(t) || (t in s.nodes && t.NodeTask? && h.scope == WorkflowScope(t.workflow))
  }

  predicate Due(r: TaskRow, now: Time) {
    && (r.retryAt.Some? ==> r.retryAt.value <= now)
    && (r.status == Pending && r.def.scheduledAt.Some? ==> r.def.scheduledAt.value <= now)
  }

  /** The row passes every condition of the claim query except the budget. */
  predicate Eligible(s: Db, t: TaskId, now: Time) {
    && t in s.tasks
    && (s.tasks[t].status == Pending || s.tasks[t].status == Retrying)
    && !s.tasks[t].blocked
    && !Held(s, t)
    && Due(s.tasks[t], now)
  }

  predicate IsLlm(s: Db, t: TaskId) {
    t in s.nodes && s.nodes[t].llm && t.NodeTask? && t.workflow in s.runs
  }

  function UsageOfRun(s: Db, wf: string): Usage.Totals
    requires wf in s.runs
  {
    Usage.UsageOf(s.tasks, Usage.LlmTasks(wf, s.runs[wf].def.nodes, s.nodes))
  }

  function Admission(s: Db, t: TaskId): Usage.Admission {
    if IsLlm(s, t) then Usage.Gate(s.runs[t.workflow].def.budget, UsageOfRun(s, t.workflow)) else Usage.Admitted
  }

  predicate Newest(s: Db, sequence: nat) {
    forall t | t in s.tasks :: s.tasks[t].sequence < sequence
  }

  /** The old calls are known to be over: the session stopped with evidence. */
  predicate StoppedWithEvidence(s: Db, sid: SessionId) {
    sid in s.sessions && s.sessions[sid].state == Stopped && s.sessions[sid].evidence.Some?
  }

  /** The attempt is known to have ended: its session stopped with evidence, or its end was attested. */
  predicate StopProven(s: Db, t: TaskId)
    requires t in s.tasks
  {
    match s.tasks[t].session
    case Some(sid) => StoppedWithEvidence(s, sid)
    case None => Case(t, s.tasks[t].attempts) in s.attested
  }

  /** Taking a row out of RUNNING from outside its executor needs stop evidence for its
      session; a row without a session needs the operator's word, which is assumed true. */
  ghost predicate SafeToTake(s: Db, t: TaskId)
    requires t in s.tasks
  {
    match s.tasks[t].session
    case Some(sid) => StoppedWithEvidence(s, sid)
    case None => forall i | i in s.live :: i.task != t
  }

  // ---------------------------------------------------------------- workflow nodes

  function BaseDef(n: NodeDef): TaskDef {
    TaskDef(n.handler, n.args, n.kwargs, n.priority, n.maxRetries, n.idempotent, n.scheduledAt)
  }

  function SourceIds(n: NodeDef): set<string> {
    set slot | slot in Slots(n) :: slot.source.node
  }

  /** The stored results of the predecessors that the node reads. */
  function Outputs(tasks: map<TaskId, TaskRow>, wf: string, n: NodeDef): map<string, Json> {
    map d | d in SourceIds(n) && NodeTask(wf, d) in tasks && tasks[NodeTask(wf, d)].result.Some?
      :: tasks[NodeTask(wf, d)].result.value
  }

  function StateOf(nodes: map<TaskId, NodeRow>, wf: string, id: string): Option<NodeState> {
    if NodeTask(wf, id) in nodes then Some(nodes[NodeTask(wf, id)].state) else None
  }

  predicate AllSucceeded(nodes: map<TaskId, NodeRow>, wf: string, n: NodeDef) {
    forall d | d in Dependencies(n) :: StateOf(nodes, wf, d) == Some(NodeSuccess)
  }

  predicate SomeFailed(nodes: map<TaskId, NodeRow>, wf: string, n: NodeDef) {
    exists d | d in Dependencies(n) ::
      StateOf(nodes, wf, d) == Some(NodeFailed) || StateOf(nodes, wf, d) == Some(Skipped)
  }

  /** The node state that shows the state of a dispatched task. */
  function Mirror(status: Status): NodeState {
    match status
    case Pending => Ready
    case Running => NodeRunning
    case Retrying => NodeRetrying
    case Success => NodeSuccess
    case Failed => NodeFailed
  }

  predicate HasNode(s: Db, wf: string, n: NodeDef) {
    wf in s.runs && n in s.runs[wf].def.nodes && NodeTask(wf, n.id) in s.nodes && NodeTask(wf, n.id) in s.tasks
  }

  /** `finish` accepts the report of this owner for this attempt. */
  predicate Committable(s: Db, t: TaskId, owner: string, attempt: nat) {
    && t in s.tasks && s.tasks[t].status == Running && s.tasks[t].owner == Some(owner) && s.tasks[t].attempts == attempt
    && match s.tasks[t].session
       case None => true
       case Some(sid) => sid in s.sessions && s.sessions[sid].state in {ActiveSession, Suspect, Stopping}
  }

  function SetRow(s: Db, t: TaskId, a: RowAction): Db
    requires t in s.tasks && RowGuard(s.tasks[t], a)
  {
    s.(tasks := s.tasks[t := RowApply(s.tasks[t], a)])
  }

  function SetNode(s: Db, t: TaskId, state: NodeState, error: Option<string>): Db
    requires t in s.nodes
  {
    s.(nodes := s.nodes[t := s.nodes[t].(state := state, error := error)])
  }

  function SetSession(s: Db, sid: SessionId, row: SessionRow): Db {
    s.(sessions := s.sessions[sid := row])
  }

  function Deregister(registry: map<WorkerId, RegistryRow>, sid: SessionId): map<WorkerId, RegistryRow> {
    map w | w in registry :: if registry[w].session == sid then registry[w].(active := false) else registry[w]
  }

  function IncidentWorkflow(s: Db, t: TaskId): Option<string> {
    if t in s.nodes && t.NodeTask? then Some(t.workflow) else None
  }

  /** `_incident` when it does not leave an operator's decision alone. */
  function Opened(s: Db, t: TaskId, kind: IncidentKind, reason: Reason): Db
    requires t in s.tasks
  {
    var r := s.tasks[t];
    var c := Case(t, r.attempts);
    var wf := IncidentWorkflow(s, t);
    var row := if c in s.incidents then s.incidents[c].(kind := kind, reason := reason, resolution := None)
               else Incident(kind, r.session, wf,
                             if r.session.Some? && r.session.value in s.sessions then Some(s.sessions[r.session.value].host) else None,
                             reason, None);
    s.(incidents := s.incidents[c := row],
       holds := s.holds + {Hold(TaskScope(t), ByIncident(c))}
                        + (if wf.Some? then {Hold(WorkflowScope(wf.value), ByIncident(c))} else {}))
  }

  function Closed(s: Db, c: Case, resolution: Resolution): Db
    requires c in s.incidents
  {
    s.(incidents := s.incidents[c := s.incidents[c].(resolution := Some(resolution))],
       holds := set h | h in s.holds && h.source != ByIncident(c))
  }

  /** A retry that recovery schedules settles the open incident of the attempt. */
  predicate Settles(s: Db, t: TaskId, row: TaskRow) {
    row.status == Retrying && Case(t, row.attempts) in s.incidents && s.incidents[Case(t, row.attempts)].Open()
  }

  /** `_recover_rows` for one row. */
  function TakenOver(s: Db, t: TaskId, interrupt: RowAction): Db
    requires t in s.tasks && RowGuard(s.tasks[t], interrupt)
  {
    var s' := SetRow(s, t, interrupt);
    if Settles(s', t, s'.tasks[t]) then Closed(s', Case(t, s'.tasks[t].attempts), RetryWasScheduled) else s'
  }

  function Reopened(nodes: map<TaskId, NodeRow>, wf: string): (r: map<TaskId, NodeRow>)
    ensures r.Keys == nodes.Keys
  {
    map t | t in nodes ::
      if t.NodeTask? && t.workflow == wf && nodes[t].state == Skipped then nodes[t].(state := Waiting, error := None) else nodes[t]
  }

  /** `resolve_task` up to the closing of its incident. */
  function BeforeClosing(s: Db, c: Case, decision: Decision, extra: nat, supplied: Json, retryAt: Option<Time>): Db
    requires c in s.incidents && c.task in s.tasks
    requires RowGuard(s.tasks[c.task], Resolve(decision, extra, supplied, retryAt))
  {
    var s1 := SetRow(s, c.task, Resolve(decision, extra, supplied, retryAt));
    var wf := s.incidents[c].workflow;
    if wf.None? || decision == Fail then s1
    else
      var s2 := if c.task in s.nodes then SetNode(s1, c.task, Mirror(s1.tasks[c.task].status), None) else s1;
      s2.(nodes := Reopened(s2.nodes, wf.value),
          runs := if wf.value in s.runs then s.runs[wf.value := s.runs[wf.value].(status := RunRunning)] else s.runs)
  }

  /** `resolve_task` up to the reconciliation of the workflow. */
  function Settled(s: Db, c: Case, decision: Decision, extra: nat, supplied: Json, retryAt: Option<Time>): Db
    requires c in s.incidents && c.task in s.tasks
    requires RowGuard(s.tasks[c.task], Resolve(decision, extra, supplied, retryAt))
  {
    Closed(BeforeClosing(s, c, decision, extra, supplied, retryAt), c, Decided(decision, extra))
  }

  function Position(nodes: seq<NodeDef>, id: string): (i: nat)
    requires exists n | n in nodes :: n.id == id
    ensures i < |nodes| && nodes[i].id == id
  {
    if nodes[|nodes| - 1].id == id then |nodes| - 1 else Position(nodes[..|nodes| - 1], id)
  }

  function NodeTasks(wf: string, nodes: seq<NodeDef>): set<TaskId> {
    set n | n in nodes :: NodeTask(wf, n.id)
  }

  /** The rows that the submission of a run inserts, numbered in definition order. */
  function RunTasks(wf: string, run: WorkflowDef, policy: Option<nat>, sequence: nat): map<TaskId, TaskRow> {
    map t | t in NodeTasks(wf, run.nodes) ::
      var i := Position(run.nodes, t.node);
      NewRow(BaseDef(run.nodes[i]), NodeLimit(run.nodes[i], policy), true, sequence + i)
  }

  /** `retry_policy.limit_for(task) if retry_policy else 0`. */
  function NodeLimit(n: NodeDef, policy: Option<nat>): nat {
    if policy.None? then 0 else if n.maxRetries.Some? then n.maxRetries.value else policy.value
  }

  function RunNodes(wf: string, run: WorkflowDef, llm: set<string>): map<TaskId, NodeRow> {
    map t | t in NodeTasks(wf, run.nodes) :: NodeRow(Waiting, None, t.node in llm)
  }

  // ---------------------------------------------------------------- steps on sessions

  /** No call of the session is alive. */
  ghost predicate Drained(s: Db, sid: SessionId) {
    forall i | i in s.live :: i.session != Some(sid)
  }

  datatype RegistryAction =
    | Register(worker: WorkerId, sid: SessionId, timeout: Time, host: string, now: Time)
    | Heartbeat(worker: WorkerId, sid: SessionId, now: Time)
    | StopGracefully(worker: WorkerId, sid: SessionId, now: Time)
    | SuspectOverdue(sid: SessionId, now: Time)
    | FenceSession(sid: SessionId)
    | RequestStop(worker: WorkerId, sid: SessionId)
    | ConfirmStopped(sid: SessionId, proof: string)

  ghost predicate RegistryGuard(s: Db, a: RegistryAction) {
    match a
    case Register(w, sid, timeout, _, _) =>
      sid !in s.sessions && 0 < timeout && (w in s.registry ==> !s.registry[w].active)
    case Heartbeat(w, sid, _) =>
      IsCurrent(s, w, sid) && s.registry[w].active && s.sessions[sid].state in {ActiveSession, Suspect, Stopping}
    case StopGracefully(w, sid, _) =>
      IsCurrent(s, w, sid) && s.registry[w].active && s.sessions[sid].state != Fenced && !HasRunning(s, sid)
    case SuspectOverdue(sid, now) =>
      && sid in s.sessions && s.sessions[sid].state in {ActiveSession, Stopping}
      && s.sessions[sid].lastHeartbeat + s.sessions[sid].timeout < now
    case FenceSession(sid) => sid in s.sessions && s.sessions[sid].state == Suspect
    case RequestStop(w, sid) => IsCurrent(s, w, sid) && s.sessions[sid].state in {ActiveSession, Suspect}
    case ConfirmStopped(sid, _) =>
      // The supervisor tells the truth: no call of the session is alive.
      && sid in s.sessions && s.sessions[sid].state in {Fenced, Stopping} && Drained(s, sid)
  }

  function RegistryApply(s: Db, a: RegistryAction): Db
    requires RegistryGuard(s, a)
  {
    match a
    case Register(w, sid, timeout, host, now) =>
      s.(sessions := s.sessions[sid := SessionRow(w, ActiveSession, now, timeout, None, false, host)],
         registry := s.registry[w := RegistryRow(sid, true, now)])
    case Heartbeat(w, sid, now) =>
      var row := s.sessions[sid];
      SetSession(s, sid, row.(lastHeartbeat := Max(row.lastHeartbeat, now),
                              state := if row.stopRequested then Stopping else ActiveSession))
        .(registry := s.registry[w := s.registry[w].(lastHeartbeat := Max(s.registry[w].lastHeartbeat, now))])
    case StopGracefully(w, sid, now) =>
      SetSession(s, sid, s.sessions[sid].(state := Stopped, evidence := Some("graceful stop")))
        .(registry := s.registry[w := s.registry[w].(active := false, lastHeartbeat := Max(s.registry[w].lastHeartbeat, now))])
    case SuspectOverdue(sid, _) => SetSession(s, sid, s.sessions[sid].(state := Suspect))
    case FenceSession(sid) => SetSession(s, sid, s.sessions[sid].(state := Fenced))
    case RequestStop(_, sid) => SetSession(s, sid, s.sessions[sid].(state := Stopping, stopRequested := true))
    case ConfirmStopped(sid, proof) =>
      SetSession(s, sid, s.sessions[sid].(state := Stopped, evidence := Some(proof)))
        .(registry := Deregister(s.registry, sid))
  }

  // ---------------------------------------------------------------- steps of the task store

  datatype StoreAction =
    | SubmitTask(t: TaskId, def: TaskDef, limit: nat, sequence: nat)
    | Claim(t: TaskId, owner: string, session: Option<SessionId>, now: Time)
    | Refuse(t: TaskId, now: Time)
    | EndInvocation(i: Invocation)
    | Commit(t: TaskId, owner: string, attempt: nat, finish: RowAction)
    | Recover(t: TaskId, interrupt: RowAction)

  /** The record of the last generation call of each workflow, once `c` was claimed. */
  function AdmittedAfter(s: Db, t: TaskId, c: Case): map<string, Case> {
    if IsLlm(s, t) then s.admitted[t.workflow := c] else s.admitted
  }

  function AfterClaim(s: Db, t: TaskId, owner: string, session: Option<SessionId>): Db
    requires t in s.tasks && RowGuard(s.tasks[t], Start(owner, session))
  {
    var r := s.tasks[t];
    var c := Case(t, r.attempts + 1);
    SetRow(s, t, Start(owner, session))
      .(live := s.live + {Invocation(t, r.attempts + 1, owner, session)},
        claims := s.claims[c := RowApply(r, Start(owner, session))],
        admitted := AdmittedAfter(s, t, c))
  }

  ghost predicate StoreGuard(s: Db, a: StoreAction) {
    match a
    case SubmitTask(t, _, _, sequence) => t !in s.tasks && Newest(s, sequence)
    case Claim(t, _, session, now) =>
      && Eligible(s, t, now) && Admission(s, t) == Usage.Admitted
      && (session.Some? ==> Claimable(s, session.value, now))
    case Refuse(t, now) => Eligible(s, t, now) && Admission(s, t) == Usage.Refused
    case EndInvocation(i) => i in s.live
    case Commit(t, owner, attempt, finish) =>
      && Committable(s, t, owner, attempt)
      && (finish.FinishSuccess? || finish.FinishFailure?) && Newest(s, finish.sequence)
      && (finish.FinishFailure? && finish.via.RemoteService? ==> s.tasks[t].session.Some?)
      // The executor commits after its call has returned.
      && forall i | i in s.live :: i.task == t && i.attempt == attempt ==> i.owner != owner
    case Recover(t, interrupt) =>
      && t in s.tasks && s.tasks[t].status == Running && SafeToTake(s, t)
      && interrupt.Interrupt? && Newest(s, interrupt.sequence)
  }

  function StoreApply(s: Db, a: StoreAction): Db
    requires StoreGuard(s, a)
  {
    match a
    case SubmitTask(t, def, limit, sequence) => s.(tasks := s.tasks[t := NewRow(def, limit, false, sequence)])
    case Claim(t, owner, session, _) => AfterClaim(s, t, owner, session)
    case Refuse(t, _) => SetRow(s, t, RefuseBudget)
    case EndInvocation(i) => s.(live := s.live - {i})
    case Commit(t, _, _, finish) => SetRow(s, t, finish)
    case Recover(t, interrupt) => TakenOver(s, t, interrupt)
  }

  // ---------------------------------------------------------------- steps of recovery

  datatype RecoveryAction =
    | ReconcileStopped(t: TaskId)
    | Decide(c: Case, decision: Decision, extra: nat, supplied: Json, retryAt: Option<Time>)
    | OpenIncident(t: TaskId, kind: IncidentKind, reason: Reason)
    | CloseIncident(c: Case, resolution: Resolution)
    | Pause(wf: string)
    | Resume(wf: string)
    | Attest(t: TaskId, attempt: nat)

  /** An incident that an operator decided is not opened again. */
  predicate DecidedByOperator(s: Db, c: Case) {
    c in s.incidents && s.incidents[c].OfOperator()
  }

  /** Which incidents are opened for a row. */
  predicate Raisable(s: Db, t: TaskId, kind: IncidentKind, reason: Reason)
    requires t in s.tasks
  {
    var status := s.tasks[t].status;
    match kind
    case TaskFailure => status == Failed
    case WaitStop => status == Running
    case RecoveryError =>
      if reason.HandlerUnavailable? then status == Pending || status == Retrying else status == Running && StopProven(s, t)
  }

  /** Which open incidents are closed without an operator and without a recovery. */
  predicate Closable(s: Db, c: Case, resolution: Resolution)
    requires c in s.incidents
  {
    && c.task in s.tasks && s.tasks[c.task].attempts == c.attempt
    && var kind, status := s.incidents[c].kind, s.tasks[c.task].status;
       match resolution
       case HeartbeatResumed => kind == WaitStop && status == Running
       case HandlerRestored =>
         kind == RecoveryError && s.incidents[c].reason.HandlerUnavailable? && (status == Pending || status == Retrying)
       case OutcomeCommitted => kind == WaitStop && (status == Success || status == Retrying)
       case _ => false
  }

  ghost predicate RecoveryGuard(s: Db, a: RecoveryAction) {
    match a
    case ReconcileStopped(t) => t in s.tasks && s.tasks[t].status == Running && SafeToTake(s, t)
    case Decide(c, decision, extra, supplied, retryAt) =>
      && c in s.incidents && s.incidents[c].Open() && c.task in s.tasks && s.tasks[c.task].attempts == c.attempt
      && RowGuard(s.tasks[c.task], Resolve(decision, extra, supplied, retryAt))
    case OpenIncident(t, kind, reason) =>
      t in s.tasks && !DecidedByOperator(s, Case(t, s.tasks[t].attempts)) && Raisable(s, t, kind, reason)
    case CloseIncident(c, resolution) => c in s.incidents && s.incidents[c].Open() && Closable(s, c, resolution)
    case Pause(wf) => wf in s.runs
    case Resume(wf) => wf in s.runs
    case Attest(t, attempt) =>
      // The operator tells the truth: the call of this attempt is over.
      && t in s.tasks && s.tasks[t].status == Running && s.tasks[t].session.None? && s.tasks[t].attempts == attempt
      && forall i | i in s.live :: i.task != t
  }

  function RecoveryApply(s: Db, a: RecoveryAction): Db
    requires RecoveryGuard(s, a)
  {
    match a
    case ReconcileStopped(t) => SetRow(s, t, Reconcile)
    case Decide(c, decision, extra, supplied, retryAt) => Settled(s, c, decision, extra, supplied, retryAt)
    case OpenIncident(t, kind, reason) => Opened(s, t, kind, reason)
    case CloseIncident(c, resolution) => Closed(s, c, resolution)
    case Pause(wf) => s.(holds := s.holds + {Hold(WorkflowScope(wf), ByOperator)})
    case Resume(wf) => s.(holds := s.holds - {Hold(WorkflowScope(wf), ByOperator)})
    case Attest(t, attempt) => s.(attested := s.attested + {Case(t, attempt)})
  }

  // ---------------------------------------------------------------- steps on workflows

  datatype FlowAction =
    | SubmitRun(wf: string, run: WorkflowDef, policy: Option<nat>, llm: set<string>, sequence: nat)
    | Dispatch(wf: string, n: NodeDef)
    | RejectBinding(wf: string, n: NodeDef)
    | SkipNode(wf: string, n: NodeDef)
    | SyncNode(wf: string, n: NodeDef)
    | SetRun(wf: string, status: RunStatus)

  /** A waiting node of a workflow that nothing holds, with all its predecessors successful. */
  predicate ReadyToBind(s: Db, wf: string, n: NodeDef) {
    && HasNode(s, wf, n) && !HeldWorkflow(s, wf)
    && s.nodes[NodeTask(wf, n.id)].state == Waiting && AllSucceeded(s.nodes, wf, n)
    && s.tasks[NodeTask(wf, n.id)].status == Pending && s.tasks[NodeTask(wf, n.id)].blocked
  }

  ghost predicate FlowGuard(s: Db, a: FlowAction) {
    match a
    case SubmitRun(wf, run, _, _, sequence) =>
      && wf !in s.runs && Newest(s, sequence) && WellFormed(run.nodes)
      && forall n | n in run.nodes :: NodeTask(wf, n.id) !in s.tasks
    case Dispatch(wf, n) => ReadyToBind(s, wf, n) && Materialize(n, Outputs(s.tasks, wf, n)).Some?
    case RejectBinding(wf, n) => ReadyToBind(s, wf, n) && Materialize(n, Outputs(s.tasks, wf, n)).None?
    case SkipNode(wf, n) =>
      HasNode(s, wf, n) && s.nodes[NodeTask(wf, n.id)].state == Waiting && SomeFailed(s.nodes, wf, n)
    case SyncNode(wf, n) =>
      HasNode(s, wf, n) && s.nodes[NodeTask(wf, n.id)].state !in {Waiting, Skipped, NodeFailed}
    case SetRun(wf, _) => wf in s.runs
  }

  function FlowApply(s: Db, a: FlowAction): Db
    requires FlowGuard(s, a)
  {
    match a
    case SubmitRun(wf, run, policy, llm, sequence) =>
      s.(tasks := s.tasks + RunTasks(wf, run, policy, sequence),
         nodes := s.nodes + RunNodes(wf, run, llm),
         runs := s.runs[wf := RunRow(run, RunPending)])
    case Dispatch(wf, n) =>
      var t := NodeTask(wf, n.id);
      SetRow(SetNode(s, t, Ready, s.nodes[t].error), t, OpenGate(Materialize(n, Outputs(s.tasks, wf, n)).value))
    case RejectBinding(wf, n) =>
      var t := NodeTask(wf, n.id);
      SetRow(SetNode(s, t, NodeFailed, Some(BINDING_FAILED)), t, FailBinding)
    case SkipNode(wf, n) => SetNode(s, NodeTask(wf, n.id), Skipped, Some(DEPENDENCY_FAILED))
    case SyncNode(wf, n) =>
      var t := NodeTask(wf, n.id);
      SetNode(s, t, Mirror(s.tasks[t].status), s.nodes[t].error)
    case SetRun(wf, status) => s.(runs := s.runs[wf := s.runs[wf].(status := status)])
  }

  const BINDING_FAILED := "input binding failed"
  const DEPENDENCY_FAILED := "dependency failed or was skipped"

  // ---------------------------------------------------------------- one step

  datatype Action =
    | ByRegistry(registry: RegistryAction)
    | ByStore(store: StoreAction)
    | ByRecovery(recovery: RecoveryAction)
    | ByWorkflow(flow: FlowAction)

  ghost predicate Guard(s: Db, a: Action) {
    match a
    case ByRegistry(x) => RegistryGuard(s, x)
    case ByStore(x) => StoreGuard(s, x)
    case ByRecovery(x) => RecoveryGuard(s, x)
    case ByWorkflow(x) => FlowGuard(s, x)
  }

  ghost function Apply(s: Db, a: Action): Db
    requires Guard(s, a)
  {
    match a
    case ByRegistry(x) => RegistryApply(s, x)
    case ByStore(x) => StoreApply(s, x)
    case ByRecovery(x) => RecoveryApply(s, x)
    case ByWorkflow(x) => FlowApply(s, x)
  }

  ghost predicate Next(s: Db, s': Db) {
    exists a :: Guard(s, a) && s' == Apply(s, a)
  }
}
