/** What every reachable state of the control plane satisfies. Each part is a predicate on
    the tables it is about, so that a step which leaves those tables alone keeps it. */
module Invariants {
  import opened Types
  import opened Rows
  import opened Bindings
  import opened Graph
  import opened Protocol
  import Usage

  // ---------------------------------------------------------------- tasks

  ghost predicate RowsOk(tasks: map<TaskId, TaskRow>) {
    && (forall t | t in tasks :: RowInv(tasks[t]))
    && (forall t, u | t in tasks && u in tasks && tasks[t].sequence == tasks[u].sequence :: t == u)
  }

  // ---------------------------------------------------------------- sessions

  ghost predicate SessionOk(row: SessionRow) {
    && (row.state == Stopping ==> row.stopRequested)
    && (row.state == ActiveSession ==> !row.stopRequested)
    && (row.state == Stopped <==> row.evidence.Some?)
  }

  ghost predicate Named(sid: SessionId, sessions: map<SessionId, SessionRow>, registry: map<WorkerId, RegistryRow>)
    requires sid in sessions
  {
    sessions[sid].state != Stopped ==>
      sessions[sid].worker in registry && registry[sessions[sid].worker].session == sid
  }

  ghost predicate Listed(w: WorkerId, sessions: map<SessionId, SessionRow>, registry: map<WorkerId, RegistryRow>)
    requires w in registry
  {
    && registry[w].session in sessions && sessions[registry[w].session].worker == w
    && (registry[w].active <==> sessions[registry[w].session].state != Stopped)
  }

  /** A worker id has at most one session that has not stopped: the one the registry names. */
  ghost predicate SessionsOk(sessions: map<SessionId, SessionRow>, registry: map<WorkerId, RegistryRow>) {
    && (forall sid | sid in sessions :: SessionOk(sessions[sid]) && Named(sid, sessions, registry))
    && (forall w | w in registry :: Listed(w, sessions, registry))
  }

  // ---------------------------------------------------------------- business calls

  ghost predicate CallOk(i: Invocation, tasks: map<TaskId, TaskRow>, sessions: map<SessionId, SessionRow>) {
    && i.task in tasks
    && tasks[i.task].status == Running && tasks[i.task].attempts == i.attempt
    && tasks[i.task].owner == Some(i.owner) && tasks[i.task].session == i.session
    && (i.session.Some? ==> i.session.value in sessions && sessions[i.session.value].state != Stopped)
  }

  /** While a row is RUNNING it is the row that its executor was given. */
  ghost predicate ClaimOk(r: TaskRow, t: TaskId, claims: map<Case, TaskRow>, sessions: map<SessionId, SessionRow>) {
    r.status == Running ==>
      && r.owner.Some?
      && Case(t, r.attempts) in claims
      && claims[Case(t, r.attempts)] == r
      && (r.session.Some? ==> r.session.value in sessions)
  }

  ghost predicate CallsOk(live: set<Invocation>, claims: map<Case, TaskRow>, attested: set<Case>,
                          tasks: map<TaskId, TaskRow>, sessions: map<SessionId, SessionRow>)
  {
    && (forall i | i in live :: CallOk(i, tasks, sessions))
    && (forall t | t in tasks :: ClaimOk(tasks[t], t, claims, sessions))
    && (forall c | c in claims :: c.task in tasks && c.attempt <= tasks[c.task].attempts)
    && (forall c | c in attested :: c.task in tasks && c.attempt <= tasks[c.task].attempts)
    && (forall c, i | c in attested && i in live :: !(i.task == c.task && i.attempt == c.attempt))
  }

  // ---------------------------------------------------------------- incidents and holds

  ghost predicate IncidentOk(c: Case, x: Incident, holds: set<Hold>, tasks: map<TaskId, TaskRow>,
                             nodes: map<TaskId, NodeRow>)
  {
    && c.task in tasks && c.attempt <= tasks[c.task].attempts
    && x.workflow == (if c.task in nodes && c.task.NodeTask? then Some(c.task.workflow) else None)
    // Nobody decides an attempt before it has failed.
    && (tasks[c.task].status == Running && tasks[c.task].attempts == c.attempt ==> !x.OfOperator())
    && (x.Open() ==>
          && Hold(TaskScope(c.task), ByIncident(c)) in holds
          && (x.workflow.Some? ==> Hold(WorkflowScope(x.workflow.value), ByIncident(c)) in holds))
  }

  ghost predicate HoldOk(h: Hold, incidents: map<Case, Incident>) {
    match h.source
    case ByOperator => h.scope.WorkflowScope?
    case ByIncident(c) =>
      && c in incidents && incidents[c].Open()
      && match h.scope
         case TaskScope(t) => t == c.task
         case WorkflowScope(wf) => incidents[c].workflow == Some(wf)
  }

  ghost predicate HoldsOk(incidents: map<Case, Incident>, holds: set<Hold>,
                          tasks: map<TaskId, TaskRow>, nodes: map<TaskId, NodeRow>)
  {
    && (forall c | c in incidents :: IncidentOk(c, incidents[c], holds, tasks, nodes))
    && (forall h | h in holds :: HoldOk(h, incidents))
  }

  // ---------------------------------------------------------------- workflows

  /** The stored arguments are the bindings resolved against the results in the tables. */
  ghost predicate Frozen(tasks: map<TaskId, TaskRow>, wf: string, n: NodeDef, r: TaskRow) {
    && Materialize(n, Outputs(tasks, wf, n)) == Some(r.def.kwargs)
    && r.def == BaseDef(n).(kwargs := r.def.kwargs)
  }

  predicate Undispatched(state: NodeState) { state == Waiting || state == Skipped }

  ghost predicate NodeOk(nodes: map<TaskId, NodeRow>, tasks: map<TaskId, TaskRow>, wf: string, n: NodeDef) {
    var t := NodeTask(wf, n.id);
    && t in nodes && t in tasks
    && var state, r := nodes[t].state, tasks[t];
       && (Undispatched(state) ==> r.status == Pending && r.blocked)
       && (state == NodeFailed ==> r.status == Failed)
       && (state == NodeSuccess ==> r.status == Success)
       && (state == Ready || state == NodeRunning || state == NodeRetrying ==> !r.blocked)
       && (!Undispatched(state) ==> AllSucceeded(nodes, wf, n))
       && (state == Skipped ==> SomeFailed(nodes, wf, n))
       && (if r.blocked then r.def == BaseDef(n) else !Undispatched(state) && Frozen(tasks, wf, n, r))
  }

  ghost predicate IsNodeOf(runs: map<string, RunRow>, t: TaskId, n: NodeDef) {
    t.NodeTask? && t.workflow in runs && n in runs[t.workflow].def.nodes && n.id == t.node
  }

  ghost predicate HasDefinition(runs: map<string, RunRow>, t: TaskId) {
    exists n :: IsNodeOf(runs, t, n)
  }

  ghost predicate FlowOk(runs: map<string, RunRow>, nodes: map<TaskId, NodeRow>, tasks: map<TaskId, TaskRow>) {
    && (forall wf | wf in runs :: WellFormed(runs[wf].def.nodes))
    && (forall wf, n | wf in runs && n in runs[wf].def.nodes :: NodeOk(nodes, tasks, wf, n))
    && (forall t | t in nodes :: HasDefinition(runs, t))
  }

  // ---------------------------------------------------------------- budgets

  /** Under a token cap every call before the last admitted one has known usage, and the
      known tokens of those calls stay below the cap. */
  ghost predicate TokensOk(cap: nat, u: Usage.Totals, tasks: map<TaskId, TaskRow>, ids: seq<TaskId>,
                           last: Option<Case>)
  {
    && u.running <= 1
    && (u.calls > 0 ==>
          && last.Some? && last.value.task in ids && last.value.task in tasks
          && 1 <= last.value.attempt <= tasks[last.value.task].attempts
          && var log := tasks[last.value.task].log;
             && u.tokens < cap + Usage.Tokens(log, last.value.attempt)
             && u.missing <= Usage.Missing(log, last.value.attempt))
  }

  ghost predicate BudgetOk(budget: Option<Budget>, tasks: map<TaskId, TaskRow>, ids: seq<TaskId>, last: Option<Case>) {
    budget.Some? ==>
      var u := Usage.UsageOf(tasks, ids);
      && (budget.value.maxCalls.Some? ==> u.calls <= budget.value.maxCalls.value)
      && (budget.value.maxTokens.Some? ==> TokensOk(budget.value.maxTokens.value, u, tasks, ids, last))
  }

  function LastAdmitted(admitted: map<string, Case>, wf: string): Option<Case> {
    if wf in admitted then Some(admitted[wf]) else None
  }

  ghost predicate BudgetsOk(runs: map<string, RunRow>, nodes: map<TaskId, NodeRow>, tasks: map<TaskId, TaskRow>,
                            admitted: map<string, Case>)
  {
    forall wf | wf in runs ::
      BudgetOk(runs[wf].def.budget, tasks, Usage.LlmTasks(wf, runs[wf].def.nodes, nodes), LastAdmitted(admitted, wf))
  }

  // ---------------------------------------------------------------- all of it

  ghost predicate Inv(s: Db) {
    && RowsOk(s.tasks)
    && SessionsOk(s.sessions, s.registry)
    && CallsOk(s.live, s.claims, s.attested, s.tasks, s.sessions)
    && HoldsOk(s.incidents, s.holds, s.tasks, s.nodes)
    && FlowOk(s.runs, s.nodes, s.tasks)
    && BudgetsOk(s.runs, s.nodes, s.tasks, s.admitted)
  }
}
