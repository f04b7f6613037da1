/** What operators and supervisors do (`recovery.py`): confirming that calls have ended, deciding failed
    attempts, and pausing and resuming workflows. */
module Operator {
  import opened Types
  import opened Rows
  import opened Protocol
  import opened Invariants
  import opened Reachable
  import opened Tables
  import opened RowRecovery
  import opened Incidents
  import opened Coordinator
  import opened Advance
  import opened NodeLaws
  import opened RowLaws
  import WorkerRegistry
  import WorkflowStore

  // ---------------------------------------------------------------- confirming the end of calls

  /** `_confirm`. */
  method Confirm(db: Database, sid: SessionId, proof: string) returns (reply: Reply<Unit>)
    requires Drained(db.State(), sid)
    modifies db
    ensures reply.Ok? <==> WorkerRegistry.Confirmable(old(db.State()), sid)
    ensures db.State() == if reply.Ok? then WorkerRegistry.Confirmed(old(db.State()), sid, proof) else old(db.State())
  {
    if sid !in db.sessions { return Rejected(RecoveryConflict); }
    var session := db.sessions[sid];
    if !(session.state in {Fenced, Stopping, Stopped}) { return Rejected(RecoveryConflict); }
    if session.state != Stopped {
      db.sessions := db.sessions[sid := session.(state := Stopped, evidence := Some(proof))];
      db.registry := map w | w in db.registry ::
        if db.registry[w].session == sid then db.registry[w].(active := false) else db.registry[w];
    }
    return Ok(Unit);
  }

  /** The session has stopped with this proof, if it had not before, and no worker is registered with it any more. */
  ghost predicate Ceased(s: Db, s': Db, sid: SessionId, proof: string)
    requires sid in s.sessions
  {
    if s.sessions[sid].state == Stopped then s' == s
    else
      && s' == s.(sessions := s'.sessions, registry := s'.registry)
      && s'.sessions == s.sessions[sid := s.sessions[sid].(state := Stopped, evidence := Some(proof))]
      && s'.registry.Keys == s.registry.Keys
      && forall w | w in s.registry ::
           s'.registry[w] == if s.registry[w].session == sid then s.registry[w].(active := false) else s.registry[w]
  }

  lemma CeasedExactly(s: Db, sid: SessionId, proof: string)
    ensures WorkerRegistry.Confirmable(s, sid) <==>
              sid in s.sessions && s.sessions[sid].state != ActiveSession && s.sessions[sid].state != Suspect
    ensures WorkerRegistry.Confirmable(s, sid) ==> Ceased(s, WorkerRegistry.Confirmed(s, sid, proof), sid, proof)
  {
  }

  /** `confirm_session_stopped`. */
  method ConfirmSession(db: Database, sid: SessionId, operator: string, proof: string) returns (reply: Reply<Unit>)
    requires db.Valid() && Drained(db.State(), sid)
    modifies db
    ensures reply.Ok? <==> !Blank(operator) && !Blank(proof) && !Blank(sid) && WorkerRegistry.Confirmable(old(db.State()), sid)
    ensures db.State() == if reply.Ok? then WorkerRegistry.Confirmed(old(db.State()), sid, proof) else old(db.State())
    ensures reply.Ok? <==>
              && !Blank(operator) && !Blank(proof) && !Blank(sid) && sid in old(db.sessions)
              && old(db.sessions)[sid].state != ActiveSession && old(db.sessions)[sid].state != Suspect
    ensures reply.Ok? ==> Ceased(old(db.State()), db.State(), sid, proof)
    ensures db.Valid() && Reaches(old(db.State()), db.State())
  {
    hide Inv, Reaches, WorkerRegistry.Confirmed, WorkerRegistry.Confirmable, Ceased;
    CeasedExactly(db.State(), sid, proof);
    ghost var s := db.State();
    ReachesSelf(s);
    if Blank(operator) || Blank(proof) || Blank(sid) { return Rejected(InvalidArgument); }
    reply := Confirm(db, sid, proof);
    if reply.Ok? { ConfirmedReaches(s, sid, proof); }
  }

  lemma ConfirmedReaches(s: Db, sid: SessionId, proof: string)
    requires Inv(s) && WorkerRegistry.Confirmable(s, sid) && Drained(s, sid)
    ensures Reaches(s, WorkerRegistry.Confirmed(s, sid, proof)) && Inv(WorkerRegistry.Confirmed(s, sid, proof))
  {
    hide Inv, Reaches;
    ReachesSelf(s);
    if s.sessions[sid].state != Stopped { ReachesStep(s, s, ByRegistry(ConfirmStopped(sid, proof))); }
    ReachesInv(s, WorkerRegistry.Confirmed(s, sid, proof));
  }

  function StoppedNow(row: SessionRow, proof: string): SessionRow {
    if row.state == Stopped then row else row.(state := Stopped, evidence := Some(proof))
  }

  lemma ConfirmedSessions(s: Db, sid: SessionId, proof: string)
    requires WorkerRegistry.Confirmable(s, sid)
    ensures var s' := WorkerRegistry.Confirmed(s, sid, proof);
      && s' == s.(sessions := s'.sessions, registry := s'.registry)
      && s'.sessions == s.sessions[sid := StoppedNow(s.sessions[sid], proof)]
  {
    hide Deregister;
    assert s.sessions[sid := s.sessions[sid]] == s.sessions;
  }

  /** These sessions have stopped now, if they had not before, and no other. */
  ghost predicate AllConfirmed(s: Db, s': Db, sids: seq<SessionId>, proof: string) {
    && s' == s.(sessions := s'.sessions, registry := s'.registry)
    && s'.sessions.Keys == s.sessions.Keys
    && forall sid | sid in s.sessions :: s'.sessions[sid] ==
         if sid in sids then StoppedNow(s.sessions[sid], proof) else s.sessions[sid]
  }

  lemma ConfirmedNext(s: Db, m: Db, sids: seq<SessionId>, sid: SessionId, proof: string)
    requires AllConfirmed(s, m, sids, proof) && sid !in sids && WorkerRegistry.Confirmable(m, sid)
    ensures AllConfirmed(s, WorkerRegistry.Confirmed(m, sid, proof), sids + [sid], proof)
  {
    hide WorkerRegistry.Confirmed, StoppedNow;
    ConfirmedSessions(m, sid, proof);
    assert sid in m.sessions.Keys;
    assert WorkerRegistry.Confirmed(m, sid, proof).sessions.Keys == s.sessions.Keys;
  }

  /** A nonempty list of different session identifiers. */
  predicate Listed(sids: seq<SessionId>) {
    sids != [] && (forall i, j | 0 <= i < j < |sids| :: sids[i] != sids[j]) && forall sid | sid in sids :: !Blank(sid)
  }

  predicate OnHost(s: Db, host: string, sid: SessionId) {
    WorkerRegistry.Confirmable(s, sid) && s.sessions[sid].host == host
  }

  /** The listed sessions are of this host, were neither active nor suspect, and have stopped with this proof unless they
      had another before. */
  ghost predicate HostCeased(sessions: map<SessionId, SessionRow>, sessions': map<SessionId, SessionRow>, host: string,
                             sids: seq<SessionId>, proof: string)
  {
    forall sid | sid in sids ::
      && sid in sessions && sid in sessions' && sessions[sid].host == host && sessions'[sid].state == Stopped
      && sessions[sid].state != ActiveSession && sessions[sid].state != Suspect
      && (sessions[sid].state != Stopped ==> sessions'[sid].evidence == Some(proof))
  }

  /** `confirm_host_stopped`: an explicit list of sessions of one host, all of them or none. */
  method ConfirmHost(db: Database, host: string, sids: seq<SessionId>, operator: string, proof: string)
    returns (reply: Reply<Unit>)
    requires db.Valid() && forall sid | sid in sids :: Drained(db.State(), sid)
    modifies db
    ensures reply.Ok? <==> !Blank(operator) && !Blank(proof) && !Blank(host) && Listed(sids)
                           && (forall sid | sid in sids :: OnHost(old(db.State()), host, sid))
    ensures if reply.Ok? then AllConfirmed(old(db.State()), db.State(), sids, proof) else db.State() == old(db.State())
    ensures reply.Ok? ==> HostCeased(old(db.sessions), db.sessions, host, sids, proof)
    ensures db.Valid() && Reaches(old(db.State()), db.State())
  {
    hide Inv, Reaches, WorkerRegistry.Confirmed, AllConfirmed, HostCeased;
    ghost var s := db.State();
    ReachesSelf(s);
    if Blank(operator) || Blank(proof) || Blank(host) || !Listed(sids) {
      return Rejected(InvalidArgument);
    }
    var sessions, registry := db.sessions, db.registry;
    NoneConfirmed(s, proof);
    assert sids[..0] == [];
    for i := 0 to |sids|
      invariant db.Valid() && Reaches(s, db.State()) && AllConfirmed(s, db.State(), sids[..i], proof)
      invariant forall j | 0 <= j < i :: OnHost(s, host, sids[j])
    {
      var sid := sids[i];
      assert sids[..i + 1] == sids[..i] + [sid] && sid in sids && sid !in sids[..i];
      ghost var m := db.State();
      SameUntilConfirmed(s, m, sids[..i], sid, proof);
      var known := sid in db.sessions && db.sessions[sid].host == host;
      var done: Reply<Unit> := Rejected(RecoveryConflict);
      if known { done := Confirm(db, sid, proof); }
      if done.Rejected? {
        db.sessions, db.registry := sessions, registry;
        RolledBack(s, m, sids[..i], proof);
        return Rejected(RecoveryConflict);
      }
      ConfirmedReaches(m, sid, proof);
      ReachesTransitive(s, m, db.State());
      ConfirmedNext(s, m, sids[..i], sid, proof);
    }
    assert sids[..|sids|] == sids;
    AllCeased(s, db.State(), host, sids, proof);
    return Ok(Unit);
  }

  lemma AllCeased(s: Db, s': Db, host: string, sids: seq<SessionId>, proof: string)
    requires AllConfirmed(s, s', sids, proof) && forall sid | sid in sids :: OnHost(s, host, sid)
    ensures HostCeased(s.sessions, s'.sessions, host, sids, proof)
  {
    assert s'.sessions.Keys == s.sessions.Keys;
    forall sid | sid in sids ensures sid in s'.sessions { assert OnHost(s, host, sid); assert sid in s.sessions.Keys; }
  }

  lemma NoneConfirmed(s: Db, proof: string)
    ensures AllConfirmed(s, s, [], proof)
  {
  }

  lemma SameUntilConfirmed(s: Db, m: Db, sids: seq<SessionId>, sid: SessionId, proof: string)
    requires AllConfirmed(s, m, sids, proof) && sid !in sids
    ensures (sid in m.sessions <==> sid in s.sessions) && (sid in s.sessions ==> m.sessions[sid] == s.sessions[sid]) && m.live == s.live
  {
    assert sid in m.sessions.Keys <==> sid in s.sessions.Keys;
  }

  lemma RolledBack(s: Db, m: Db, sids: seq<SessionId>, proof: string)
    requires AllConfirmed(s, m, sids, proof)
    ensures m.(sessions := s.sessions, registry := s.registry) == s
  {
  }

  /** `confirm_task_stopped`: an attempt without a session is attested and recovered at once. */
  method ConfirmTask(db: Database, engine: Engine, t: TaskId, attempt: nat, operator: string, proof: string, now: Time,
                     delay: nat)
    returns (reply: Reply<bool>)
    requires db.Valid() && forall i | i in db.live :: i.task != t
    modifies db
    ensures reply.Ok? <==> !Blank(operator) && !Blank(proof) && 1 <= attempt && t in old(db.tasks) && old(db.tasks)[t].status == Running
                           && old(db.tasks)[t].session.None? && old(db.tasks)[t].attempts == attempt
    ensures !reply.Ok? ==> db.State() == old(db.State())
    ensures reply.Ok? ==> Case(t, attempt) in db.attested && (reply.value <==> old(db.tasks)[t].def.handler in engine.registry)
    ensures reply.Ok? ==> if reply.value then TaskRecovered(old(db.State()), db.State(), engine, t, now, delay)
                          else && t in db.tasks && db.tasks[t] == old(db.tasks)[t]
                               && OpenAs(db.State(), Case(t, attempt), RecoveryError)
                               && db.incidents[Case(t, attempt)].reason == Undecodable(db.tasks[t].def.handler)
    ensures reply.Ok? ==> t in db.tasks && Handled(db.State(), engine, t)
    ensures db.Valid() && Reaches(old(db.State()), db.State())
  {
    hide Inv, Reaches, Raised, RecoveredOne, TaskRecovered, SafeToTake, StopProven, SessionAlive, Handled, Confined;
    ghost var s := db.State();
    ReachesSelf(s);
    if Blank(operator) || Blank(proof) || attempt < 1 { return Rejected(InvalidArgument); }
    if t !in db.tasks || db.tasks[t].status != Running || db.tasks[t].session.Some? || db.tasks[t].attempts != attempt {
      return Rejected(RecoveryConflict);
    }
    RaisedReaches(s, t, WaitStop, OFFLINE_CONFIRMED);
    RaisedConfined(s, t, WaitStop, OFFLINE_CONFIRMED);
    RaisedFrame(s, t, WaitStop, OFFLINE_CONFIRMED);
    Raise(db, t, WaitStop, OFFLINE_CONFIRMED);
    ghost var m1 := db.State();
    AttestedReaches(m1, t, attempt);
    db.attested := db.attested + {Case(t, attempt)};
    ghost var m2 := db.State();
    ReachesTransitive(s, m1, m2);
    RunningIsUndecided(m2, t);
    var done := RecoverOne(db, engine, t, now, delay);
    RecoveredOneHandled(m2, engine, t, now, delay, db.tasks[t].sequence);
    ReachesTransitive(s, m2, db.State());
    if done { SameRowRecovered(s, m2, db.State(), engine, t, now, delay); }
    ConfinedRows(m2, db.State(), t);
    if !done { UndecodedIsHeld(m2, db.State(), engine, t); }
    return Ok(done);
  }

  lemma UndecodedIsHeld(m: Db, s: Db, engine: Engine, t: TaskId)
    requires t in m.tasks && t in s.tasks && s.tasks[t] == m.tasks[t] && s.sessions == m.sessions && s.attested == m.attested
    requires s.tasks[t].status == Running && StopProven(m, t) && Handled(s, engine, t)
    ensures var c := Case(t, s.tasks[t].attempts);
      OpenAs(s, c, RecoveryError) && s.incidents[c].reason == Undecodable(s.tasks[t].def.handler)
  {
  }

  lemma RaisedFrame(s: Db, t: TaskId, kind: IncidentKind, reason: Reason)
    requires t in s.tasks
    ensures var s' := Raised(s, t, kind, reason); s' == s.(incidents := s'.incidents, holds := s'.holds)
  {
    hide Raised;
    RaisedKeepsTasks(s, t, kind, reason);
  }

  lemma AttestedReaches(s: Db, t: TaskId, attempt: nat)
    requires Inv(s) && RecoveryGuard(s, Attest(t, attempt))
    ensures var s' := s.(attested := s.attested + {Case(t, attempt)});
      && Reaches(s, s') && Inv(s') && SafeToTake(s', t) && StopProven(s', t) && !SessionAlive(s', t)
  {
    hide Inv, Reaches;
    ReachesSelf(s);
    ReachesStep(s, s, ByRecovery(Attest(t, attempt)));
    ReachesInv(s, s.(attested := s.attested + {Case(t, attempt)}));
  }

  // ---------------------------------------------------------------- deciding a failed attempt

  /** A stopped call whose row could not be decoded may be reconciled by the operator. */
  predicate Reconcilable(s: Db, c: Case)
    requires c in s.incidents && c.task in s.tasks
  {
    s.tasks[c.task].status == Running && s.incidents[c].kind == RecoveryError && StopProven(s, c.task)
  }

  /** The row that the decision is about. */
  function Decidable(s: Db, c: Case): TaskRow
    requires c in s.incidents && c.task in s.tasks
  {
    if Reconcilable(s, c) then RowApply(s.tasks[c.task], Reconcile) else s.tasks[c.task]
  }

  /** All conditions of `resolve_task`. */
  predicate MayDecide(s: Db, registry: set<string>, c: Case, decision: Decision, extra: nat) {
    && (decision != Decision.Retry ==> extra == 0)
    && c in s.incidents && s.incidents[c].Open() && c.task in s.tasks && s.tasks[c.task].attempts == c.attempt
    && var r := Decidable(s, c);
       && r.status == Failed
       && (decision == Decision.Retry ==>
             !r.blocked && r.def.idempotent && r.retries < r.retryLimit + extra && r.def.handler in registry)
  }

  ghost function Prepared(s: Db, c: Case): Db
    requires c in s.incidents && c.task in s.tasks
  {
    if Reconcilable(s, c) then SetRow(s, c.task, Reconcile) else s
  }

  lemma PreparedRow(s: Db, c: Case)
    requires c in s.incidents && c.task in s.tasks
    ensures var m := Prepared(s, c);
      && c in m.incidents && m.incidents == s.incidents && c.task in m.tasks && m.tasks[c.task] == Decidable(s, c)
      && m == s.(tasks := m.tasks) && m.tasks[c.task].attempts == s.tasks[c.task].attempts
  {
    hide RowApply;
    ReconcileKeepsAttempts(s.tasks[c.task]);
  }

  lemma ReconcileKeepsAttempts(r: TaskRow)
    ensures RowGuard(r, Reconcile) ==> RowApply(r, Reconcile).attempts == r.attempts
  {
  }

  lemma PreparedReaches(s: Db, c: Case)
    requires Inv(s) && c in s.incidents && c.task in s.tasks
    ensures Reaches(s, Prepared(s, c)) && Inv(Prepared(s, c))
  {
    hide Inv, Reaches, SetRow, StopProven, SafeToTake;
    ReachesSelf(s);
    if Reconcilable(s, c) {
      ProvenIsSafe(s, c.task);
      ReachesStep(s, s, ByRecovery(ReconcileStopped(c.task)));
    }
    ReachesInv(s, Prepared(s, c));
  }

  lemma SettledReaches(s: Db, c: Case, decision: Decision, extra: nat, supplied: Json, retryAt: Option<Time>)
    requires Inv(s) && RecoveryGuard(s, Decide(c, decision, extra, supplied, retryAt))
    ensures var s' := Settled(s, c, decision, extra, supplied, retryAt); Reaches(s, s') && Inv(s')
  {
    hide Inv, Reaches, Settled, RowGuard;
    ReachesSelf(s);
    ReachesStep(s, s, ByRecovery(Decide(c, decision, extra, supplied, retryAt)));
    ReachesInv(s, Settled(s, c, decision, extra, supplied, retryAt));
  }

  /** Writing the decision to the row of the failed task, with its events. */
  method WriteDecision(db: Database, t: TaskId, decision: Decision, extra: nat, supplied: Json, retryAt: Option<Time>)
    requires t in db.tasks && RowGuard(db.tasks[t], Resolve(decision, extra, supplied, retryAt))
    modifies db`tasks
    ensures db.tasks == old(db.tasks)[t := RowApply(old(db.tasks)[t], Resolve(decision, extra, supplied, retryAt))]
  {
    var r := db.tasks[t];
    var limit := r.retryLimit + extra;
    var status, retries := r.status, r.retries;
    if decision == Decision.Retry {
      status, retries := Retrying, retries + 1;
    } else if decision == Succeed {
      status := Success;
    }
    var row := r.(status := status, retries := retries, retryLimit := limit,
                  retryAt := if decision == Decision.Retry then retryAt else None,
                  result := if decision == Succeed then Some(supplied) else None,
                  lastError := if r.error.Some? then r.error else r.lastError,
                  error := if decision == Decision.Fail then r.error else None,
                  owner := None, session := None);
    var detail := Manual(decision, if decision == Succeed then supplied else Null);
    row := row.(log := row.log + [Event(ManualResolution, row.status, row.attempts, row.retries, detail)]);
    if decision == Decision.Retry {
      row := row.(log := row.log + [Event(RetryScheduled, row.status, row.attempts, row.retries, NoDetail)]);
    }
    assert row.log == r.log + Entries(r, Resolve(decision, extra, supplied, retryAt));
    db.tasks := db.tasks[t := row];
  }

  /** The node of the task follows, and the skipped nodes of its workflow wait again. */
  method WriteNodes(db: Database, t: TaskId, workflow: string, state: NodeState)
    modifies db`nodes, db`runs
    ensures var nodes := old(db.nodes);
      db.nodes == Reopened(if t in nodes then nodes[t := nodes[t].(state := state, error := None)] else nodes, workflow)
    ensures var runs := old(db.runs);
      db.runs == if workflow in runs then runs[workflow := runs[workflow].(status := RunRunning)] else runs
  {
    if t in db.nodes { db.nodes := db.nodes[t := db.nodes[t].(state := state, error := None)]; }
    db.nodes := map u | u in db.nodes ::
      if u.NodeTask? && u.workflow == workflow && db.nodes[u].state == Skipped
      then db.nodes[u].(state := Waiting, error := None) else db.nodes[u];
    if workflow in db.runs { db.runs := db.runs[workflow := db.runs[workflow].(status := RunRunning)]; }
  }

  /** The part of `resolve_task` after its checks, up to the reconciliation of the workflow. */
  method Decided(db: Database, c: Case, decision: Decision, extra: nat, supplied: Json, retryAt: Option<Time>)
    requires db.Valid() && RecoveryGuard(db.State(), Decide(c, decision, extra, supplied, retryAt))
    modifies db
    ensures db.State() == Settled(old(db.State()), c, decision, extra, supplied, retryAt)
    ensures db.Valid() && Reaches(old(db.State()), db.State())
  {
    hide Inv, Reaches, RowApply, Reopened, Closed, RowGuard;
    ghost var s := db.State();
    SettledReaches(s, c, decision, extra, supplied, retryAt);
    var workflow := db.incidents[c].workflow;
    WriteDecision(db, c.task, decision, extra, supplied, retryAt);
    if workflow.Some? && decision != Decision.Fail {
      WriteNodes(db, c.task, workflow.value, Mirror(db.tasks[c.task].status));
    }
    assert db.State() == BeforeClosing(s, c, decision, extra, supplied, retryAt);
    Close(db, c, Resolution.Decided(decision, extra));
  }

  method WriteReconciled(db: Database, t: TaskId)
    requires t in db.tasks && db.tasks[t].status == Running
    modifies db`tasks
    ensures db.tasks == old(db.tasks)[t := RowApply(old(db.tasks)[t], Reconcile)]
  {
    var r := db.tasks[t];
    var row := r.(status := Status.Failed, error := Some(RECONCILED_ERROR));
    row := row.(log := row.log + [Event(EventKind.Interrupted, row.status, row.attempts, row.retries, NoDetail)]);
    db.tasks := db.tasks[t := row];
  }

  /** The checks of `resolve_task`; a stopped call that could not be decoded is reconciled on the way. */
  method Prepare(db: Database, registry: set<string>, c: Case, decision: Decision, extra: nat) returns (ok: bool)
    requires db.Valid()
    modifies db`tasks
    ensures ok <==> MayDecide(old(db.State()), registry, c, decision, extra)
    ensures db.tasks == if ok then Prepared(old(db.State()), c).tasks else old(db.tasks)
  {
    hide Inv, RowApply, StopProven;
    if (extra > 0 && decision != Decision.Retry) || c !in db.incidents || !db.incidents[c].Open() { return false; }
    if c.task !in db.tasks || db.tasks[c.task].attempts != c.attempt { return false; }
    var tasks := db.tasks;
    if db.tasks[c.task].status == Running && db.incidents[c].kind == RecoveryError {
      var proven := Proof(db, c.task);
      if !proven { return false; }
      WriteReconciled(db, c.task);
    }
    var r := db.tasks[c.task];
    if r.status != Status.Failed ||
       (decision == Decision.Retry &&
         (r.blocked || !r.def.idempotent || r.retries >= r.retryLimit + extra || r.def.handler !in registry)) {
      db.tasks := tasks;
      return false;
    }
    return true;
  }

  ghost predicate Resolved(s: Db, s': Db, c: Case, decision: Decision, extra: nat, supplied: Json,
                           retryAt: Option<Time>)
  {
    && c in s.incidents && c.task in s.tasks
    && var m := Prepared(s, c);
       && c in m.incidents && c.task in m.tasks && RowGuard(m.tasks[c.task], Resolve(decision, extra, supplied, retryAt))
       && var x := Settled(m, c, decision, extra, supplied, retryAt);
          match s.incidents[c].workflow
          case None => s' == x
          case Some(wf) => Advanced(x, s', wf)
  }

  /** An operator may decide an open incident of the current attempt if it has failed, or if it is known to be over and
      its row could not be decoded; and grant a retry only to an idempotent task with a known handler, its gate open and
      its retries below the raised limit. */
  ghost predicate DecisionAllowed(s: Db, registry: set<string>, c: Case, decision: Decision, extra: nat) {
    && c in s.incidents && s.incidents[c].resolution == None && c.task in s.tasks && s.tasks[c.task].attempts == c.attempt
    && (decision == Decision.Retry || extra == 0)
    && var r := s.tasks[c.task];
       && (r.status == Failed || (r.status == Running && s.incidents[c].kind == RecoveryError && EndKnown(s, c.task)))
       && (decision == Decision.Retry ==>
             r.def.idempotent && !r.blocked && r.def.handler in registry && r.retries < r.retryLimit + extra)
  }

  lemma AllowedExactly(s: Db, registry: set<string>, c: Case, decision: Decision, extra: nat)
    ensures MayDecide(s, registry, c, decision, extra) <==> DecisionAllowed(s, registry, c, decision, extra)
  {
    if c in s.incidents && c.task in s.tasks {
      KnownExactly(s, c.task);
      if s.tasks[c.task].status == Running { ReconciliationExactly(s.tasks[c.task]); }
    }
    hide StopProven, EndKnown, RowApply;
  }

  /** The row of the decided attempt; one that could not be decoded is an uncertain failure first. */
  ghost predicate RowDecided(r: TaskRow, r': TaskRow, decision: Decision, extra: nat, supplied: Json,
                             retryAt: Option<Time>) {
    exists m :: (if r.status == Running then ReconciledTo(r, m) else m == r) && ResolvedTo(m, r', decision, extra, supplied, retryAt)
  }

  ghost predicate NodesRestarted(nodes: map<TaskId, NodeRow>, nodes': map<TaskId, NodeRow>, t: TaskId, wf: string,
                                 state: NodeState) {
    && nodes'.Keys == nodes.Keys
    && (forall u | u in nodes ::
          nodes'[u] == if u == t then nodes[u].(state := state, error := None)
                       else if u.NodeTask? && u.workflow == wf && nodes[u].state == Skipped then nodes[u].(state := Waiting, error := None)
                       else nodes[u])
  }

  /** A decision other than a failure restarts the workflow: the node of the task follows, and the nodes that were
      skipped wait again. */
  ghost predicate Restarted(s: Db, x: Db, t: TaskId, wf: string, state: NodeState) {
    && NodesRestarted(s.nodes, x.nodes, t, wf, state)
    && x.runs == if wf in s.runs then s.runs[wf := s.runs[wf].(status := RunRunning)] else s.runs
  }

  /** All that a decision writes before the workflow is reconciled. */
  ghost predicate Decides(s: Db, x: Db, c: Case, decision: Decision, extra: nat, supplied: Json, retryAt: Option<Time>)
    requires c in s.incidents && c.task in s.tasks
  {
    var t, wf := c.task, s.incidents[c].workflow;
    && x == s.(tasks := x.tasks, nodes := x.nodes, runs := x.runs, incidents := x.incidents, holds := x.holds)
    && t in x.tasks && x.tasks == s.tasks[t := x.tasks[t]] && RowDecided(s.tasks[t], x.tasks[t], decision, extra, supplied, retryAt)
    && x.incidents == s.incidents[c := s.incidents[c].(resolution := Some(Resolution.Decided(decision, extra)))]
    && (forall h :: h in x.holds <==> h in s.holds && h.source != ByIncident(c))
    && if wf.None? || decision == Decision.Fail then x.nodes == s.nodes && x.runs == s.runs
       else Restarted(s, x, t, wf.value, if decision == Decision.Retry then NodeRetrying else NodeSuccess)
  }

  ghost predicate DecidesAndReconciles(s: Db, s': Db, c: Case, decision: Decision, extra: nat, supplied: Json,
                                       retryAt: Option<Time>)
  {
    && c in s.incidents && c.task in s.tasks
    && exists x :: Decides(s, x, c, decision, extra, supplied, retryAt) &&
         match s.incidents[c].workflow
         case None => s' == x
         case Some(wf) => Reconciled(x, s', wf)
  }

  lemma RowDecidedExactly(s: Db, c: Case, decision: Decision, extra: nat, supplied: Json, retryAt: Option<Time>)
    requires c in s.incidents && c.task in s.tasks && RowGuard(Decidable(s, c), Resolve(decision, extra, supplied, retryAt))
    ensures RowDecided(s.tasks[c.task], RowApply(Decidable(s, c), Resolve(decision, extra, supplied, retryAt)), decision, extra,
                       supplied, retryAt)
  {
    DecisionExactly(Decidable(s, c), decision, extra, supplied, retryAt);
    if s.tasks[c.task].status == Running { ReconciliationExactly(s.tasks[c.task]); }
    hide RowApply, ResolvedTo, ReconciledTo;
  }

  lemma RestartedExactly(s: Db, c: Case, decision: Decision, extra: nat, supplied: Json, retryAt: Option<Time>)
    requires c in s.incidents && c.task in s.tasks && RowGuard(s.tasks[c.task], Resolve(decision, extra, supplied, retryAt))
    ensures var x, wf := BeforeClosing(s, c, decision, extra, supplied, retryAt), s.incidents[c].workflow;
      && x == s.(tasks := s.tasks[c.task := RowApply(s.tasks[c.task], Resolve(decision, extra, supplied, retryAt))],
                 nodes := x.nodes, runs := x.runs)
      && if wf.None? || decision == Decision.Fail then x.nodes == s.nodes && x.runs == s.runs
         else Restarted(s, x, c.task, wf.value, if decision == Decision.Retry then NodeRetrying else NodeSuccess)
  {
    var x, wf := BeforeClosing(s, c, decision, extra, supplied, retryAt), s.incidents[c].workflow;
    var status := RowApply(s.tasks[c.task], Resolve(decision, extra, supplied, retryAt)).status;
    DecidedStatus(s.tasks[c.task], decision, extra, supplied, retryAt);
    hide RowApply, Reopened, NodesRestarted;
    if wf.Some? { NodesReopened(s.nodes, c.task, wf.value, Mirror(status)); }
  }

  lemma DecidedStatus(r: TaskRow, decision: Decision, extra: nat, supplied: Json, retryAt: Option<Time>)
    requires RowGuard(r, Resolve(decision, extra, supplied, retryAt))
    ensures decision == Decision.Retry ==> Mirror(RowApply(r, Resolve(decision, extra, supplied, retryAt)).status) == NodeRetrying
    ensures decision == Succeed ==> Mirror(RowApply(r, Resolve(decision, extra, supplied, retryAt)).status) == NodeSuccess
    ensures Mirror(RowApply(r, Resolve(decision, extra, supplied, retryAt)).status) != Skipped
  {
    DecisionExactly(r, decision, extra, supplied, retryAt);
  }

  lemma NodesReopened(nodes: map<TaskId, NodeRow>, t: TaskId, wf: string, state: NodeState)
    requires state != Skipped
    ensures var nodes' := if t in nodes then nodes[t := nodes[t].(state := state, error := None)] else nodes;
      NodesRestarted(nodes, Reopened(nodes', wf), t, wf, state)
  {
    assert t in nodes ==> nodes[t := nodes[t].(state := state, error := None)].Keys == nodes.Keys;
  }

  lemma DecidesExactly(s: Db, c: Case, decision: Decision, extra: nat, supplied: Json, retryAt: Option<Time>)
    requires c in s.incidents && c.task in s.tasks && RowGuard(Decidable(s, c), Resolve(decision, extra, supplied, retryAt))
    ensures c in Prepared(s, c).incidents && c.task in Prepared(s, c).tasks && Prepared(s, c).tasks[c.task] == Decidable(s, c)
    ensures Decides(s, Settled(Prepared(s, c), c, decision, extra, supplied, retryAt), c, decision, extra, supplied, retryAt)
  {
    hide RowApply, BeforeClosing, RowDecided, Decidable, Restarted, Prepared;
    PreparedRow(s, c);
    var m := Prepared(s, c);
    RestartedExactly(m, c, decision, extra, supplied, retryAt);
    RowDecidedExactly(s, c, decision, extra, supplied, retryAt);
    var y := BeforeClosing(m, c, decision, extra, supplied, retryAt);
    PreparedTasks(s, c);
    var x := Closed(y, c, Resolution.Decided(decision, extra));
    ClosedExactly(y, c, Resolution.Decided(decision, extra));
    hide Closed;
    SameRestart(s, m, y, x, c.task);
    assert s.tasks[c.task := m.tasks[c.task]][c.task := x.tasks[c.task]] == s.tasks[c.task := x.tasks[c.task]];
  }

  lemma ClosedExactly(s: Db, c: Case, resolution: Resolution)
    requires c in s.incidents
    ensures ClosesCase(s, Closed(s, c, resolution), c, resolution)
  {
  }

  lemma PreparedTasks(s: Db, c: Case)
    requires c in s.incidents && c.task in s.tasks
    ensures c.task in Prepared(s, c).tasks && Prepared(s, c).tasks == s.tasks[c.task := Prepared(s, c).tasks[c.task]]
  {
    hide RowApply;
  }

  lemma SameRestart(s: Db, m: Db, y: Db, x: Db, t: TaskId)
    requires m == s.(tasks := m.tasks) && x.nodes == y.nodes && x.runs == y.runs
    ensures forall wf, state :: Restarted(m, y, t, wf, state) <==> Restarted(s, x, t, wf, state)
  {
  }

  /** `resolve_task`. */
  method ResolveTask(db: Database, registry: set<string>, c: Case, decision: Decision, extra: nat, supplied: Json,
                     operator: string, reason: string, now: Time, delay: nat)
    returns (reply: Reply<Unit>)
    requires db.Valid()
    modifies db
    ensures reply.Ok? <==> !Blank(operator) && !Blank(reason) && MayDecide(old(db.State()), registry, c, decision, extra)
    ensures if reply.Ok? then Resolved(old(db.State()), db.State(), c, decision, extra, supplied, RetryTime(now, delay))
            else db.State() == old(db.State())
    ensures reply.Ok? <==> !Blank(operator) && !Blank(reason) && old(DecisionAllowed(db.State(), registry, c, decision, extra))
    ensures reply.Ok? ==> DecidesAndReconciles(old(db.State()), db.State(), c, decision, extra, supplied,
                                               if delay == 0 then None else Some(now + delay))
    ensures db.Valid() && Reaches(old(db.State()), db.State())
  {
    hide Inv, Reaches, MayDecide, DecisionAllowed, Settled, Advanced, Resolved, Reconciled, Decides;
    ghost var s := db.State();
    ReachesSelf(s);
    AllowedExactly(s, registry, c, decision, extra);
    if Blank(operator) || Blank(reason) { return Rejected(InvalidArgument); }
    var ok := Prepare(db, registry, c, decision, extra);
    if !ok { return Rejected(Failure.RecoveryConflict); }
    var retryAt := RetryTime(now, delay);
    ReadyToDecide(s, registry, c, decision, extra, supplied, retryAt);
    assert db.State() == Prepared(s, c);
    ghost var m := db.State();
    var workflow := db.incidents[c].workflow;
    Decided(db, c, decision, extra, supplied, retryAt);
    ghost var x := db.State();
    ReachesTransitive(s, m, x);
    if workflow.Some? {
      WorkflowOfIncident(m, c);
      SettledKeepsRuns(m, c, decision, extra, supplied, retryAt);
      var advanced := WorkflowStore.AdvanceRun(db, workflow.value);
      ReachesTransitive(s, x, db.State());
    }
    ResolvedNow(s, db.State(), c, decision, extra, supplied, retryAt);
    DecidableRow(s, registry, c, decision, extra, supplied, retryAt);
    DecidesExactly(s, c, decision, extra, supplied, retryAt);
    return Ok(Unit);
  }

  lemma ReadyToDecide(s: Db, registry: set<string>, c: Case, decision: Decision, extra: nat, supplied: Json,
                      retryAt: Option<Time>)
    requires Inv(s) && MayDecide(s, registry, c, decision, extra)
    ensures c in s.incidents && c.task in s.tasks
    ensures RecoveryGuard(Prepared(s, c), Decide(c, decision, extra, supplied, retryAt))
    ensures Reaches(s, Prepared(s, c)) && Inv(Prepared(s, c)) && Prepared(s, c).incidents == s.incidents
    ensures Prepared(s, c) == s.(tasks := Prepared(s, c).tasks)
  {
    hide Inv, Reaches, Prepared, Decidable;
    PreparedRow(s, c);
    PreparedReaches(s, c);
  }

  lemma DecidableRow(s: Db, registry: set<string>, c: Case, decision: Decision, extra: nat, supplied: Json,
                     retryAt: Option<Time>)
    requires MayDecide(s, registry, c, decision, extra)
    ensures c in s.incidents && c.task in s.tasks && RowGuard(Decidable(s, c), Resolve(decision, extra, supplied, retryAt))
  {
    hide Decidable;
  }

  lemma WorkflowOfIncident(s: Db, c: Case)
    requires Inv(s) && c in s.incidents && s.incidents[c].workflow.Some?
    ensures s.incidents[c].workflow.value in s.runs
  {
    hide RowsOk, SessionsOk, CallsOk, BudgetsOk;
    assert IncidentOk(c, s.incidents[c], s.holds, s.tasks, s.nodes);
    assert HasDefinition(s.runs, c.task);
  }

  lemma SettledKeepsRuns(s: Db, c: Case, decision: Decision, extra: nat, supplied: Json, retryAt: Option<Time>)
    requires RecoveryGuard(s, Decide(c, decision, extra, supplied, retryAt))
    ensures s.runs.Keys <= Settled(s, c, decision, extra, supplied, retryAt).runs.Keys
  {
    hide RowApply, Reopened, RowGuard;
  }

  lemma ResolvedNow(s: Db, s': Db, c: Case, decision: Decision, extra: nat, supplied: Json, retryAt: Option<Time>)
    requires c in s.incidents && c.task in s.tasks && Prepared(s, c).incidents == s.incidents
    requires RecoveryGuard(Prepared(s, c), Decide(c, decision, extra, supplied, retryAt))
    requires match s.incidents[c].workflow
             case None => s' == Settled(Prepared(s, c), c, decision, extra, supplied, retryAt)
             case Some(wf) => Advanced(Settled(Prepared(s, c), c, decision, extra, supplied, retryAt), s', wf)
    ensures Resolved(s, s', c, decision, extra, supplied, retryAt)
  {
    hide Settled, Advanced, Prepared;
  }

  // ---------------------------------------------------------------- pausing and resuming

  lemma OperatorHoldReaches(s: Db, wf: string, pause: bool)
    requires Inv(s) && wf in s.runs
    ensures var h := Hold(WorkflowScope(wf), ByOperator);
      var s' := s.(holds := if pause then s.holds + {h} else s.holds - {h}); Reaches(s, s') && Inv(s')
  {
    hide Inv, Reaches;
    ReachesSelf(s);
    ReachesStep(s, s, ByRecovery(if pause then Pause(wf) else Resume(wf)));
    ReachesInv(s, RecoveryApply(s, if pause then Pause(wf) else Resume(wf)));
  }

  /** `pause_workflow`: the run is PAUSED from here on, and nothing else moves. */
  method PauseWorkflow(db: Database, wf: string, operator: string, reason: string) returns (reply: Reply<Unit>)
    requires db.Valid()
    modifies db
    ensures reply.Ok? <==> !Blank(operator) && !Blank(reason) && wf in old(db.runs)
    ensures db.State() == if reply.Ok? then old(db.State()).(
              holds := old(db.holds) + {Hold(WorkflowScope(wf), ByOperator)},
              runs := old(db.runs)[wf := old(db.runs)[wf].(status := Paused)]) else old(db.State())
    ensures db.Valid() && Reaches(old(db.State()), db.State())
  {
    hide Inv, Reaches, PassedWith;
    ghost var s := db.State();
    ReachesSelf(s);
    if Blank(operator) || Blank(reason) { return Rejected(InvalidArgument); }
    if wf !in db.runs { return Rejected(UnknownWorkflow); }
    OperatorHoldReaches(s, wf, true);
    db.holds := db.holds + {Hold(WorkflowScope(wf), ByOperator)};
    ghost var m := db.State();
    assert Hold(WorkflowScope(wf), ByOperator) in m.holds;
    assert HeldWorkflow(m, wf);
    var advanced := WorkflowStore.AdvanceRun(db, wf);
    ReachesTransitive(s, m, db.State());
    return Ok(Unit);
  }

  /** `resume_workflow`: only the operator's own hold goes; the run advances if nothing else holds it. */
  method ResumeWorkflow(db: Database, wf: string, operator: string, reason: string) returns (reply: Reply<Unit>)
    requires db.Valid()
    modifies db
    ensures reply.Ok? <==> !Blank(operator) && !Blank(reason) && wf in old(db.runs)
    ensures if reply.Ok?
            then Advanced(old(db.State()).(holds := old(db.holds) - {Hold(WorkflowScope(wf), ByOperator)}), db.State(), wf)
            else db.State() == old(db.State())
    ensures db.Valid() && Reaches(old(db.State()), db.State())
  {
    hide Inv, Reaches, Advanced;
    ghost var s := db.State();
    ReachesSelf(s);
    if Blank(operator) || Blank(reason) { return Rejected(InvalidArgument); }
    if wf !in db.runs { return Rejected(UnknownWorkflow); }
    OperatorHoldReaches(s, wf, false);
    db.holds := db.holds - {Hold(WorkflowScope(wf), ByOperator)};
    ghost var m := db.State();
    var advanced := WorkflowStore.AdvanceRun(db, wf);
    ReachesTransitive(s, m, db.State());
    return Ok(Unit);
  }
}
