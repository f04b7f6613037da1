/** Incidents, holds and the scans of the coordinator (`recovery.py`). */
module Incidents {
  import opened Types
  import opened Protocol
  import opened Invariants
  import opened Reachable
  import opened Tables
  import opened TaskStore
  import opened RowRecovery

  function CurrentCase(r: TaskRow, t: TaskId): Case { Case(t, r.attempts) }

  /** An operator's decision is left alone; any other incident of the attempt is opened, or opened again. */
  function Raised(s: Db, t: TaskId, kind: IncidentKind, reason: Reason): Db
    requires t in s.tasks
  {
    if DecidedByOperator(s, CurrentCase(s.tasks[t], t)) then s else Opened(s, t, kind, reason)
  }

  /** The incident is open with this kind and reason; it remembers the session, the host and the workflow of its first
      opening. */
  ghost predicate Describes(s: Db, x: Incident, t: TaskId, kind: IncidentKind, reason: Reason)
    requires t in s.tasks
  {
    var r, c := s.tasks[t], Case(t, s.tasks[t].attempts);
    && x.kind == kind && x.reason == reason && x.resolution == None
    && (c in s.incidents ==> x.session == s.incidents[c].session && x.host == s.incidents[c].host && x.workflow == s.incidents[c].workflow)
    && (c !in s.incidents ==>
          && x.session == r.session && x.workflow == (if t in s.nodes && t.NodeTask? then Some(t.workflow) else None)
          && x.host == (if r.session.Some? && r.session.value in s.sessions then Some(s.sessions[r.session.value].host) else None))
  }

  /** An attempt that an operator decided stays decided. Any other has an open incident, which holds the task and, if
      there is one, its workflow. */
  ghost predicate OpensCase(s: Db, s': Db, t: TaskId, kind: IncidentKind, reason: Reason)
    requires t in s.tasks
  {
    var c := Case(t, s.tasks[t].attempts);
    if c in s.incidents && s.incidents[c].resolution.Some? && s.incidents[c].resolution.value.Decided? then s' == s
    else
      && s' == s.(incidents := s'.incidents, holds := s'.holds)
      && c in s'.incidents && s'.incidents == s.incidents[c := s'.incidents[c]] && Describes(s, s'.incidents[c], t, kind, reason)
      && forall h :: h in s'.holds <==>
           || h in s.holds
           || h == Hold(TaskScope(t), ByIncident(c))
           || (t in s.nodes && t.NodeTask? && h == Hold(WorkflowScope(t.workflow), ByIncident(c)))
  }

  lemma DescribedExactly(s: Db, t: TaskId, kind: IncidentKind, reason: Reason)
    requires t in s.tasks
    ensures var s', c := Opened(s, t, kind, reason), Case(t, s.tasks[t].attempts);
      c in s'.incidents && s'.incidents == s.incidents[c := s'.incidents[c]] && Describes(s, s'.incidents[c], t, kind, reason)
  {
  }

  lemma RaisedExactly(s: Db, t: TaskId, kind: IncidentKind, reason: Reason)
    requires t in s.tasks
    ensures OpensCase(s, Raised(s, t, kind, reason), t, kind, reason)
  {
    DescribedExactly(s, t, kind, reason);
    OpenedHolds(s, t, kind, reason);
    hide Opened, Describes;
  }

  /** `_incident`. */
  method Raise(db: Database, t: TaskId, kind: IncidentKind, reason: Reason)
    requires t in db.tasks
    modifies db
    ensures db.State() == Raised(old(db.State()), t, kind, reason)
    ensures t in old(db.tasks) && OpensCase(old(db.State()), db.State(), t, kind, reason)
  {
    RaisedExactly(db.State(), t, kind, reason);
    hide Opened, OpensCase;
    var r := db.tasks[t];
    var c := Case(t, r.attempts);
    OpenedHolds(db.State(), t, kind, reason);
    if c in db.incidents && db.incidents[c].resolution.Some? && db.incidents[c].resolution.value.Decided? { return; }
    var workflow := if t in db.nodes && t.NodeTask? then Some(t.workflow) else None;
    WriteIncident(db, t, r, workflow, kind, reason);
    AddHolds(db, t, c, workflow);
  }

  lemma OpenedHolds(s: Db, t: TaskId, kind: IncidentKind, reason: Reason)
    requires t in s.tasks
    ensures var s', c, wf := Opened(s, t, kind, reason), Case(t, s.tasks[t].attempts), IncidentWorkflow(s, t);
      && s' == s.(incidents := s'.incidents, holds := s'.holds)
      && s'.holds == s.holds + {Hold(TaskScope(t), ByIncident(c))}
                             + (if wf.Some? then {Hold(WorkflowScope(wf.value), ByIncident(c))} else {})
  {
  }

  method WriteIncident(db: Database, t: TaskId, r: TaskRow, workflow: Option<string>, kind: IncidentKind,
                       reason: Reason)
    requires t in db.tasks && db.tasks[t] == r && workflow == IncidentWorkflow(db.State(), t)
    modifies db`incidents
    ensures db.incidents == Opened(old(db.State()), t, kind, reason).incidents
  {
    var c := Case(t, r.attempts);
    if c in db.incidents {
      db.incidents := db.incidents[c := db.incidents[c].(kind := kind, reason := reason, resolution := None)];
    } else {
      var host := if r.session.Some? && r.session.value in db.sessions then Some(db.sessions[r.session.value].host) else None;
      db.incidents := db.incidents[c := Incident(kind, r.session, workflow, host, reason, None)];
    }
  }

  method AddHolds(db: Database, t: TaskId, c: Case, workflow: Option<string>)
    modifies db`holds
    ensures db.holds == old(db.holds) + {Hold(TaskScope(t), ByIncident(c))}
                      + (if workflow.Some? then {Hold(WorkflowScope(workflow.value), ByIncident(c))} else {})
  {
    db.holds := db.holds + {Hold(TaskScope(t), ByIncident(c))};
    if workflow.Some? { db.holds := db.holds + {Hold(WorkflowScope(workflow.value), ByIncident(c))}; }
  }

  /** The incident has this resolution and none of its holds is left. */
  ghost predicate ClosesCase(s: Db, s': Db, c: Case, resolution: Resolution) {
    && s' == s.(incidents := s'.incidents, holds := s'.holds)
    && c in s.incidents && s'.incidents == s.incidents[c := s.incidents[c].(resolution := Some(resolution))]
    && forall h :: h in s'.holds <==> h in s.holds && h.source != ByIncident(c)
  }

  /** `_close`. */
  method Close(db: Database, c: Case, resolution: Resolution)
    requires c in db.incidents
    modifies db
    ensures c in old(db.incidents) && db.State() == Closed(old(db.State()), c, resolution)
    ensures ClosesCase(old(db.State()), db.State(), c, resolution)
  {
    db.incidents := db.incidents[c := db.incidents[c].(resolution := Some(resolution))];
    db.holds := set h | h in db.holds && h.source != ByIncident(c);
  }

  lemma RaisedReaches(s: Db, t: TaskId, kind: IncidentKind, reason: Reason)
    requires Inv(s) && t in s.tasks && Raisable(s, t, kind, reason)
    ensures Reaches(s, Raised(s, t, kind, reason)) && Inv(Raised(s, t, kind, reason))
  {
    hide Inv, Reaches, Opened;
    ReachesSelf(s);
    if !DecidedByOperator(s, Case(t, s.tasks[t].attempts)) { ReachesStep(s, s, ByRecovery(OpenIncident(t, kind, reason))); }
    ReachesInv(s, Raised(s, t, kind, reason));
  }

  lemma ClosedReaches(s: Db, c: Case, resolution: Resolution)
    requires Inv(s) && c in s.incidents && s.incidents[c].Open() && Closable(s, c, resolution)
    ensures Reaches(s, Closed(s, c, resolution)) && Inv(Closed(s, c, resolution))
  {
    hide Inv, Reaches, Closed;
    ReachesSelf(s);
    ReachesStep(s, s, ByRecovery(CloseIncident(c, resolution)));
    ReachesInv(s, Closed(s, c, resolution));
  }

  // ---------------------------------------------------------------- recovering one row

  const STOPPED_PENDING := Because("old execution stopped; recovery pending")
  const OFFLINE_CONFIRMED := Because("offline supervisor confirmed invocation exit")
  const NEEDS_CONFIRMATION := Because("trusted confirmation of old invocation exit required")
  const UNCERTAIN_OUTCOME := Because("interrupted outcome uncertain or retry budget exhausted")
  const TASK_FAILED := Because("task failed")

  /** `_recover`: a row that cannot be decoded is left RUNNING under a RECOVERY_ERROR; one that is not
      retried waits for the operator. */
  ghost function RecoveredOne(s: Db, engine: Engine, t: TaskId, now: Time, delay: nat, sequence: nat): Db
    requires t in s.tasks && s.tasks[t].status == Running
  {
    if s.tasks[t].def.handler !in engine.registry then Raised(s, t, RecoveryError, Undecodable(s.tasks[t].def.handler))
    else
      var s' := Recovered(s, engine, t, now, delay, sequence);
      if t in s'.tasks && s'.tasks[t].status != Retrying then Raised(s', t, TaskFailure, UNCERTAIN_OUTCOME) else s'
  }

  method RecoverOne(db: Database, engine: Engine, t: TaskId, now: Time, delay: nat) returns (ok: bool)
    requires db.Valid() && t in db.tasks && db.tasks[t].status == Running
    requires SafeToTake(db.State(), t) && StopProven(db.State(), t)
    modifies db
    ensures ok <==> old(db.tasks[t].def.handler) in engine.registry
    ensures t in db.tasks && (ok ==> IsNext(old(db.tasks), db.tasks[t].sequence))
    ensures db.State() == RecoveredOne(old(db.State()), engine, t, now, delay, db.tasks[t].sequence)
    ensures db.Valid() && Reaches(old(db.State()), db.State())
  {
    hide Inv, Reaches, IsNext, SafeToTake, Recovered, Raised;
    ghost var s := db.State();
    var done := RecoverRow(db, engine, t, now, delay);
    ghost var m := db.State();
    ok := done.Ok?;
    if done.Rejected? {
      RaisedReaches(m, t, RecoveryError, Undecodable(db.tasks[t].def.handler));
      RaisedKeepsTasks(m, t, RecoveryError, Undecodable(db.tasks[t].def.handler));
      Raise(db, t, RecoveryError, Undecodable(db.tasks[t].def.handler));
    } else if db.tasks[t].status != Retrying {
      RaisedReaches(m, t, TaskFailure, UNCERTAIN_OUTCOME);
      RaisedKeepsTasks(m, t, TaskFailure, UNCERTAIN_OUTCOME);
      Raise(db, t, TaskFailure, UNCERTAIN_OUTCOME);
      ReachesTransitive(s, m, db.State());
    }
  }

  /** Raising touches one case, which is open or decided afterwards. */
  lemma RaisedKeepsTasks(s: Db, t: TaskId, kind: IncidentKind, reason: Reason)
    requires t in s.tasks
    ensures var s', c := Raised(s, t, kind, reason), CurrentCase(s.tasks[t], t);
      && s' == s.(incidents := s'.incidents, holds := s'.holds)
      && OnlyCase(s.incidents, s'.incidents, c)
      && (DecidedByOperator(s', c) || IsOpen(s', c))
  {
    var c := CurrentCase(s.tasks[t], t);
    if !DecidedByOperator(s, c) {
      OpenedShape(s, t, kind, reason);
      hide Opened;
    }
  }

  lemma OpenedShape(s: Db, t: TaskId, kind: IncidentKind, reason: Reason)
    requires t in s.tasks
    ensures var s', c := Opened(s, t, kind, reason), CurrentCase(s.tasks[t], t);
      && s' == s.(incidents := s'.incidents, holds := s'.holds)
      && c in s'.incidents && s'.incidents == s.incidents[c := s'.incidents[c]]
      && s'.incidents[c].resolution == None && s'.incidents[c].kind == kind && s'.incidents[c].reason == reason
  {
  }

  ghost predicate OnlyCase(incidents: map<Case, Incident>, incidents': map<Case, Incident>, c: Case) {
    forall d | d != c :: (d in incidents' <==> d in incidents) && (d in incidents ==> incidents'[d] == incidents[d])
  }

  ghost predicate IsOpen(s: Db, c: Case) { c in s.incidents && s.incidents[c].Open() }
}
