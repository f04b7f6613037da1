/** Worker sessions: registration, heartbeats and the phases of stopping (`worker_registry.py`). */
module WorkerRegistry {
  import opened Types
  import opened Protocol
  import opened Invariants
  import opened Reachable
  import opened Tables

  /** A session that is let through `_session`: the registry still names it. */
  method CurrentSession(db: Database, w: WorkerId, sid: SessionId) returns (found: Option<SessionRow>)
    ensures found.Some? <==> IsCurrent(db.State(), w, sid)
    ensures found.Some? ==> found.value == db.sessions[sid]
  {
    found := None;
    if sid in db.sessions && db.sessions[sid].worker == w && w in db.registry && db.registry[w].session == sid {
      found := Some(db.sessions[sid]);
    }
  }

  /** `session` is the fresh identifier drawn for the new session. */
  method Register(db: Database, w: WorkerId, session: SessionId, timeout: Time, host: string, now: Time)
    returns (reply: Reply<RegistryRow>)
    requires session !in db.sessions
    modifies db
    ensures var a := RegistryAction.Register(w, session, timeout, host, now);
      && (reply.Ok? <==> !Blank(w) && !Blank(host) && RegistryGuard(old(db.State()), a))
      && (reply == Rejected(WorkerAlreadyActive) <==>
            !Blank(w) && !Blank(host) && 0 < timeout && old(w in db.registry && db.registry[w].active))
      && db.State() == (if reply.Ok? then RegistryApply(old(db.State()), a) else old(db.State()))
    ensures reply.Ok? ==> reply.value == RegistryRow(session, true, now)
    ensures reply.Ok? <==> !Blank(w) && !Blank(host) && 0 < timeout && !old(w in db.registry && db.registry[w].active)
    ensures reply.Ok? ==>
      && db.sessions == old(db.sessions)[session := SessionRow(w, ActiveSession, now, timeout, None, false, host)]
      && db.registry == old(db.registry)[w := RegistryRow(session, true, now)]
  {
    if Blank(w) || Blank(host) || timeout <= 0 { return Rejected(InvalidArgument); }
    if w in db.registry && db.registry[w].active { return Rejected(WorkerAlreadyActive); }
    db.registry := db.registry[w := RegistryRow(session, true, now)];
    db.sessions := db.sessions[session := SessionRow(w, ActiveSession, now, timeout, None, false, host)];
    return Ok(db.registry[w]);
  }

  /** The session after its heartbeat was heard: its time never goes back, and it is ACTIVE unless it was asked to
      stop. */
  predicate Heard(row: SessionRow, row': SessionRow, now: Time) {
    && now <= row'.lastHeartbeat && row.lastHeartbeat <= row'.lastHeartbeat
    && (row'.lastHeartbeat == now || row'.lastHeartbeat == row.lastHeartbeat)
    && row'.state == (if row.stopRequested then Stopping else ActiveSession)
    && row' == row.(lastHeartbeat := row'.lastHeartbeat, state := row'.state)
  }

  predicate HeardOf(row: RegistryRow, row': RegistryRow, now: Time) {
    && now <= row'.lastHeartbeat && row.lastHeartbeat <= row'.lastHeartbeat
    && (row'.lastHeartbeat == now || row'.lastHeartbeat == row.lastHeartbeat)
    && row'.session == row.session
  }

  method Heartbeat(db: Database, w: WorkerId, sid: SessionId, now: Time) returns (reply: Reply<RegistryRow>)
    modifies db
    ensures var a := RegistryAction.Heartbeat(w, sid, now);
      && (reply.Ok? <==> !Blank(w) && !Blank(sid) && RegistryGuard(old(db.State()), a))
      && db.State() == (if reply.Ok? then RegistryApply(old(db.State()), a) else old(db.State()))
    ensures !reply.Ok? ==> reply == Rejected(if Blank(w) || Blank(sid) then InvalidArgument else SessionMismatch)
    ensures reply.Ok? <==>
              && !Blank(w) && !Blank(sid)
              && old(IsCurrent(db.State(), w, sid) && db.registry[w].active
                     && db.sessions[sid].state != Fenced && db.sessions[sid].state != Stopped)
    ensures reply.Ok? ==>
      && sid in old(db.sessions) && w in old(db.registry) && reply.value.active
      && Heard(old(db.sessions)[sid], db.sessions[sid], now) && db.sessions == old(db.sessions)[sid := db.sessions[sid]]
      && HeardOf(old(db.registry)[w], reply.value, now) && db.registry == old(db.registry)[w := reply.value]
  {
    if Blank(w) || Blank(sid) { return Rejected(InvalidArgument); }
    var session := CurrentSession(db, w, sid);
    if session.None? || !(session.value.state in {ActiveSession, Suspect, Stopping}) { return Rejected(SessionMismatch); }
    if !db.registry[w].active { return Rejected(SessionMismatch); }
    db.registry := db.registry[w := db.registry[w].(lastHeartbeat := Max(db.registry[w].lastHeartbeat, now))];
    var state := if session.value.stopRequested then Stopping else ActiveSession;
    db.sessions := db.sessions[sid := session.value.(lastHeartbeat := Max(session.value.lastHeartbeat, now), state := state)];
    return Ok(db.registry[w]);
  }

  /** `_has_running`. */
  method OwnsRunningTask(db: Database, sid: SessionId) returns (found: bool)
    ensures found <==> HasRunning(db.State(), sid)
  {
    found := exists t | t in db.tasks :: db.tasks[t].status == Running && db.tasks[t].session == Some(sid);
  }

  /** Stopping gracefully needs no evidence: it is refused while a row of the session is RUNNING. */
  method Stop(db: Database, w: WorkerId, sid: SessionId, now: Time) returns (reply: Reply<RegistryRow>)
    modifies db
    ensures var a := StopGracefully(w, sid, now);
      && (reply.Ok? <==> !Blank(w) && !Blank(sid) && RegistryGuard(old(db.State()), a))
      && db.State() == (if reply.Ok? then RegistryApply(old(db.State()), a) else old(db.State()))
    ensures reply == Rejected(RegistryError) <==>
              && !Blank(w) && !Blank(sid)
              && old(IsCurrent(db.State(), w, sid) && (db.sessions[sid].state == Fenced || HasRunning(db.State(), sid)))
    ensures reply.Ok? <==>
              && !Blank(w) && !Blank(sid) && old(IsCurrent(db.State(), w, sid) && db.registry[w].active && db.sessions[sid].state != Fenced)
              && forall t | t in old(db.tasks) && old(db.tasks)[t].session == Some(sid) :: old(db.tasks)[t].status != Running
    ensures reply.Ok? ==>
      && sid in old(db.sessions) && w in old(db.registry) && db.tasks == old(db.tasks)
      && db.sessions == old(db.sessions)[sid := old(db.sessions)[sid].(state := Stopped, evidence := Some("graceful stop"))]
      && HeardOf(old(db.registry)[w], reply.value, now) && !reply.value.active && db.registry == old(db.registry)[w := reply.value]
  {
    if Blank(w) || Blank(sid) { return Rejected(InvalidArgument); }
    var session := CurrentSession(db, w, sid);
    if session.None? { return Rejected(SessionMismatch); }
    var running := OwnsRunningTask(db, sid);
    if session.value.state == Fenced || running { return Rejected(RegistryError); }
    if !db.registry[w].active { return Rejected(SessionMismatch); }
    db.registry := db.registry[w := db.registry[w].(active := false, lastHeartbeat := Max(db.registry[w].lastHeartbeat, now))];
    db.sessions := db.sessions[sid := session.value.(state := Stopped, evidence := Some("graceful stop"))];
    return Ok(db.registry[w]);
  }

  /** A session that may claim again when its heartbeat is heard. */
  predicate NotReady(s: Db, sid: SessionId, now: Time) {
    && sid in s.sessions && IsCurrent(s, s.sessions[sid].worker, sid)
    && (s.sessions[sid].state == Suspect ||
        (s.sessions[sid].state == ActiveSession && now - s.sessions[sid].lastHeartbeat > s.sessions[sid].timeout))
  }

  /** The session may claim work, or the reason why not. */
  method RequireClaimable(db: Database, sid: SessionId, now: Time) returns (reply: Reply<Unit>)
    ensures reply.Ok? <==> Claimable(db.State(), sid, now)
    ensures reply == Rejected(StopRequested) <==>
              && sid in db.sessions && IsCurrent(db.State(), db.sessions[sid].worker, sid)
              && db.sessions[sid].state == Stopping && db.sessions[sid].stopRequested
    ensures reply == Rejected(WorkerNotReady) <==> NotReady(db.State(), sid, now)
    ensures reply == Rejected(WorkerNotReady) <==>
              && sid in db.sessions && IsCurrent(db.State(), db.sessions[sid].worker, sid)
              && (db.sessions[sid].state == Suspect || (db.sessions[sid].state == ActiveSession && Silent(db.sessions[sid], now)))
    ensures reply.Ok? <==>
              && sid in db.sessions && IsCurrent(db.State(), db.sessions[sid].worker, sid)
              && db.sessions[sid].state == ActiveSession && !Silent(db.sessions[sid], now)
  {
    if sid !in db.sessions { return Rejected(SessionMismatch); }
    var row := db.sessions[sid];
    var session := CurrentSession(db, row.worker, sid);
    if session.None? { return Rejected(SessionMismatch); }
    if row.state == Suspect || (row.state == ActiveSession && now - row.lastHeartbeat > row.timeout) {
      return Rejected(WorkerNotReady);
    }
    if row.state == Stopping && row.stopRequested { return Rejected(StopRequested); }
    if row.state != ActiveSession { return Rejected(SessionMismatch); }
    return Ok(Unit);
  }

  /** The last heartbeat is longer ago than the session's timeout. */
  predicate Silent(row: SessionRow, now: Time) { row.timeout < now - row.lastHeartbeat }

  /** The sessions that are silent while they should not be are suspect now; all others are as they were. */
  predicate SilentAreSuspect(sessions: map<SessionId, SessionRow>, sessions': map<SessionId, SessionRow>, now: Time) {
    forall sid | sid in sessions :: sid in sessions' &&
      var row := sessions[sid];
      sessions'[sid] == if Silent(row, now) && (row.state == ActiveSession || row.state == Stopping) then row.(state := Suspect) else row
  }

  predicate Overdue(row: SessionRow, now: Time) {
    row.state in {ActiveSession, Stopping} && row.lastHeartbeat + row.timeout < now
  }

  function Suspected(row: SessionRow, now: Time): SessionRow {
    if Overdue(row, now) then row.(state := Suspect) else row
  }

  lemma SuspectReached(before: Db, s: Db, sid: SessionId, now: Time)
    requires Reaches(before, s) && sid in s.sessions && Overdue(s.sessions[sid], now)
    ensures Reaches(before, s.(sessions := s.sessions[sid := s.sessions[sid].(state := Suspect)]))
  {
    hide Reaches;
    ReachesStep(before, s, ByRegistry(SuspectOverdue(sid, now)));
  }

  lemma SuspectsExactly(sessions: map<SessionId, SessionRow>, now: Time)
    ensures SilentAreSuspect(sessions, map sid | sid in sessions :: Suspected(sessions[sid], now), now)
  {
  }

  /** Phase 1: suspicion only. It marks exactly the overdue sessions and touches nothing else. */
  method DetectOverdue(db: Database, now: Time) returns (overdue: set<SessionId>)
    modifies db
    ensures db.State() == old(db.State()).(sessions := db.sessions)
    ensures db.sessions == map sid | sid in old(db.sessions) :: Suspected(old(db.sessions)[sid], now)
    ensures overdue == set sid | sid in old(db.sessions) && Overdue(old(db.sessions)[sid], now)
    ensures SilentAreSuspect(old(db.sessions), db.sessions, now)
    ensures Reaches(old(db.State()), db.State())
  {
    hide Reaches, Overdue, SilentAreSuspect;
    overdue := set sid | sid in db.sessions && Overdue(db.sessions[sid], now);
    var todo := overdue;
    ghost var before := db.sessions;
    SuspectsExactly(before, now);
    ReachesSelf(db.State());
    while todo != {}
      invariant todo <= overdue && db.State() == old(db.State()).(sessions := db.sessions)
      invariant db.sessions.Keys == before.Keys
      invariant forall sid | sid in before ::
        db.sessions[sid] == if sid in overdue && sid !in todo then before[sid].(state := Suspect) else before[sid]
      invariant Reaches(old(db.State()), db.State())
    {
      var sid :| sid in todo;
      SuspectReached(old(db.State()), db.State(), sid, now);
      db.sessions := db.sessions[sid := db.sessions[sid].(state := Suspect)];
      todo := todo - {sid};
    }
  }

  /** Phase 2: only a suspect can be fenced; fencing twice changes nothing. */
  method Fence(db: Database, w: WorkerId, sid: SessionId) returns (reply: Reply<SessionRow>)
    modifies db
    ensures reply.Ok? <==> old(IsCurrent(db.State(), w, sid) && db.sessions[sid].state in {Suspect, Fenced})
    ensures db.State() == if reply.Ok? && old(db.sessions[sid].state == Suspect)
                          then RegistryApply(old(db.State()), FenceSession(sid)) else old(db.State())
    ensures reply.Ok? ==> sid in db.sessions && reply.value == db.sessions[sid] && reply.value.state == Fenced
    ensures reply.Ok? ==> sid in old(db.sessions) && db.sessions == old(db.sessions)[sid := old(db.sessions)[sid].(state := Fenced)]
    ensures db.registry == old(db.registry)
  {
    var session := CurrentSession(db, w, sid);
    if session.None? { return Rejected(SessionMismatch); }
    if !(session.value.state in {Suspect, Fenced}) { return Rejected(RegistryError); }
    if session.value.state != Fenced {
      db.sessions := db.sessions[sid := session.value.(state := Fenced)];
    }
    return Ok(db.sessions[sid]);
  }

  /** New claims stop; the current attempt may still commit. */
  method RequestStop(db: Database, w: WorkerId, sid: SessionId) returns (reply: Reply<Unit>)
    modifies db
    ensures reply.Ok? <==> old(IsCurrent(db.State(), w, sid))
    ensures db.State() == if RegistryGuard(old(db.State()), RegistryAction.RequestStop(w, sid))
                          then RegistryApply(old(db.State()), RegistryAction.RequestStop(w, sid)) else old(db.State())
    ensures reply.Ok? ==>
      && sid in old(db.sessions)
      && db.sessions == (if old(db.sessions)[sid].state == ActiveSession || old(db.sessions)[sid].state == Suspect
                         then old(db.sessions)[sid := old(db.sessions)[sid].(state := Stopping, stopRequested := true)]
                         else old(db.sessions))
  {
    var session := CurrentSession(db, w, sid);
    if session.None? { return Rejected(SessionMismatch); }
    if session.value.state in {ActiveSession, Suspect} {
      db.sessions := db.sessions[sid := session.value.(state := Stopping, stopRequested := true)];
    }
    return Ok(Unit);
  }

  /** Only the row of the session's own worker can name it. */
  lemma OneNameIsEnough(sessions: map<SessionId, SessionRow>, registry: map<WorkerId, RegistryRow>, w: WorkerId,
                        sid: SessionId)
    requires SessionsOk(sessions, registry) && sid in sessions && sessions[sid].worker == w
    requires w in registry && registry[w].session == sid
    ensures Deregister(registry, sid) == registry[w := registry[w].(active := false)]
  {
    forall v | v in registry ensures registry[v].session == sid ==> v == w { assert Listed(v, sessions, registry); }
  }

  /** The states from which the end of all calls can be confirmed. */
  predicate Confirmable(s: Db, sid: SessionId) {
    sid in s.sessions && s.sessions[sid].state in {Fenced, Stopping, Stopped}
  }

  /** What a confirmation writes, whether or not it is true. */
  function Confirmed(s: Db, sid: SessionId, proof: string): Db
    requires Confirmable(s, sid)
  {
    if s.sessions[sid].state == Stopped then s
    else SetSession(s, sid, s.sessions[sid].(state := Stopped, evidence := Some(proof))).(registry := Deregister(s.registry, sid))
  }

  /** Phase 3. The caller vouches that every call of the session has ended. */
  method ConfirmStopped(db: Database, w: WorkerId, sid: SessionId, proof: string) returns (reply: Reply<SessionRow>)
    requires SessionsOk(db.sessions, db.registry) && Drained(db.State(), sid)
    modifies db
    ensures reply.Ok? <==> !Blank(proof) && old(IsCurrent(db.State(), w, sid) && Confirmable(db.State(), sid))
    ensures db.State() == if reply.Ok? && old(db.sessions[sid].state != Stopped)
                          then RegistryApply(old(db.State()), RegistryAction.ConfirmStopped(sid, proof)) else old(db.State())
    ensures reply.Ok? ==> sid in db.sessions && reply.value == db.sessions[sid] && reply.value.state == Stopped
    ensures reply.Ok? <==>
              && !Blank(proof) && old(IsCurrent(db.State(), w, sid))
              && old(db.sessions)[sid].state != ActiveSession && old(db.sessions)[sid].state != Suspect
    ensures reply.Ok? && old(db.sessions[sid].state != Stopped) ==>
      && sid in old(db.sessions) && w in old(db.registry)
      && db.sessions == old(db.sessions)[sid := old(db.sessions)[sid].(state := Stopped, evidence := Some(proof))]
      && db.registry == old(db.registry)[w := old(db.registry)[w].(active := false)]
  {
    hide SessionsOk, Deregister;
    if Blank(proof) { return Rejected(InvalidArgument); }
    var session := CurrentSession(db, w, sid);
    if session.None? { return Rejected(SessionMismatch); }
    if !(session.value.state in {Fenced, Stopping, Stopped}) { return Rejected(RegistryError); }
    if session.value.state != Stopped {
      OneNameIsEnough(db.sessions, db.registry, w, sid);
      db.sessions := db.sessions[sid := session.value.(state := Stopped, evidence := Some(proof))];
      db.registry := db.registry[w := db.registry[w].(active := false)];
    }
    return Ok(db.sessions[sid]);
  }
}
