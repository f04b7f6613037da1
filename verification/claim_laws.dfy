/** When a task may be started, told from the tables: what waits, what is too early, and what its budget allows. */
module ClaimLaws {
  import opened Types
  import opened RowLaws
  import opened Protocol
  import opened Invariants
  import opened TokenLaws
  import Usage

  /** The task waits for its first attempt or for a retry, its gate is open, and no hold is on it or its workflow. */
  predicate Waits(s: Db, t: TaskId) {
    && t in s.tasks && (s.tasks[t].status == Pending || s.tasks[t].status == Retrying) && !s.tasks[t].blocked
    && (forall h | h in s.holds :: h.scope != TaskScope(t))
    && (t in s.nodes && t.NodeTask? ==> forall h | h in s.holds :: h.scope != WorkflowScope(t.workflow))
  }

  /** The time set for the retry is still to come, or the scheduled time of a task that was never started. */
  predicate TooEarly(r: TaskRow, now: Time) {
    || (r.retryAt.Some? && now < r.retryAt.value)
    || (r.status == Pending && r.def.scheduledAt.Some? && now < r.def.scheduledAt.value)
  }

  ghost predicate Affordable(s: Db, t: TaskId) { Budgeted(s, t) ==> MayCall(s, t.workflow) }

  ghost predicate Unaffordable(s: Db, t: TaskId) { Budgeted(s, t) && UsedUp(s, t.workflow) }

  /** The session that the registry names for its worker, ACTIVE and with a heartbeat that is not too old. */
  predicate InCharge(s: Db, sid: SessionId, now: Time) {
    && sid in s.sessions && s.sessions[sid].state == ActiveSession && now <= s.sessions[sid].lastHeartbeat + s.sessions[sid].timeout
    && s.sessions[sid].worker in s.registry && s.registry[s.sessions[sid].worker].session == sid
  }

  predicate MayStart(s: Db, registry: set<string>, now: Time, t: TaskId) {
    Waits(s, t) && !TooEarly(s.tasks[t], now) && s.tasks[t].def.handler in registry
  }

  lemma EligibleExactly(s: Db, t: TaskId, now: Time)
    ensures Eligible(s, t, now) <==> Waits(s, t) && !TooEarly(s.tasks[t], now)
  {
  }

  lemma AdmittedExactly(s: Db, t: TaskId)
    requires Inv(s)
    ensures Protocol.Admission(s, t) == Usage.Admitted <==> Affordable(s, t)
    ensures Protocol.Admission(s, t) == Usage.Refused <==> Unaffordable(s, t)
  {
    hide Inv, MayCall, UsedUp;
    if Budgeted(s, t) { AdmissionExactly(s, t.workflow, t.node); }
  }

  lemma InChargeExactly(s: Db, sid: SessionId, now: Time)
    ensures Claimable(s, sid, now) <==> InCharge(s, sid, now)
  {
  }

  // ---------------------------------------------------------------- the choice

  /** Higher priority first; among equals the smaller sequence number. */
  predicate Precedes(r: TaskRow, q: TaskRow) {
    q.def.priority < r.def.priority || (q.def.priority == r.def.priority && r.sequence < q.sequence)
  }

  /** The claim takes the first task that is ready and affordable, and there is none exactly if every affordable
      waiting task is too early. On the way the unaffordable tasks that come before it fail; no other row changes. */
  ghost predicate TakesFirst(s: Db, s': Db, registry: set<string>, now: Time, owner: string, session: SessionId,
                             claimed: Option<TaskId>)
  {
    && s'.tasks.Keys == s.tasks.Keys
    && (claimed.None? ==>
          forall t | t in s.tasks && Waits(s, t) && s.tasks[t].def.handler in registry && Affordable(s, t) :: TooEarly(s.tasks[t], now))
    && (claimed.Some? ==>
          var t := claimed.value;
          && MayStart(s, registry, now, t) && Affordable(s, t) && StartedTo(s.tasks[t], s'.tasks[t], owner, Some(session))
          && forall u | u in s.tasks && u != t && MayStart(s, registry, now, u) && Affordable(s, u) :: Precedes(s.tasks[t], s.tasks[u]))
    && (forall u | u in s.tasks && claimed != Some(u) ::
          if MayStart(s, registry, now, u) && Unaffordable(s, u) && (claimed.Some? ==> Precedes(s.tasks[u], s.tasks[claimed.value]))
          then RefusedTo(s.tasks[u], s'.tasks[u]) else s'.tasks[u] == s.tasks[u])
  }
}
