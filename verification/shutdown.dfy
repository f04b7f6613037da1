/** The end of a consumer: when the confirmation that follows its request to stop is accepted. The two are separate
    transactions, and any step of anyone else may come between them. */
module Shutdown {
  import opened Types
  import opened Protocol
  import opened Invariants
  import opened Reachable
  import opened WorkerSlot
  import History

  /** A step that marks the session as suspect. */
  predicate Suspects(move: Move, sid: SessionId) {
    move.Elsewhere? && move.action.ByRegistry? && move.action.registry.SuspectOverdue? && move.action.registry.sid == sid
  }

  /** A step that takes the suspicion away: it fences the session, or hears of it, or stops it. */
  predicate Clears(move: Move, sid: SessionId) {
    && move.Elsewhere? && move.action.ByRegistry?
    && match move.action.registry
       case Heartbeat(_, s, _) => s == sid
       case FenceSession(s) => s == sid
       case RequestStop(_, s) => s == sid
       case StopGracefully(_, s, _) => s == sid
       case _ => false
  }

  ghost predicate Cleared(moves: seq<Move>, k: nat, j: nat, sid: SessionId)
    requires j <= |moves|
  {
    exists m :: k < m < j && Clears(moves[m], sid)
  }

  /** Every suspicion between the request and the confirmation was cleared in time. */
  ghost predicate AllCleared(moves: seq<Move>, i: nat, j: nat, sid: SessionId)
    requires j <= |moves|
  {
    forall k | i < k < j && Suspects(moves[k], sid) :: Cleared(moves, k, j, sid)
  }

  /** How one step of the others moves the session between suspicion and the rest. */
  ghost predicate SuspicionMoves(a: Action, before: SessionRow, after: SessionRow, sid: SessionId) {
    after.state == Suspect <==> Suspects(Elsewhere(a), sid) || (before.state == Suspect && !Clears(Elsewhere(a), sid))
  }

  lemma SuspicionStep(s: Db, a: Action, sid: SessionId)
    requires Inv(s) && Guard(s, a) && sid in s.sessions
    ensures sid in Apply(s, a).sessions && SuspicionMoves(a, s.sessions[sid], Apply(s, a).sessions[sid], sid)
  {
    hide Inv, RegistryGuard, StoreGuard, RecoveryGuard, FlowGuard, RegistryApply, StoreApply, RecoveryApply, FlowApply;
    match a
    case ByRegistry(x) => SuspicionChange(s, x, sid);
    case ByStore(x) => History.StoreFrame(s, x);
    case ByRecovery(x) => History.RecoveryFrame(s, x);
    case ByWorkflow(x) => History.FlowFrame(s, x);
  }

  lemma SuspicionChange(s: Db, a: RegistryAction, sid: SessionId)
    requires RegistryGuard(s, a) && sid in s.sessions
    ensures sid in RegistryApply(s, a).sessions
    ensures SuspicionMoves(ByRegistry(a), s.sessions[sid], RegistryApply(s, a).sessions[sid], sid)
  {
    hide HasRunning, Deregister;
  }

  /** A stop was requested, or the session has lost its rights anyway. */
  predicate Condemned(row: SessionRow) { row.stopRequested || row.state in {Fenced, Stopped} }

  /** From the request to the confirmation: only others move; the session is suspect exactly if the last suspicion
      was not cleared, and it cannot be ACTIVE again. */
  ghost predicate Waiting(w: WorkerId, sid: SessionId, slots: seq<Slot>, moves: seq<Move>, i: nat, k: nat)
    requires i < k < |slots| && |slots| == |moves| + 1
  {
    && (forall m | i < m <= k :: slots[m].phase == Asked) && (forall m | i < m < k :: moves[m].Elsewhere?)
    && sid in slots[i].db.sessions && sid in slots[k].db.sessions
    && var row, row' := slots[i].db.sessions[sid], slots[k].db.sessions[sid];
       && row'.worker == w && Condemned(row') && row.timeout == row'.timeout && row.lastHeartbeat <= row'.lastHeartbeat
       && (row'.state == Suspect <==> !AllCleared(moves, i, k, sid))
  }

  lemma WaitingStarts(w: WorkerId, sid: SessionId, slots: seq<Slot>, moves: seq<Move>, i: nat)
    requires Trace(w, sid, slots, moves) && i < |moves| && Inv(slots[i].db)
    requires moves[i] == Ask && IsCurrent(slots[i].db, w, sid)
    ensures Waiting(w, sid, slots, moves, i, i + 1)
  {
    hide RowsOk, CallsOk, HoldsOk, FlowOk, BudgetsOk;
    assert Moves(w, sid, slots[i], moves[i], slots[i + 1]);
    assert SessionOk(slots[i].db.sessions[sid]);
  }

  lemma ClearedLater(moves: seq<Move>, i: nat, k: nat, sid: SessionId)
    requires i < k < |moves|
    ensures AllCleared(moves, i, k + 1, sid) <==>
              !Suspects(moves[k], sid) && (AllCleared(moves, i, k, sid) || Clears(moves[k], sid))
  {
    forall n | i < n < k ensures Cleared(moves, n, k + 1, sid) <==> Cleared(moves, n, k, sid) || Clears(moves[k], sid) {
      if Cleared(moves, n, k, sid) { var m :| n < m < k && Clears(moves[m], sid); assert n < m < k + 1; }
    }
    assert !Cleared(moves, k, k + 1, sid);
  }

  lemma WaitingGoesOn(w: WorkerId, sid: SessionId, slots: seq<Slot>, moves: seq<Move>, i: nat, k: nat)
    requires Trace(w, sid, slots, moves) && i < k < |moves| && Consistent(sid, slots[k])
    requires Waiting(w, sid, slots, moves, i, k) && moves[k].Elsewhere?
    ensures Waiting(w, sid, slots, moves, i, k + 1)
  {
    hide Inv, Guard, Apply, AllCleared;
    assert Moves(w, sid, slots[k], moves[k], slots[k + 1]);
    var s, a := slots[k].db, moves[k].action;
    History.SessionStep(s, a, sid);
    SuspicionStep(s, a, sid);
    ClearedLater(moves, i, k, sid);
  }

  lemma AskedMoves(w: WorkerId, sid: SessionId, x: Slot, move: Move, y: Slot)
    requires Moves(w, sid, x, move, y)
    ensures x.phase == Asked ==> y.phase.Gone? || (move.Elsewhere? && y.phase == Asked)
    ensures x.phase.Gone? ==> y.phase.Gone?
    ensures move == Confirm ==> x.phase == Asked
  {
    hide Guard, Apply;
  }

  lemma WaitingStep(w: WorkerId, sid: SessionId, slots: seq<Slot>, moves: seq<Move>, i: nat, k: nat)
    requires Trace(w, sid, slots, moves) && i < k < |moves| && Consistent(sid, slots[k])
    requires slots[k].phase.Gone? || Waiting(w, sid, slots, moves, i, k)
    ensures slots[k + 1].phase.Gone? || Waiting(w, sid, slots, moves, i, k + 1)
  {
    hide Moves, Waiting, Consistent;
    WaitingIsAsked(w, sid, slots, moves, i, k);
    AskedMoves(w, sid, slots[k], moves[k], slots[k + 1]);
    if !slots[k + 1].phase.Gone? { WaitingGoesOn(w, sid, slots, moves, i, k); }
  }

  /** Nothing but the confirmation ends the wait for it. */
  lemma {:induction false} WaitingLasts(w: WorkerId, sid: SessionId, slots: seq<Slot>, moves: seq<Move>, i: nat, k: nat)
    requires |slots| == |moves| + 1 && Trace(w, sid, slots, moves) && Consistent(sid, slots[0]) && i < k < |slots|
    requires moves[i] == Ask && IsCurrent(slots[i].db, w, sid)
    ensures slots[k].phase.Gone? || Waiting(w, sid, slots, moves, i, k)
    decreases k
  {
    hide Trace, Waiting, Inv, Consistent, IsCurrent, Drained, Reaches;
    SlotIsSafe(w, sid, slots, moves, k - 1);
    if k == i + 1 {
      ConsistentInv(sid, slots[i]);
      WaitingStarts(w, sid, slots, moves, i);
    } else {
      WaitingLasts(w, sid, slots, moves, i, k - 1);
      WaitingStep(w, sid, slots, moves, i, k - 1);
    }
  }

  lemma WaitingIsAsked(w: WorkerId, sid: SessionId, slots: seq<Slot>, moves: seq<Move>, i: nat, k: nat)
    requires i < k < |slots| && |slots| == |moves| + 1
    ensures Waiting(w, sid, slots, moves, i, k) ==> slots[k].phase == Asked
  {
  }

  /** A session that the registry no longer names has been stopped by someone else, with evidence. */
  lemma ReplacedIsStopped(s: Db, w: WorkerId, sid: SessionId)
    requires Inv(s) && sid in s.sessions && s.sessions[sid].worker == w && Condemned(s.sessions[sid])
    ensures !IsCurrent(s, w, sid) ==> s.sessions[sid].state == Stopped
    ensures s.sessions[sid].state == Stopped <==> s.sessions[sid].evidence.Some?
    ensures s.sessions[sid].state != ActiveSession
  {
    hide RowsOk, CallsOk, HoldsOk, FlowOk, BudgetsOk;
    assert SessionOk(s.sessions[sid]) && Named(sid, s.sessions, s.registry);
  }

  /** The confirmation is accepted exactly if the session is still the current one and every suspicion since the
      request was cleared. The session ends STOPPED, by the worker or by another, exactly if every suspicion was
      cleared; otherwise it stays SUSPECT and keeps its worker id. */
  lemma ConfirmedExactly(w: WorkerId, sid: SessionId, slots: seq<Slot>, moves: seq<Move>, i: nat, j: nat)
    requires Trace(w, sid, slots, moves) && Consistent(sid, slots[0]) && i < j < |moves|
    requires moves[i] == Ask && IsCurrent(slots[i].db, w, sid) && moves[j] == Confirm
    ensures slots[j + 1].phase == Gone(true) <==> IsCurrent(slots[j].db, w, sid) && AllCleared(moves, i, j, sid)
    ensures StoppedWithEvidence(slots[j + 1].db, sid) <==> AllCleared(moves, i, j, sid)
    ensures !AllCleared(moves, i, j, sid) ==>
              IsCurrent(slots[j + 1].db, w, sid) && slots[j + 1].db.sessions[sid].state == Suspect
  {
    hide Inv, AllCleared, Consistent, Moves, IsCurrent, StoppedWithEvidence, Condemned;
    SlotIsSafe(w, sid, slots, moves, j);
    WaitingLasts(w, sid, slots, moves, i, j);
    AskedMoves(w, sid, slots[j], moves[j], slots[j + 1]);
    ConsistentInv(sid, slots[j]);
    ReplacedIsStopped(slots[j].db, w, sid);
    Confirms(w, sid, slots[j], slots[j + 1]);
  }

  lemma Confirms(w: WorkerId, sid: SessionId, x: Slot, y: Slot)
    requires Moves(w, sid, x, Confirm, y) && sid in x.db.sessions
    requires var row := x.db.sessions[sid];
      row.state != ActiveSession && (row.state == Stopped <==> row.evidence.Some?) && (!IsCurrent(x.db, w, sid) ==> row.state == Stopped)
    ensures var suspect := x.db.sessions[sid].state == Suspect;
      && (y.phase == Gone(true) <==> IsCurrent(x.db, w, sid) && !suspect)
      && (StoppedWithEvidence(y.db, sid) <==> !suspect)
      && (suspect ==> y.db == x.db && IsCurrent(y.db, w, sid))
  {
    hide Deregister;
  }

  lemma ConsistentInv(sid: SessionId, x: Slot)
    requires Consistent(sid, x)
    ensures Inv(x.db)
  {
  }

  /** Enough for it, and known beforehand: no detection in between reads a clock beyond the heartbeat of the request
      and its timeout. */
  lemma NotOverdueIsEnough(w: WorkerId, sid: SessionId, slots: seq<Slot>, moves: seq<Move>, i: nat, j: nat)
    requires Trace(w, sid, slots, moves) && Consistent(sid, slots[0]) && i < j < |moves|
    requires moves[i] == Ask && IsCurrent(slots[i].db, w, sid) && moves[j] == Confirm
    requires forall k | i < k < j && Suspects(moves[k], sid) ::
               moves[k].action.registry.now <= slots[i].db.sessions[sid].lastHeartbeat + slots[i].db.sessions[sid].timeout
    ensures AllCleared(moves, i, j, sid)
  {
    hide Inv, Consistent, Waiting, Cleared, Moves;
    WaitingLasts(w, sid, slots, moves, i, j);
    AskedMoves(w, sid, slots[j], moves[j], slots[j + 1]);
    forall k | i < k < j ensures !Suspects(moves[k], sid) {
      WaitingLasts(w, sid, slots, moves, i, k);
      OnlyOthers(w, sid, slots, moves, i, j, k);
      SuspicionIsOverdue(w, sid, slots[k], moves[k], slots[k + 1]);
    }
  }

  lemma SuspicionIsOverdue(w: WorkerId, sid: SessionId, x: Slot, move: Move, y: Slot)
    requires Moves(w, sid, x, move, y)
    ensures Suspects(move, sid) ==>
      sid in x.db.sessions && x.db.sessions[sid].lastHeartbeat + x.db.sessions[sid].timeout < move.action.registry.now
  {
    hide Apply;
  }

  lemma OnlyOthers(w: WorkerId, sid: SessionId, slots: seq<Slot>, moves: seq<Move>, i: nat, j: nat, k: nat)
    requires i < k < j < |slots| && |slots| == |moves| + 1
    ensures Waiting(w, sid, slots, moves, i, j) ==> moves[k].Elsewhere? && slots[k].phase == Asked
    ensures Waiting(w, sid, slots, moves, i, k) ==>
      && sid in slots[i].db.sessions && sid in slots[k].db.sessions
      && slots[i].db.sessions[sid].timeout == slots[k].db.sessions[sid].timeout
      && slots[i].db.sessions[sid].lastHeartbeat <= slots[k].db.sessions[sid].lastHeartbeat
  {
  }

  /** The two transactions can be parted: a detection between them makes the confirmation fail, and the drained
      session stays SUSPECT. */
  lemma RefusedConfirmation(s: Db, w: WorkerId, sid: SessionId, now: Time) returns (slots: seq<Slot>, moves: seq<Move>)
    requires IsCurrent(s, w, sid) && s.sessions[sid].state in {ActiveSession, Suspect, Stopping}
    requires s.sessions[sid].lastHeartbeat + s.sessions[sid].timeout < now
    ensures Trace(w, sid, slots, moves) && slots[0] == Slot(s, Draining)
    ensures moves == [Ask, Elsewhere(ByRegistry(SuspectOverdue(sid, now))), Confirm]
    ensures slots[3].phase == Gone(false) && IsCurrent(slots[3].db, w, sid) && slots[3].db.sessions[sid].state == Suspect
  {
    var a := ByRegistry(SuspectOverdue(sid, now));
    var m := AfterRequest(s, w, sid);
    assert Guard(m, a);
    var m' := Apply(m, a);
    moves := [Ask, Elsewhere(a), Confirm];
    slots := [Slot(s, Draining), Slot(m, Asked), Slot(m', Asked), Slot(m', Gone(false))];
    assert Moves(w, sid, slots[0], moves[0], slots[1]);
    assert Moves(w, sid, slots[1], moves[1], slots[2]);
    assert Moves(w, sid, slots[2], moves[2], slots[3]);
  }

  /** Such a state is the one after a registration whose heartbeats stop. */
  lemma RefusedAfterRegistration(w: WorkerId, sid: SessionId, timeout: Time, host: string)
    returns (slots: seq<Slot>, moves: seq<Move>)
    requires 0 < timeout
    ensures Trace(w, sid, slots, moves) && Consistent(sid, slots[0]) && Reaches(EMPTY, slots[0].db) && slots[0].phase == Draining
    ensures |slots| == 4 && slots[3].phase == Gone(false)
    ensures sid in slots[3].db.sessions && slots[3].db.sessions[sid].state == Suspect && Drained(slots[3].db, sid)
  {
    hide Inv, Reaches, Trace;
    var a := ByRegistry(Register(w, sid, timeout, host, 0));
    assert Guard(EMPTY, a);
    ReachesSelf(EMPTY);
    ReachesStep(EMPTY, EMPTY, a);
    EmptyInv();
    StartsDrained(EMPTY, w, sid, timeout, host, 0);
    slots, moves := RefusedConfirmation(Apply(EMPTY, a), w, sid, timeout + 1);
    SlotIsSafe(w, sid, slots, moves, 3);
  }
}
