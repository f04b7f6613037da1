/** The transactions of one execution slot (`reliable_worker.py`), each one move of the slot's state machine. Between
    two calls of these methods the database may have moved on; `WorkerSlot.StepOfOthers` keeps `Valid` then. */
module ReliableWorkers {
  import opened Types
  import opened Protocol
  import opened Invariants
  import opened Reachable
  import opened Tables
  import opened Outcomes
  import opened WorkerSlot
  import opened ClaimLaws
  import Dispatch
  import Rows
  import WorkerRegistry

  class ReliableWorker {
    const db: Database
    const worker: WorkerId
    const session: SessionId
    var processed: nat
    ghost var phase: Phase

    ghost function Here(): Slot
      reads this, db
    {
      Slot(db.State(), phase)
    }

    ghost predicate Valid()
      reads this, db
    {
      Consistent(session, Here())
    }

    /** The worker of a session that was just registered; `WorkerSlot.StartsDrained` gives the precondition. */
    constructor (db: Database, worker: WorkerId, session: SessionId)
      requires Consistent(session, Slot(db.State(), Consuming))
      ensures Valid() && this.db == db && this.worker == worker && this.session == session && phase == Consuming && processed == 0
    {
      hide Consistent;
      this.db, this.worker, this.session, processed, phase := db, worker, session, 0, Consuming;
    }

    /** One `claim_next` of `_consume`. A worker that is asked to stop or was replaced leaves its loop. */
    method TakeWork(registry: set<string>, owner: string, now: Time) returns (claimed: Option<TaskId>)
      requires Valid() && phase == Consuming
      modifies this`phase, db
      ensures Moves(worker, session, old(Here()), Take(registry, owner, now, claimed), Here())
      ensures claimed.Some? ==> old(InCharge(db.State(), session, now)) && claimed.value in db.tasks
                                && phase == InCall(Invocation(claimed.value, db.tasks[claimed.value].attempts, owner, Some(session)))
      ensures claimed.None? ==>
                phase == if old(InCharge(db.State(), session, now) || Unready(db.State(), session, now)) then Consuming else Draining
      ensures Valid() && Reaches(old(db.State()), db.State())
    {
      hide Inv, Reaches, Dispatch.ClaimsFirst, Claimable, WorkerRegistry.NotReady, Granted, InCharge, TakesFirst, Unready;
      ghost var x := Here();
      UnreadyExactly(x.db, session, now);
      var reply := Dispatch.ClaimNext(db, registry, session, owner, now);
      claimed := None;
      if reply.Rejected? {
        if reply.failure != WorkerNotReady { phase := Draining; }
      } else if reply.value.Some? {
        claimed := reply.value;
        ClaimedCall(x.db, db.State(), registry, now, owner, session, claimed.value);
        phase := InCall(Invocation(claimed.value, db.tasks[claimed.value].attempts, owner, Some(session)));
      }
      TakingKeeps(worker, session, x, Take(registry, owner, now, claimed), Here());
    }

    /** The business call returns; the executor waits for it even beyond a soft timeout. */
    method CallReturns()
      requires Valid() && phase.InCall?
      modifies this`phase, db`live
      ensures Moves(worker, session, old(Here()), CallReturn, Here())
      ensures Valid() && Reaches(old(db.State()), db.State())
    {
      hide Inv, Reaches, Granted;
      ghost var x := Here();
      db.live := db.live - {phase.call};
      phase := AfterCall(phase.call);
      ReturnKeeps(worker, session, x, Here());
    }

    /** The report on the claimed row: one commit, or a refusal that ends the loop. */
    method ReportCall(t: TaskId, owner: string, row: TaskRow, outcome: CallResult, now: Time, delay: nat)
      returns (committed: bool, ghost sequence: nat)
      requires Valid() && phase == AfterCall(Invocation(t, row.attempts, owner, Some(session)))
      requires Case(t, row.attempts) in db.claims && db.claims[Case(t, row.attempts)] == row
      modifies this`phase, this`processed, db
      ensures committed <==> old(Committable(db.State(), t, owner, row.attempts))
      ensures processed == old(processed) + (if committed then 1 else 0)
      ensures committed <==> old(MayReport(db.tasks, db.sessions, t, owner, row.attempts))
      ensures phase == if committed then Consuming else Draining
      ensures Moves(worker, session, old(Here()), Report(outcome, now, delay, sequence), Here())
      ensures Valid() && Reaches(old(db.State()), db.State())
    {
      hide Inv, Reaches, Committable, MayReport, Newest, Rows.RowApply, SetRow, ExecutedTo;
      ghost var x := Here();
      ReportsExactly(x.db, t, owner, row.attempts);
      OwnCallIsOver(session, x);
      var reply := CommitLocal(db, t, owner, row, outcome, now, delay);
      committed := reply.Ok?;
      sequence := if committed then db.tasks[t].sequence else 0;
      if committed {
        processed := processed + 1;
        phase := Consuming;
        CommitSets(x.db, t, owner, row.attempts, ReportAction(outcome, Rows.LocalExecutor, now, delay, sequence));
      } else {
        phase := Draining;
      }
      ReportKeeps(worker, session, x, Report(outcome, now, delay, sequence), Here());
    }

    /** `request_stop` at the end of `_run`. */
    method AskToStop() returns (current: bool)
      requires Valid() && phase == Draining
      modifies this`phase, db
      ensures current <==> old(IsCurrent(db.State(), worker, session))
      ensures phase == if current then Asked else Gone(false)
      ensures current ==> session in db.sessions && db.sessions[session].state != ActiveSession && db.sessions[session].state != Suspect
      ensures Moves(worker, session, old(Here()), Ask, Here())
      ensures Valid() && Reaches(old(db.State()), db.State())
    {
      hide Inv, Reaches;
      ghost var x := Here();
      var reply := WorkerRegistry.RequestStop(db, worker, session);
      current := reply.Ok?;
      phase := if current then Asked else Gone(false);
      AskKeeps(worker, session, x, Here());
    }

    /** `confirm_stopped` at the end of `_run`, in a transaction of its own. */
    method ConfirmStop() returns (confirmed: bool)
      requires Valid() && phase == Asked
      modifies this`phase, db
      ensures confirmed <==> old(MayConfirm(db.State(), worker, session))
      ensures phase == Gone(confirmed)
      ensures confirmed <==> old(IsCurrent(db.State(), worker, session)
                                 && db.sessions[session].state != ActiveSession && db.sessions[session].state != Suspect)
      ensures confirmed ==> session in db.sessions && db.sessions[session].state == Stopped
      ensures Moves(worker, session, old(Here()), Confirm, Here())
      ensures Valid() && Reaches(old(db.State()), db.State())
    {
      hide Inv, Reaches, MayConfirm, WorkerRegistry.Confirmed;
      ghost var x := Here();
      ProofIsGiven();
      MayStop(worker, session, x);
      var reply := WorkerRegistry.ConfirmStopped(db, worker, session, DRAINED_PROOF);
      confirmed := reply.Ok?;
      if confirmed && x.db.sessions[session].state != Stopped { ConfirmationIsTrue(worker, session, x); }
      phase := Gone(confirmed);
      ConfirmKeeps(worker, session, x, Here());
    }
  }

  /** The session is current but suspect or silent: it may become ready again. */
  ghost predicate Unready(s: Db, sid: SessionId, now: Time) {
    && sid in s.sessions && IsCurrent(s, s.sessions[sid].worker, sid)
    && (s.sessions[sid].state == Suspect ||
        (s.sessions[sid].state == ActiveSession && s.sessions[sid].timeout < now - s.sessions[sid].lastHeartbeat))
  }

  lemma UnreadyExactly(s: Db, sid: SessionId, now: Time)
    ensures WorkerRegistry.NotReady(s, sid, now) <==> Unready(s, sid, now)
  {
  }

  /** What the confirmation asks of its caller, and what it writes. */
  lemma MayStop(w: WorkerId, sid: SessionId, x: Slot)
    requires Consistent(sid, x) && x.phase == Asked
    ensures SessionsOk(x.db.sessions, x.db.registry) && Drained(x.db, sid)
    ensures MayConfirm(x.db, w, sid) <==> IsCurrent(x.db, w, sid) && WorkerRegistry.Confirmable(x.db, sid)
    ensures MayConfirm(x.db, w, sid) && x.db.sessions[sid].state == Stopped ==> WorkerRegistry.Confirmed(x.db, sid, DRAINED_PROOF) == x.db
  {
    hide RowsOk, CallsOk, HoldsOk, FlowOk, BudgetsOk;
  }

  lemma ProofIsGiven()
    ensures !Blank(DRAINED_PROOF)
  {
    assert DRAINED_PROOF[0] == 'r' && !IsSpace('r');
  }

  /** After its call the worker's own invocation is over, so the report is not refused on that account. */
  lemma OwnCallIsOver(sid: SessionId, x: Slot)
    requires Consistent(sid, x) && x.phase.AfterCall?
    ensures var call := x.phase.call;
      && Case(call.task, call.attempt) in x.db.claims
      && x.db.claims[Case(call.task, call.attempt)].status == Running && x.db.claims[Case(call.task, call.attempt)].retryAt.None?
      && forall i | i in x.db.live && i.task == call.task && i.attempt == call.attempt :: i.owner != call.owner
  {
    hide RowsOk, SessionsOk, HoldsOk, FlowOk, BudgetsOk;
    var call := x.phase.call;
    forall i | i in x.db.live && i.task == call.task && i.attempt == call.attempt ensures i.owner != call.owner {
      assert CallOk(i, x.db.tasks, x.db.sessions);
      assert ClaimOk(x.db.tasks[i.task], i.task, x.db.claims, x.db.sessions);
    }
  }

  lemma CommitSets(s: Db, t: TaskId, owner: string, attempt: nat, finish: Rows.RowAction)
    requires StoreGuard(s, Commit(t, owner, attempt, finish))
    ensures RowReady(s, t, finish) && StoreApply(s, Commit(t, owner, attempt, finish)) == SetRow(s, t, finish)
    ensures (finish.FinishSuccess? || finish.FinishFailure?) && Newest(s, finish.sequence)
  {
    hide Rows.RowApply;
  }

  ghost predicate RowReady(s: Db, t: TaskId, a: Rows.RowAction) { t in s.tasks && Rows.RowGuard(s.tasks[t], a) }
}
