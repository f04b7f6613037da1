/** One execution slot as a state machine (`ReliableWorker`): it consumes, drains, asks for its stop and confirms it.
    Every move is one transaction or one local event of the worker; between any two of them come arbitrary steps of
    the rest of the system, except claims with the worker's session, whose random name no other party uses. */
module WorkerSlot {
  import opened Types
  import opened Rows
  import opened Protocol
  import opened Invariants
  import opened Reachable
  import opened Safety
  import History
  import Dispatch
  import Outcomes
  import WorkerRegistry

  datatype Phase =
    | Consuming
    | InCall(call: Invocation)
    | AfterCall(call: Invocation)
    | Draining
    | Asked
    | Gone(confirmed: bool)

  datatype Slot = Slot(db: Db, phase: Phase)

  datatype Move =
    | Elsewhere(action: Action)
    | Take(registry: set<string>, owner: string, now: Time, claimed: Option<TaskId>)
    | CallReturn
    | Report(outcome: Outcomes.CallResult, now: Time, delay: nat, sequence: nat)
    | Drain
    | Ask
    | Confirm

  const DRAINED_PROOF := "runtime drained all business invocations"

  /** `request_stop` of a session that is still current. */
  function AfterRequest(s: Db, w: WorkerId, sid: SessionId): Db
    requires IsCurrent(s, w, sid)
  {
    var row := s.sessions[sid];
    if row.state in {ActiveSession, Suspect} then SetSession(s, sid, row.(state := Stopping, stopRequested := true)) else s
  }

  /** `confirm_stopped` lets the worker through. */
  predicate MayConfirm(s: Db, w: WorkerId, sid: SessionId) {
    IsCurrent(s, w, sid) && WorkerRegistry.Confirmable(s, sid)
  }

  function ReportOf(move: Move): RowAction
    requires move.Report?
  {
    Outcomes.ReportAction(move.outcome, LocalExecutor, move.now, move.delay, move.sequence)
  }

  /** One move of the worker `w` with the session `sid`, or one step of anyone else. */
  ghost predicate Moves(w: WorkerId, sid: SessionId, x: Slot, move: Move, y: Slot) {
    match move
    case Elsewhere(a) => Guard(x.db, a) && !ClaimsWith(a, sid) && y == Slot(Apply(x.db, a), x.phase)
    case Take(registry, owner, now, claimed) =>
      && x.phase == Consuming
      && if Claimable(x.db, sid, now) then
           && Reaches(x.db, y.db) && Dispatch.ClaimsFirst(x.db, y.db, registry, now, owner, sid, claimed)
           && y.phase == (if claimed.Some? && claimed.value in y.db.tasks
                          then InCall(Invocation(claimed.value, y.db.tasks[claimed.value].attempts, owner, Some(sid)))
                          else Consuming)
         else y == Slot(x.db, if WorkerRegistry.NotReady(x.db, sid, now) then Consuming else Draining)
    case CallReturn =>
      x.phase.InCall? && y == Slot(x.db.(live := x.db.live - {x.phase.call}), AfterCall(x.phase.call))
    case Report(_, _, _, sequence) =>
      && x.phase.AfterCall?
      && var call := x.phase.call;
         if Committable(x.db, call.task, call.owner, call.attempt)
         then Newest(x.db, sequence) && y == Slot(SetRow(x.db, call.task, ReportOf(move)), Consuming)
         else y == Slot(x.db, Draining)
    case Drain => (x.phase == Consuming || x.phase.AfterCall?) && y == Slot(x.db, Draining)
    case Ask =>
      x.phase == Draining && y == if IsCurrent(x.db, w, sid) then Slot(AfterRequest(x.db, w, sid), Asked) else Slot(x.db, Gone(false))
    case Confirm =>
      && x.phase == Asked
      && y == if MayConfirm(x.db, w, sid) then Slot(WorkerRegistry.Confirmed(x.db, sid, DRAINED_PROOF), Gone(true))
              else Slot(x.db, Gone(false))
  }

  /** A trace of the slot in the system around it. */
  ghost predicate Trace(w: WorkerId, sid: SessionId, slots: seq<Slot>, moves: seq<Move>) {
    |slots| == |moves| + 1 && forall i | 0 <= i < |moves| :: Moves(w, sid, slots[i], moves[i], slots[i + 1])
  }

  // ---------------------------------------------------------------- what every move keeps

  /** The claim that a call stands for is on record. */
  ghost predicate Granted(s: Db, call: Invocation, sid: SessionId) {
    && call.session == Some(sid) && Case(call.task, call.attempt) in s.claims
    && var r := s.claims[Case(call.task, call.attempt)];
       r.status == Running && r.retryAt.None? && r.attempts == call.attempt && r.owner == Some(call.owner) && r.session == Some(sid)
  }

  /** The session has no live call, except in the phase of a call that one. */
  ghost predicate Consistent(sid: SessionId, x: Slot) {
    && Inv(x.db)
    && (forall i | i in x.db.live && i.session == Some(sid) :: x.phase == InCall(i))
    && (x.phase.InCall? || x.phase.AfterCall? ==> Granted(x.db, x.phase.call, sid))
  }

  /** A worker starts without a call: the name of its session is new. */
  lemma StartsDrained(s: Db, w: WorkerId, sid: SessionId, timeout: Time, host: string, now: Time)
    requires Inv(s) && RegistryGuard(s, Register(w, sid, timeout, host, now))
    ensures var s' := RegistryApply(s, Register(w, sid, timeout, host, now)); Consistent(sid, Slot(s', Consuming))
  {
    hide RowsOk, SessionsOk, HoldsOk, FlowOk, BudgetsOk;
    assert Guard(s, ByRegistry(Register(w, sid, timeout, host, now)));
    StepKeepsInv(s, ByRegistry(Register(w, sid, timeout, host, now)));
    forall i | i in s.live ensures i.session != Some(sid) { assert CallOk(i, s.tasks, s.sessions); }
  }

  lemma StepOfOthers(sid: SessionId, x: Slot, a: Action)
    requires Consistent(sid, x) && Guard(x.db, a) && !ClaimsWith(a, sid)
    ensures Consistent(sid, Slot(Apply(x.db, a), x.phase)) && Reaches(x.db, Apply(x.db, a))
  {
    hide Inv, Guard, Apply, Reaches;
    StepKeepsInv(x.db, a);
    ReachesSelf(x.db);
    ReachesStep(x.db, x.db, a);
    forall i | i in Apply(x.db, a).live && i.session == Some(sid) ensures x.phase == InCall(i) { History.CallsStep(x.db, a, i); }
    if x.phase.InCall? || x.phase.AfterCall? { History.ClaimsStep(x.db, a, Case(x.phase.call.task, x.phase.call.attempt)); }
  }

  /** What a successful `claim_next` starts. */
  lemma ClaimedCall(s: Db, s': Db, registry: set<string>, now: Time, owner: string, sid: SessionId, t: TaskId)
    requires Dispatch.ClaimsFirst(s, s', registry, now, owner, sid, Some(t)) && Inv(s')
    ensures t in s'.tasks
    ensures var call := Invocation(t, s'.tasks[t].attempts, owner, Some(sid)); s'.live == s.live + {call} && Granted(s', call, sid)
    ensures s'.claims[Case(t, s'.tasks[t].attempts)] == s'.tasks[t]
  {
    hide RowsOk, SessionsOk, HoldsOk, FlowOk, BudgetsOk, Dispatch.Wins;
    assert ClaimOk(s'.tasks[t], t, s'.claims, s'.sessions);
  }

  lemma NothingClaimed(s: Db, s': Db, registry: set<string>, now: Time, owner: string, sid: SessionId)
    requires Dispatch.ClaimsFirst(s, s', registry, now, owner, sid, None)
    ensures s'.live == s.live
  {
  }

  lemma TakingKeeps(w: WorkerId, sid: SessionId, x: Slot, move: Move, y: Slot)
    requires Consistent(sid, x) && move.Take? && Moves(w, sid, x, move, y)
    ensures Consistent(sid, y) && Reaches(x.db, y.db)
  {
    hide Inv, Reaches, Dispatch.ClaimsFirst, Claimable, WorkerRegistry.NotReady;
    if Claimable(x.db, sid, move.now) {
      ReachesInv(x.db, y.db);
      if move.claimed.Some? {
        ClaimedCall(x.db, y.db, move.registry, move.now, move.owner, sid, move.claimed.value);
      } else {
        NothingClaimed(x.db, y.db, move.registry, move.now, move.owner, sid);
      }
    } else {
      ReachesSelf(x.db);
    }
  }

  lemma ReturnKeeps(w: WorkerId, sid: SessionId, x: Slot, y: Slot)
    requires Consistent(sid, x) && Moves(w, sid, x, CallReturn, y)
    ensures Consistent(sid, y) && Reaches(x.db, y.db)
  {
    hide Inv, Reaches;
    ReachesSelf(x.db);
    if x.phase.call in x.db.live {
      ReachesStep(x.db, x.db, ByStore(EndInvocation(x.phase.call)));
      ReachesInv(x.db, y.db);
    } else {
      assert x.db.live - {x.phase.call} == x.db.live;
    }
  }

  /** The executor reports after its call: nothing but the state of the row and of the session can refuse it. */
  lemma ReportIsAStep(sid: SessionId, x: Slot, move: Move)
    requires Consistent(sid, x) && x.phase.AfterCall? && move.Report? && Newest(x.db, move.sequence)
    requires Committable(x.db, x.phase.call.task, x.phase.call.owner, x.phase.call.attempt)
    ensures var a := Commit(x.phase.call.task, x.phase.call.owner, x.phase.call.attempt, ReportOf(move));
      StoreGuard(x.db, a) && StoreApply(x.db, a) == SetRow(x.db, x.phase.call.task, ReportOf(move))
  {
    hide RowsOk, SessionsOk, HoldsOk, FlowOk, BudgetsOk, RowApply;
    var call := x.phase.call;
    Outcomes.ClaimedRowIsStored(x.db, call.task, call.owner, x.db.claims[Case(call.task, call.attempt)]);
    forall i | i in x.db.live && i.task == call.task && i.attempt == call.attempt ensures i.owner != call.owner {
      assert CallOk(i, x.db.tasks, x.db.sessions);
    }
  }

  lemma ReportKeeps(w: WorkerId, sid: SessionId, x: Slot, move: Move, y: Slot)
    requires Consistent(sid, x) && move.Report? && Moves(w, sid, x, move, y)
    ensures Consistent(sid, y) && Reaches(x.db, y.db)
  {
    hide Inv, Reaches, Committable, Granted, ReportOf, Newest, RowApply, RowGuard;
    ReachesSelf(x.db);
    var call := x.phase.call;
    if Committable(x.db, call.task, call.owner, call.attempt) {
      ReportIsAStep(sid, x, move);
      var a := Commit(call.task, call.owner, call.attempt, ReportOf(move));
      assert Guard(x.db, ByStore(a)) && Apply(x.db, ByStore(a)) == y.db;
      ReachesStep(x.db, x.db, ByStore(a));
      StepKeepsInv(x.db, ByStore(a));
    }
  }

  lemma AskKeeps(w: WorkerId, sid: SessionId, x: Slot, y: Slot)
    requires Consistent(sid, x) && Moves(w, sid, x, Ask, y)
    ensures Consistent(sid, y) && Reaches(x.db, y.db)
  {
    hide Inv, Reaches;
    ReachesSelf(x.db);
    var a := RegistryAction.RequestStop(w, sid);
    if RegistryGuard(x.db, a) {
      assert Guard(x.db, ByRegistry(a)) && Apply(x.db, ByRegistry(a)) == y.db;
      StepOfOthers(sid, x, ByRegistry(a));
    }
  }

  /** The evidence that the runtime gives about itself is true: its confirmation is a step of the protocol. */
  lemma ConfirmationIsTrue(w: WorkerId, sid: SessionId, x: Slot)
    requires Consistent(sid, x) && x.phase == Asked && MayConfirm(x.db, w, sid) && x.db.sessions[sid].state != Stopped
    ensures var a := RegistryAction.ConfirmStopped(sid, DRAINED_PROOF);
      RegistryGuard(x.db, a) && RegistryApply(x.db, a) == WorkerRegistry.Confirmed(x.db, sid, DRAINED_PROOF)
  {
    hide Inv;
  }

  lemma ConfirmKeeps(w: WorkerId, sid: SessionId, x: Slot, y: Slot)
    requires Consistent(sid, x) && Moves(w, sid, x, Confirm, y)
    ensures Consistent(sid, y) && Reaches(x.db, y.db)
  {
    hide Inv, Reaches;
    ReachesSelf(x.db);
    if MayConfirm(x.db, w, sid) && x.db.sessions[sid].state != Stopped {
      ConfirmationIsTrue(w, sid, x);
      var a := RegistryAction.ConfirmStopped(sid, DRAINED_PROOF);
      assert Guard(x.db, ByRegistry(a)) && Apply(x.db, ByRegistry(a)) == y.db;
      StepOfOthers(sid, x, ByRegistry(a));
    }
  }

  lemma MoveKeeps(w: WorkerId, sid: SessionId, x: Slot, move: Move, y: Slot)
    requires Consistent(sid, x) && Moves(w, sid, x, move, y)
    ensures Consistent(sid, y) && Reaches(x.db, y.db)
  {
    hide Inv, Reaches, Dispatch.ClaimsFirst, Guard, Apply, Claimable, Committable, IsCurrent, AfterRequest, WorkerRegistry.Confirmed;
    match move
    case Elsewhere(a) => StepOfOthers(sid, x, a);
    case Take(_, _, _, _) => TakingKeeps(w, sid, x, move, y);
    case CallReturn => ReturnKeeps(w, sid, x, y);
    case Report(_, _, _, _) => ReportKeeps(w, sid, x, move, y);
    case Drain => ReachesSelf(x.db);
    case Ask => AskKeeps(w, sid, x, y);
    case Confirm => ConfirmKeeps(w, sid, x, y);
  }

  /** Along every trace the worker takes part in a run of the system, and its session has no live call but the one
      that its phase names. */
  lemma {:induction false} SlotIsSafe(w: WorkerId, sid: SessionId, slots: seq<Slot>, moves: seq<Move>, i: nat)
    requires Trace(w, sid, slots, moves) && Consistent(sid, slots[0]) && i < |slots|
    ensures Consistent(sid, slots[i]) && Reaches(slots[0].db, slots[i].db)
    ensures !slots[i].phase.InCall? ==> Drained(slots[i].db, sid)
  {
    hide Inv, Reaches, Moves;
    if i == 0 {
      ReachesSelf(slots[0].db);
    } else {
      SlotIsSafe(w, sid, slots, moves, i - 1);
      MoveKeeps(w, sid, slots[i - 1], moves[i - 1], slots[i]);
      ReachesTransitive(slots[0].db, slots[i - 1].db, slots[i].db);
    }
  }
}
