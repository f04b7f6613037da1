/** Steps on workflows, and the theorem that every step keeps the invariant. */
module KeepWorkflow {
  import opened Types
  import opened Rows
  import opened Bindings
  import opened Protocol
  import opened Invariants
  import opened KeepRows
  import opened KeepFlow
  import opened KeepSubmit
  import opened KeepStore
  import opened KeepRecovery

  /** The parts of the invariant that do not look at node states, once the task of the node moved. */
  lemma NodeTaskMoves(s: Db, t: TaskId, a: RowAction)
    requires Inv(s) && t in s.tasks && (a.OpenGate? || a.FailBinding?) && RowGuard(s.tasks[t], a)
    ensures var tasks' := s.tasks[t := RowApply(s.tasks[t], a)];
      && RowsOk(tasks') && CallsOk(s.live, s.claims, s.attested, tasks', s.sessions)
      && HoldsOk(s.incidents, s.holds, tasks', s.nodes) && BudgetsOk(s.runs, s.nodes, tasks', s.admitted)
  {
    hide SessionsOk, HoldsOk, FlowOk, BudgetsOk;
    NotStarted(s.tasks[t], a);
    RowsKept(s.tasks, t, a);
    WaitingIsDone(s, t);
    CallsKeptByEnd(s, t, RowApply(s.tasks[t], a));
    HoldsKeptByRow(s, t, RowApply(s.tasks[t], a));
    BudgetsKeptByRow(s, t, a);
  }

  lemma OtherPartsKept(s: Db, a: FlowAction)
    requires Inv(s) && FlowGuard(s, a) && OnOneNode(a)
    ensures var t := NodeTask(a.wf, a.n.id); var tasks' := s.tasks[t := TaskAfter(s, a)];
      && RowsOk(tasks') && CallsOk(s.live, s.claims, s.attested, tasks', s.sessions)
      && HoldsOk(s.incidents, s.holds, tasks', s.nodes) && BudgetsOk(s.runs, s.nodes, tasks', s.admitted)
  {
    hide RowsOk, SessionsOk, CallsOk, HoldsOk, FlowOk, BudgetsOk;
    var t := NodeTask(a.wf, a.n.id);
    match a
    case Dispatch(wf, n) => NodeTaskMoves(s, t, OpenGate(Materialize(n, Outputs(s.tasks, wf, n)).value));
    case RejectBinding(_, _) => NodeTaskMoves(s, t, FailBinding);
    case SkipNode(_, _) => assert s.tasks[t := s.tasks[t]] == s.tasks;
    case SyncNode(_, _) => assert s.tasks[t := s.tasks[t]] == s.tasks;
  }

  lemma OneNodeKeeps(s: Db, a: FlowAction)
    requires Inv(s) && FlowGuard(s, a) && OnOneNode(a)
    ensures Inv(FlowApply(s, a))
  {
    hide RowsOk, SessionsOk, CallsOk, HoldsOk, FlowOk, BudgetsOk;
    var t := NodeTask(a.wf, a.n.id);
    NodeStepShape(s, a);
    OtherPartsKept(s, a);
    FlowKeptByNode(s, a);
    var nodes', tasks' := s.nodes[t := NodeAfter(s, a)], s.tasks[t := TaskAfter(s, a)];
    assert nodes'.Keys == s.nodes.Keys;
    HoldsKeptByNodes(s.incidents, s.holds, tasks', s.nodes, nodes');
    BudgetsKeptByNodes(s.runs, s.nodes, tasks', s.admitted, s.runs, nodes');
  }

  lemma SetRunKeeps(s: Db, wf: string, status: RunStatus)
    requires Inv(s) && wf in s.runs
    ensures Inv(s.(runs := s.runs[wf := s.runs[wf].(status := status)]))
  {
    hide RowsOk, SessionsOk, CallsOk, HoldsOk, FlowOk, BudgetsOk;
    var runs' := s.runs[wf := s.runs[wf].(status := status)];
    FlowKeptByRuns(s.runs, s.nodes, s.tasks, runs');
    BudgetsKeptByNodes(s.runs, s.nodes, s.tasks, s.admitted, runs', s.nodes);
  }

  lemma InvKept(s: Db, a: FlowAction)
    requires Inv(s) && FlowGuard(s, a)
    ensures Inv(FlowApply(s, a))
  {
    hide RowsOk, SessionsOk, CallsOk, HoldsOk, FlowOk, BudgetsOk;
    match a
    case SubmitRun(wf, run, policy, llm, sequence) => SubmitRunKeeps(s, wf, run, policy, llm, sequence);
    case Dispatch(_, _) => OneNodeKeeps(s, a);
    case RejectBinding(_, _) => OneNodeKeeps(s, a);
    case SkipNode(_, _) => OneNodeKeeps(s, a);
    case SyncNode(_, _) => OneNodeKeeps(s, a);
    case SetRun(wf, status) => SetRunKeeps(s, wf, status);
  }
}

/** Every step keeps the invariant, so every reachable state has it. */
module Reachable {
  import opened Protocol
  import opened Invariants
  import KeepSessions
  import KeepStore
  import KeepRecovery
  import KeepWorkflow

  lemma StepKeepsInv(s: Db, a: Action)
    requires Inv(s) && Guard(s, a)
    ensures Inv(Apply(s, a))
  {
    hide Inv;
    match a
    case ByRegistry(x) => KeepSessions.InvKept(s, x);
    case ByStore(x) => KeepStore.InvKept(s, x);
    case ByRecovery(x) => KeepRecovery.InvKept(s, x);
    case ByWorkflow(x) => KeepWorkflow.InvKept(s, x);
  }

  /** A stretch of a run: each state follows from the one before by one step. */
  ghost predicate Steps(run: seq<Db>) {
    run != [] && forall i | 0 < i < |run| :: Next(run[i - 1], run[i])
  }

  /** A run of the control plane, from empty tables. */
  ghost predicate Behaviour(run: seq<Db>) {
    Steps(run) && run[0] == EMPTY
  }

  lemma EmptyInv()
    ensures Inv(EMPTY)
  {
  }

  lemma NextKeepsInv(s: Db, s': Db)
    requires Inv(s) && Next(s, s')
    ensures Inv(s')
  {
    hide Inv, Guard, Apply;
    var a :| Guard(s, a) && s' == Apply(s, a);
    StepKeepsInv(s, a);
  }

  lemma {:induction false} InvAlong(run: seq<Db>, i: nat)
    requires Steps(run) && Inv(run[0]) && i < |run|
    ensures Inv(run[i])
  {
    hide Inv, Next;
    if i > 0 {
      InvAlong(run, i - 1);
      assert Next(run[i - 1], run[i]);
      NextKeepsInv(run[i - 1], run[i]);
    }
  }

  /** Every state of every run satisfies the invariant. */
  lemma ReachableInv(run: seq<Db>, i: nat)
    requires Behaviour(run) && i < |run|
    ensures Inv(run[i])
  {
    EmptyInv();
    InvAlong(run, i);
  }

  /** `s'` comes after `s` in some run. */
  ghost predicate Reaches(s: Db, s': Db) {
    exists run :: Steps(run) && run[0] == s && run[|run| - 1] == s'
  }

  lemma ReachesSelf(s: Db)
    ensures Reaches(s, s)
  {
    assert Steps([s]) && [s][0] == s && [s][|[s]| - 1] == s;
  }

  lemma ReachesStep(s: Db, m: Db, a: Action)
    requires Reaches(s, m) && Guard(m, a)
    ensures Reaches(s, Apply(m, a))
  {
    hide Guard, Apply;
    var run :| Steps(run) && run[0] == s && run[|run| - 1] == m;
    var run' := run + [Apply(m, a)];
    assert Next(m, Apply(m, a));
    forall i | 0 < i < |run'| ensures Next(run'[i - 1], run'[i]) {
      if i < |run| { assert Next(run[i - 1], run[i]); }
    }
    assert Steps(run') && run'[0] == s && run'[|run'| - 1] == Apply(m, a);
  }

  lemma ReachesTransitive(s: Db, m: Db, s': Db)
    requires Reaches(s, m) && Reaches(m, s')
    ensures Reaches(s, s')
  {
    hide Next;
    var run :| Steps(run) && run[0] == s && run[|run| - 1] == m;
    var more :| Steps(more) && more[0] == m && more[|more| - 1] == s';
    var both := run + more[1..];
    forall i | 0 < i < |both| ensures Next(both[i - 1], both[i]) {
      if i < |run| { assert Next(run[i - 1], run[i]); } else { assert Next(more[i - |run|], more[i - |run| + 1]); }
    }
    assert Steps(both) && both[0] == s && both[|both| - 1] == s';
  }

  lemma ReachesInv(s: Db, s': Db)
    requires Inv(s) && Reaches(s, s')
    ensures Inv(s')
  {
    hide Inv;
    var run :| Steps(run) && run[0] == s && run[|run| - 1] == s';
    InvAlong(run, |run| - 1);
  }
}
