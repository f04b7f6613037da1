/** Submission of a workflow run (`SQLiteWorkflowStore.submit`): its rows and its node tasks appear in one
    transaction, or not at all. */
module WorkflowSubmit {
  import opened Types
  import opened Rows
  import opened Bindings
  import opened Graph
  import opened Protocol
  import opened Invariants
  import opened Reachable
  import opened Tables
  import opened TaskStore
  import opened Advance
  import Dag
  import KeepSubmit
  import WorkflowStore
  import opened NodeLaws
  import GraphLaws

  /** What the constructors of inputs and bindings ensure. */
  ghost predicate Constructible(n: NodeDef) {
    && (forall i, j | 0 <= i < j < |n.inputs| :: n.inputs[i].0 != n.inputs[j].0)
    && (forall i | 0 <= i < |n.bindings| :: n.bindings[i].target != [])
  }

  /** The validation of a definition. */
  method Validate(nodes: seq<NodeDef>) returns (ok: bool)
    requires forall n | n in nodes :: Constructible(n)
    ensures ok <==> WellFormed(nodes)
    ensures ok <==> GraphLaws.Sound(nodes)
  {
    hide GraphLaws.Sound;
    if GraphLaws.Sound(nodes) { GraphLaws.SoundIsWellFormed(nodes); }
    if nodes == [] { return false; }
    for i := 0 to |nodes|
      invariant forall j | 0 <= j < i :: Disjoint(Slots(nodes[j]))
    {
      assert Constructible(nodes[i]);
      var disjoint := Dag.TargetsDisjoint(nodes[i]);
      if !disjoint {
        assert nodes[i] in nodes && !Disjoint(Slots(nodes[i]));
        return false;
      }
    }
    var order := Dag.TopologicalOrder(nodes);
    if order.Order? { GraphLaws.OrderedIsSound(nodes, order.ids); }
    return order.Order?;
  }

  predicate Insertable(tasks: map<TaskId, TaskRow>, registry: set<string>, wf: string, n: NodeDef,
                       policy: Option<nat>)
  {
    && n.handler in registry && NodeTask(wf, n.id) !in tasks
    && Storable(BaseDef(n), NodeLimit(n, policy))
  }

  /** The handler of the node is known, its task is new, and its numbers fit the columns. */
  predicate AcceptsNode(tasks: map<TaskId, TaskRow>, registry: set<string>, wf: string, n: NodeDef,
                        policy: Option<nat>) {
    && n.handler in registry && NodeTask(wf, n.id) !in tasks
    && -9_223_372_036_854_775_808 <= n.priority <= 9_223_372_036_854_775_807
    && (policy.Some? && n.maxRetries.Some? ==> n.maxRetries.value <= 9_223_372_036_854_775_807)
    && (policy.Some? && n.maxRetries.None? ==> policy.value <= 9_223_372_036_854_775_807)
  }

  lemma InsertableExactly(tasks: map<TaskId, TaskRow>, registry: set<string>, wf: string, n: NodeDef,
                          policy: Option<nat>)
    ensures Insertable(tasks, registry, wf, n, policy) <==> AcceptsNode(tasks, registry, wf, n, policy)
  {
  }

  ghost function RowsUpTo(wf: string, nodes: seq<NodeDef>, policy: Option<nat>, sequence: nat,
                          i: nat): map<TaskId, TaskRow>
    requires i <= |nodes|
  {
    if i == 0 then map[]
    else RowsUpTo(wf, nodes, policy, sequence, i - 1)[
           NodeTask(wf, nodes[i - 1].id) := NewRow(BaseDef(nodes[i - 1]), NodeLimit(nodes[i - 1], policy), true, sequence + i - 1)]
  }

  ghost function NodesUpTo(wf: string, nodes: seq<NodeDef>, llm: set<string>, i: nat): map<TaskId, NodeRow>
    requires i <= |nodes|
  {
    if i == 0 then map[]
    else NodesUpTo(wf, nodes, llm, i - 1)[NodeTask(wf, nodes[i - 1].id) := NodeRow(Waiting, None, nodes[i - 1].id in llm)]
  }

  /** The rows of the first nodes have been inserted, numbered from `sequence` on. */
  ghost predicate Inserted(s: Db, m: Db, wf: string, nodes: seq<NodeDef>, policy: Option<nat>, llm: set<string>,
                           sequence: nat, i: nat)
    requires i <= |nodes|
  {
    && m == s.(tasks := m.tasks, nodes := m.nodes, runs := m.runs)
    && m.tasks == s.tasks + RowsUpTo(wf, nodes, policy, sequence, i)
    && m.nodes == s.nodes + NodesUpTo(wf, nodes, llm, i)
    && IsNext(m.tasks, sequence + i)
  }

  lemma {:induction false} RowsUpToAre(wf: string, nodes: seq<NodeDef>, policy: Option<nat>, sequence: nat, i: nat)
    requires i <= |nodes| && DistinctIds(nodes)
    ensures forall k | 0 <= k < i :: var t := NodeTask(wf, nodes[k].id);
              && t in RowsUpTo(wf, nodes, policy, sequence, i)
              && RowsUpTo(wf, nodes, policy, sequence, i)[t] == NewRow(BaseDef(nodes[k]), NodeLimit(nodes[k], policy), true, sequence + k)
    ensures forall t | t in RowsUpTo(wf, nodes, policy, sequence, i) :: exists k | 0 <= k < i :: t == NodeTask(wf, nodes[k].id)
  {
    hide NewRow;
    if i > 0 {
      RowsUpToAre(wf, nodes, policy, sequence, i - 1);
      assert forall k | 0 <= k < i - 1 :: nodes[k].id != nodes[i - 1].id;
    }
  }

  lemma {:induction false} NodesUpToAre(wf: string, nodes: seq<NodeDef>, llm: set<string>, i: nat)
    requires i <= |nodes| && DistinctIds(nodes)
    ensures forall k | 0 <= k < i :: var t := NodeTask(wf, nodes[k].id);
              t in NodesUpTo(wf, nodes, llm, i) && NodesUpTo(wf, nodes, llm, i)[t] == NodeRow(Waiting, None, nodes[k].id in llm)
    ensures forall t | t in NodesUpTo(wf, nodes, llm, i) :: exists k | 0 <= k < i :: t == NodeTask(wf, nodes[k].id)
  {
    if i > 0 {
      NodesUpToAre(wf, nodes, llm, i - 1);
      assert forall k | 0 <= k < i - 1 :: nodes[k].id != nodes[i - 1].id;
    }
  }

  /** Inserting node by node, in order, inserts the rows of the whole run. */
  lemma RowsOfRun(wf: string, run: WorkflowDef, policy: Option<nat>, llm: set<string>, sequence: nat)
    requires DistinctIds(run.nodes)
    ensures RowsUpTo(wf, run.nodes, policy, sequence, |run.nodes|) == RunTasks(wf, run, policy, sequence)
    ensures NodesUpTo(wf, run.nodes, llm, |run.nodes|) == RunNodes(wf, run, llm)
  {
    hide NewRow, RunTasks, RunNodes, RowsUpTo, NodesUpTo;
    var rows, added := RowsUpTo(wf, run.nodes, policy, sequence, |run.nodes|), RunTasks(wf, run, policy, sequence);
    var nodes, more := NodesUpTo(wf, run.nodes, llm, |run.nodes|), RunNodes(wf, run, llm);
    forall t | t in rows || t in added || t in nodes || t in more
      ensures t in rows && t in added && t in nodes && t in more && rows[t] == added[t] && nodes[t] == more[t]
    {
      var k := Place(wf, run, policy, llm, sequence, t);
      RowAt(wf, run, policy, llm, sequence, k);
      KeepSubmit.RowOfNode(wf, run, policy, llm, sequence, k);
    }
    assert rows == added && nodes == more;
  }

  lemma RowAt(wf: string, run: WorkflowDef, policy: Option<nat>, llm: set<string>, sequence: nat, k: nat)
    requires DistinctIds(run.nodes) && k < |run.nodes|
    ensures var t, n, i := NodeTask(wf, run.nodes[k].id), run.nodes[k], |run.nodes|;
      && t in RowsUpTo(wf, run.nodes, policy, sequence, i) && t in NodesUpTo(wf, run.nodes, llm, i)
      && RowsUpTo(wf, run.nodes, policy, sequence, i)[t] == NewRow(BaseDef(n), NodeLimit(n, policy), true, sequence + k)
      && NodesUpTo(wf, run.nodes, llm, i)[t] == NodeRow(Waiting, None, n.id in llm)
  {
    hide NewRow, RowsUpTo, NodesUpTo;
    RowsUpToAre(wf, run.nodes, policy, sequence, |run.nodes|);
    NodesUpToAre(wf, run.nodes, llm, |run.nodes|);
  }

  lemma Place(wf: string, run: WorkflowDef, policy: Option<nat>, llm: set<string>, sequence: nat, t: TaskId)
    returns (k: nat)
    requires DistinctIds(run.nodes)
    requires t in RowsUpTo(wf, run.nodes, policy, sequence, |run.nodes|) || t in RunTasks(wf, run, policy, sequence)
          || t in NodesUpTo(wf, run.nodes, llm, |run.nodes|) || t in RunNodes(wf, run, llm)
    ensures k < |run.nodes| && t == NodeTask(wf, run.nodes[k].id)
  {
    hide NewRow, RowsUpTo, NodesUpTo, RunTasks, RunNodes;
    RowsUpToAre(wf, run.nodes, policy, sequence, |run.nodes|);
    NodesUpToAre(wf, run.nodes, llm, |run.nodes|);
    if t in RunTasks(wf, run, policy, sequence) || t in RunNodes(wf, run, llm) {
      k := KeepSubmit.RunPosition(wf, run, policy, llm, sequence, t);
    } else {
      k :| 0 <= k < |run.nodes| && t == NodeTask(wf, run.nodes[k].id);
    }
  }

  lemma NextIsUnique(tasks: map<TaskId, TaskRow>, a: nat, b: nat)
    requires IsNext(tasks, a) && IsNext(tasks, b)
    ensures a == b
  {
  }

  lemma NextAfter(tasks: map<TaskId, TaskRow>, t: TaskId, r: TaskRow)
    requires IsNext(tasks, r.sequence) && t !in tasks
    ensures IsNext(tasks[t := r], r.sequence + 1)
  {
    assert tasks[t := r][t].sequence + 1 == r.sequence + 1;
  }

  lemma AddedLater<K, V>(a: map<K, V>, b: map<K, V>, k: K, v: V)
    ensures (a + b)[k := v] == a + b[k := v]
  {
  }

  /** One more node. */
  lemma NewRowNumber(def: TaskDef, limit: nat, blocked: bool, sequence: nat)
    ensures NewRow(def, limit, blocked, sequence).sequence == sequence
  {
  }

  lemma InsertedNext(s: Db, m: Db, m': Db, wf: string, nodes: seq<NodeDef>, policy: Option<nat>, llm: set<string>,
                     sequence: nat, i: nat)
    requires i < |nodes| && Inserted(s, m, wf, nodes, policy, llm, sequence, i)
    requires var t, n := NodeTask(wf, nodes[i].id), nodes[i];
      && t !in m.tasks && m' == m.(tasks := m.tasks[t := NewRow(BaseDef(n), NodeLimit(n, policy), true, sequence + i)],
                                   nodes := m.nodes[t := NodeRow(Waiting, None, n.id in llm)])
    ensures Inserted(s, m', wf, nodes, policy, llm, sequence, i + 1)
  {
    var t, n := NodeTask(wf, nodes[i].id), nodes[i];
    hide NewRow, IsNext;
    var r := NewRow(BaseDef(n), NodeLimit(n, policy), true, sequence + i);
    assert r.sequence == sequence + i by { NewRowNumber(BaseDef(n), NodeLimit(n, policy), true, sequence + i); }
    NextAfter(m.tasks, t, r);
    AddedLater(s.tasks, RowsUpTo(wf, nodes, policy, sequence, i), t, r);
    AddedLater(s.nodes, NodesUpTo(wf, nodes, llm, i), t, NodeRow(Waiting, None, n.id in llm));
  }

  /** With all nodes inserted the run is submitted. */
  lemma AllInserted(s: Db, m: Db, wf: string, run: WorkflowDef, policy: Option<nat>, llm: set<string>, sequence: nat)
    requires Inserted(s, m, wf, run.nodes, policy, llm, sequence, |run.nodes|)
    requires m.runs == s.runs[wf := RunRow(run, RunPending)]
    requires FlowGuard(s, SubmitRun(wf, run, policy, llm, sequence))
    ensures m == FlowApply(s, SubmitRun(wf, run, policy, llm, sequence))
  {
    RowsOfRun(wf, run, policy, llm, sequence);
    hide RowsUpTo, NodesUpTo, RunTasks, RunNodes, IsNext, WellFormed;
  }

  // ---------------------------------------------------------------- the transaction

  lemma CappedTwice(def: TaskDef, limit: nat, sequence: nat)
    ensures NewRow(def, Capped(def, limit), true, sequence) == NewRow(def, limit, true, sequence)
  {
  }

  /** The rows of one node. */
  method InsertNode(db: Database, registry: set<string>, wf: string, n: NodeDef, policy: Option<nat>, llm: set<string>)
    returns (reply: Reply<nat>)
    modifies db
    ensures reply.Ok? <==> Insertable(old(db.tasks), registry, wf, n, policy)
    ensures reply.Ok? <==> AcceptsNode(old(db.tasks), registry, wf, n, policy)
    ensures !reply.Ok? ==> db.State() == old(db.State())
    ensures reply.Ok? ==> IsNext(old(db.tasks), reply.value)
    ensures reply.Ok? ==> db.State() == old(db.State()).(
              tasks := old(db.tasks)[NodeTask(wf, n.id) := NewRow(BaseDef(n), NodeLimit(n, policy), true, reply.value)],
              nodes := old(db.nodes)[NodeTask(wf, n.id) := NodeRow(Waiting, None, n.id in llm)])
  {
    hide IsNext;
    InsertableExactly(db.tasks, registry, wf, n, policy);
    var t, def, limit := NodeTask(wf, n.id), BaseDef(n), NodeLimit(n, policy);
    if n.handler !in registry { return Rejected(MissingHandler); }
    if t in db.tasks { return Rejected(IdempotencyConflict); }
    if !(-WORD <= def.priority < WORD) { return Rejected(InvalidArgument); }
    var inserted := TaskStore.Insert(db, t, def, limit, true);
    if inserted.Rejected? { return Rejected(inserted.failure); }
    assert NewRow(def, Capped(def, limit), true, db.tasks[t].sequence).sequence == db.tasks[t].sequence;
    CappedTwice(def, limit, db.tasks[t].sequence);
    hide NewRow;
    var sequence := db.tasks[t].sequence;
    db.nodes := db.nodes[t := NodeRow(Waiting, None, n.id in llm)];
    return Ok(sequence);
  }

  ghost predicate AllInsertable(s: Db, registry: set<string>, wf: string, nodes: seq<NodeDef>, policy: Option<nat>) {
    forall n | n in nodes :: Insertable(s.tasks, registry, wf, n, policy)
  }

  /** Inserting earlier nodes does not stand in the way of a later one. */
  lemma StillInsertable(s: Db, m: Db, registry: set<string>, wf: string, nodes: seq<NodeDef>, policy: Option<nat>,
                        llm: set<string>, sequence: nat, i: nat)
    requires i < |nodes| && Inserted(s, m, wf, nodes, policy, llm, sequence, i) && DistinctIds(nodes)
    ensures Insertable(m.tasks, registry, wf, nodes[i], policy) <==> Insertable(s.tasks, registry, wf, nodes[i], policy)
  {
    hide NewRow, RowsUpTo, NodesUpTo, IsNext, Storable;
    RowsUpToAre(wf, nodes, policy, sequence, i);
    var t := NodeTask(wf, nodes[i].id);
    assert forall k | 0 <= k < i :: nodes[k].id != nodes[i].id;
    assert t !in RowsUpTo(wf, nodes, policy, sequence, i);
  }

  /** The loop of `submit` over the nodes. */
  method InsertNodes(db: Database, registry: set<string>, wf: string, nodes: seq<NodeDef>, policy: Option<nat>,
                     llm: set<string>, sequence: nat)
    returns (reply: Reply<Unit>)
    requires DistinctIds(nodes) && IsNext(db.tasks, sequence)
    modifies db
    ensures reply.Ok? <==> AllInsertable(old(db.State()), registry, wf, nodes, policy)
    ensures reply.Ok? ==> Inserted(old(db.State()), db.State(), wf, nodes, policy, llm, sequence, |nodes|)
    ensures db.State() == old(db.State()).(tasks := db.tasks, nodes := db.nodes)
  {
    hide IsNext, NewRow, Insertable, DistinctIds;
    ghost var s := db.State();
    assert s.tasks + map[] == s.tasks && s.nodes + map[] == s.nodes;
    for i := 0 to |nodes|
      invariant Inserted(s, db.State(), wf, nodes, policy, llm, sequence, i)
      invariant db.State() == s.(tasks := db.tasks, nodes := db.nodes)
      invariant forall j | 0 <= j < i :: Insertable(s.tasks, registry, wf, nodes[j], policy)
    {
      ghost var m := db.State();
      StillInsertable(s, m, registry, wf, nodes, policy, llm, sequence, i);
      var inserted := InsertNode(db, registry, wf, nodes[i], policy, llm);
      if inserted.Rejected? {
        assert nodes[i] in nodes;
        return Rejected(inserted.failure);
      }
      NextIsUnique(m.tasks, inserted.value, sequence + i);
      NewNodeIsNew(m, registry, wf, nodes[i], policy);
      InsertedNext(s, m, db.State(), wf, nodes, policy, llm, sequence, i);
    }
    return Ok(Unit);
  }

  lemma NewNodeIsNew(m: Db, registry: set<string>, wf: string, n: NodeDef, policy: Option<nat>)
    requires Insertable(m.tasks, registry, wf, n, policy)
    ensures NodeTask(wf, n.id) !in m.tasks
  {
  }

  ghost predicate SubmittedRun(s: Db, s': Db, wf: string, run: WorkflowDef, policy: Option<nat>, llm: set<string>,
                               sequence: nat)
  {
    && FlowGuard(s, SubmitRun(wf, run, policy, llm, sequence)) && IsNext(s.tasks, sequence)
    && Advanced(FlowApply(s, SubmitRun(wf, run, policy, llm, sequence)), s', wf)
  }

  /** The row of a node that no worker has seen: it has the settings of the node, its number in the order of the
      definition and the retry limit of the policy, which is none without a policy and the cap of the node if it has one. */
  predicate NewNodeRow(n: NodeDef, policy: Option<nat>, number: nat, r: TaskRow) {
    && SettingsOf(n, r.def) && r.sequence == number && r.attempts == 0 && r.retries == 0
    && r.result == None && r.lastError == None && r.owner == None && r.session == None && r.retryAt == None
    && (policy.None? ==> r.retryLimit == 0)
    && (policy.Some? && n.maxRetries.Some? ==> r.retryLimit == n.maxRetries.value)
    && (policy.Some? && n.maxRetries.None? ==> r.retryLimit == policy.value)
    && (r.status == Pending || (r.status == Failed && r.error == Some(Error("InputBindingError", None))))
  }

  ghost predicate NewNode(s: Db, s': Db, wf: string, run: WorkflowDef, policy: Option<nat>, llm: set<string>,
                          sequence: nat, k: nat)
    requires k < |run.nodes|
  {
    var n, t := run.nodes[k], NodeTask(wf, run.nodes[k].id);
    && t !in s.tasks && t in s'.tasks && t in s'.nodes
    && NewNodeRow(n, policy, sequence + k, s'.tasks[t]) && StoredFor(s', wf, n)
    && (s'.nodes[t].llm <==> n.id in llm) && Worded(s'.nodes[t])
  }

  /** A node that has not failed has no error. */
  predicate Worded(x: NodeRow) {
    x.error == match x.state
               case Skipped => Some("dependency failed or was skipped")
               case NodeFailed => Some("input binding failed")
               case _ => None
  }

  /** The submitted workflow is in the tables as it was defined, and all other rows are as they were. */
  ghost predicate NewRun(s: Db, s': Db, wf: string, run: WorkflowDef, policy: Option<nat>, llm: set<string>,
                         sequence: nat)
  {
    && wf !in s.runs && AddsOnly(s, s', wf, run)
    && (forall k | 0 <= k < |run.nodes| :: NewNode(s, s', wf, run, policy, llm, sequence, k))
  }

  ghost predicate AddsOnly(s: Db, s': Db, wf: string, run: WorkflowDef) {
    && wf in s'.runs && s'.runs[wf].def == run
    && (forall t | t in s'.tasks && t !in s.tasks :: t in NodeTasks(wf, run.nodes))
    && (forall t | t in s.tasks :: t in s'.tasks && s'.tasks[t] == s.tasks[t])
    && (forall t | t in s.nodes :: t in s'.nodes && s'.nodes[t] == s.nodes[t])
    && s' == s.(tasks := s'.tasks, nodes := s'.nodes, runs := s.runs[wf := s'.runs[wf]])
  }

  lemma NewNodeRows(n: NodeDef, policy: Option<nat>, number: nat, r': TaskRow)
    ensures var r := NewRow(BaseDef(n), NodeLimit(n, policy), true, number);
      NewNodeRow(n, policy, number, r) && (OpenedTo(r, r') || RejectedTo(r, r') ==> NewNodeRow(n, policy, number, r'))
  {
  }

  /** The tables between the insertion and the pass. */
  lemma InsertedRun(s: Db, x: Db, wf: string, run: WorkflowDef, policy: Option<nat>, llm: set<string>, sequence: nat)
    requires FlowGuard(s, SubmitRun(wf, run, policy, llm, sequence)) && x == FlowApply(s, SubmitRun(wf, run, policy, llm, sequence))
    ensures x == s.(tasks := x.tasks, nodes := x.nodes, runs := s.runs[wf := RunRow(run, RunPending)])
    ensures x.tasks.Keys == s.tasks.Keys + NodeTasks(wf, run.nodes) && x.nodes.Keys == s.nodes.Keys + NodeTasks(wf, run.nodes)
    ensures forall t | t in s.tasks :: t !in NodeTasks(wf, run.nodes) && x.tasks[t] == s.tasks[t]
    ensures forall t | t in s.nodes && t !in NodeTasks(wf, run.nodes) :: x.nodes[t] == s.nodes[t]
  {
    RunKeys(wf, run, policy, llm, sequence);
    OutsideTheTables(s, wf, run);
    hide WellFormed, RunTasks, RunNodes, NodeTasks;
  }

  lemma RunKeys(wf: string, run: WorkflowDef, policy: Option<nat>, llm: set<string>, sequence: nat)
    ensures RunTasks(wf, run, policy, sequence).Keys == NodeTasks(wf, run.nodes) == RunNodes(wf, run, llm).Keys
  {
    hide NewRow;
  }

  lemma OutsideTheTables(s: Db, wf: string, run: WorkflowDef)
    requires forall n | n in run.nodes :: NodeTask(wf, n.id) !in s.tasks
    ensures forall t | t in s.tasks :: t !in NodeTasks(wf, run.nodes)
  {
  }

  lemma InsertedNode(s: Db, x: Db, wf: string, run: WorkflowDef, policy: Option<nat>, llm: set<string>, sequence: nat,
                     k: nat)
    requires FlowGuard(s, SubmitRun(wf, run, policy, llm, sequence)) && x == FlowApply(s, SubmitRun(wf, run, policy, llm, sequence))
    requires k < |run.nodes|
    ensures var n, t := run.nodes[k], NodeTask(wf, run.nodes[k].id);
      && t in x.tasks && x.tasks[t] == NewRow(BaseDef(n), NodeLimit(n, policy), true, sequence + k)
      && t in x.nodes && x.nodes[t] == NodeRow(Waiting, None, n.id in llm)
  {
    WorkflowStore.DistinctNodes(run.nodes);
    KeepSubmit.RowOfNode(wf, run, policy, llm, sequence, k);
    hide WellFormed, NewRow, RunTasks, RunNodes;
  }

  /** Nodes of a run that is not in the tables are not in the tables. */
  lemma NoNodesYet(s: Db, wf: string, nodes: seq<NodeDef>)
    requires Inv(s) && wf !in s.runs
    ensures forall t | t in s.nodes :: t !in NodeTasks(wf, nodes)
  {
    hide RowsOk, SessionsOk, CallsOk, HoldsOk, BudgetsOk, NodeOk, WellFormed;
    forall t | t in s.nodes ensures t !in NodeTasks(wf, nodes) { assert HasDefinition(s.runs, t); }
  }

  lemma NewNodeExactly(s: Db, x: Db, s': Db, wf: string, run: WorkflowDef, policy: Option<nat>, llm: set<string>,
                       sequence: nat, k: nat)
    requires FlowGuard(s, SubmitRun(wf, run, policy, llm, sequence)) && x == FlowApply(s, SubmitRun(wf, run, policy, llm, sequence))
    requires Reconciled(x, s', wf) && Inv(s') && k < |run.nodes|
    ensures NewNode(s, s', wf, run, policy, llm, sequence, k)
  {
    hide Inv, FlowGuard, FlowApply, NewRow, OpenedTo, RejectedTo, StoredFor, NewNodeRow, BaseDef, NodeLimit, Reconciled, NodeTasks;
    var n, t := run.nodes[k], NodeTask(wf, run.nodes[k].id);
    NotThereYet(s, wf, run, policy, llm, sequence, k);
    InsertedRun(s, x, wf, run, policy, llm, sequence);
    InsertedNode(s, x, wf, run, policy, llm, sequence, k);
    ReconciledFrame(x, s', wf);
    ReconciledRow(x, s', wf, n);
    NewNodeRows(n, policy, sequence + k, s'.tasks[t]);
    StoredExactly(s', wf, n);
  }

  lemma NotThereYet(s: Db, wf: string, run: WorkflowDef, policy: Option<nat>, llm: set<string>, sequence: nat, k: nat)
    requires FlowGuard(s, SubmitRun(wf, run, policy, llm, sequence))
    ensures wf !in s.runs && (k < |run.nodes| ==> NodeTask(wf, run.nodes[k].id) !in s.tasks)
  {
    hide WellFormed;
  }

  lemma NewRunAdds(s: Db, x: Db, s': Db, wf: string, run: WorkflowDef, policy: Option<nat>, llm: set<string>,
                   sequence: nat)
    requires FlowGuard(s, SubmitRun(wf, run, policy, llm, sequence)) && x == FlowApply(s, SubmitRun(wf, run, policy, llm, sequence))
    requires Inv(s) && Reconciled(x, s', wf)
    ensures AddsOnly(s, s', wf, run)
  {
    InsertedRun(s, x, wf, run, policy, llm, sequence);
    ReconciledFrame(x, s', wf);
    NotThereYet(s, wf, run, policy, llm, sequence, 0);
    NoNodesYet(s, wf, run.nodes);
    hide Inv, FlowGuard, FlowApply, Reconciled, NodeTasks, AddsOnly;
    AddsFrom(s, x, s', wf, run);
  }

  lemma AddsFrom(s: Db, x: Db, s': Db, wf: string, run: WorkflowDef)
    requires x == s.(tasks := x.tasks, nodes := x.nodes, runs := s.runs[wf := RunRow(run, RunPending)])
    requires var added := NodeTasks(wf, run.nodes);
      && x.tasks.Keys == s.tasks.Keys + added && x.nodes.Keys == s.nodes.Keys + added
      && s'.tasks.Keys == x.tasks.Keys && s'.nodes.Keys == x.nodes.Keys
      && (forall t | t in s.tasks :: t !in added && x.tasks[t] == s.tasks[t])
      && (forall t | t in s.nodes :: t !in added && x.nodes[t] == s.nodes[t])
      && (forall t | t in x.tasks && t !in added :: s'.tasks[t] == x.tasks[t])
      && (forall t | t in x.nodes && t !in added :: s'.nodes[t] == x.nodes[t])
    requires s' == x.(tasks := s'.tasks, nodes := s'.nodes, runs := s'.runs) && wf in s'.runs
    requires s'.runs == x.runs[wf := s'.runs[wf]] && s'.runs[wf].def == x.runs[wf].def
    ensures AddsOnly(s, s', wf, run)
  {
    hide NodeTasks;
    Added(s.tasks, x.tasks, s'.tasks, NodeTasks(wf, run.nodes));
    Added(s.nodes, x.nodes, s'.nodes, NodeTasks(wf, run.nodes));
    assert s.runs[wf := RunRow(run, RunPending)][wf := s'.runs[wf]] == s.runs[wf := s'.runs[wf]];
  }

  /** What is neither added nor touched stays. */
  lemma Added<V>(m: map<TaskId, V>, x: map<TaskId, V>, m': map<TaskId, V>, added: set<TaskId>)
    requires x.Keys == m.Keys + added && m'.Keys == x.Keys
    requires forall t | t in m :: t !in added && x[t] == m[t]
    requires forall t | t in x && t !in added :: m'[t] == x[t]
    ensures forall t | t in m' && t !in m :: t in added
    ensures forall t | t in m :: t in m' && m'[t] == m[t]
  {
    assert forall t :: t in m ==> t in x.Keys;
    assert forall t :: t in m' ==> t in x.Keys;
  }

  lemma NewRunExactly(s: Db, s': Db, wf: string, run: WorkflowDef, policy: Option<nat>, llm: set<string>, sequence: nat)
    requires Inv(s) && SubmittedRun(s, s', wf, run, policy, llm, sequence)
    requires Inv(s') && Inv(FlowApply(s, SubmitRun(wf, run, policy, llm, sequence)))
    ensures NewRun(s, s', wf, run, policy, llm, sequence)
  {
    var x := FlowApply(s, SubmitRun(wf, run, policy, llm, sequence));
    hide Inv, FlowApply, Advanced, Reconciled, NewNode, IsNext, WellFormed, NodeTasks, AddsOnly;
    ReconciledExactly(x, s', wf);
    NewRunAdds(s, x, s', wf, run, policy, llm, sequence);
    forall k | 0 <= k < |run.nodes| ensures NewNode(s, s', wf, run, policy, llm, sequence, k) {
      NewNodeExactly(s, x, s', wf, run, policy, llm, sequence, k);
    }
  }

  ghost predicate MaySubmit(s: Db, registry: set<string>, wf: string, run: WorkflowDef, policy: Option<nat>) {
    && WellFormed(run.nodes)
    && if wf in s.runs then s.runs[wf].def == run else AllInsertable(s, registry, wf, run.nodes, policy)
  }

  /** `submit`. The same definition again finds the run, another one is a conflict; a new run is inserted
      completely and advanced, or leaves no trace. */
  method SubmitWorkflow(db: Database, registry: set<string>, wf: string, run: WorkflowDef, policy: Option<nat>,
                        llm: set<string>)
    returns (reply: Reply<bool>, sequence: nat)
    requires db.Valid() && forall n | n in run.nodes :: Constructible(n)
    modifies db
    ensures reply.Ok? <==> MaySubmit(old(db.State()), registry, wf, run, policy)
    ensures reply.Ok? ==> (reply.value <==> wf !in old(db.runs))
    ensures reply.Ok? <==>
              && GraphLaws.Sound(run.nodes)
              && (wf in old(db.runs) ==> old(db.runs)[wf].def == run)
              && (wf !in old(db.runs) ==> forall n | n in run.nodes :: AcceptsNode(old(db.tasks), registry, wf, n, policy))
    ensures if reply.Ok? && reply.value then SubmittedRun(old(db.State()), db.State(), wf, run, policy, llm, sequence)
            else db.State() == old(db.State())
    ensures reply.Ok? && reply.value ==> NewRun(old(db.State()), db.State(), wf, run, policy, llm, sequence)
    ensures db.Valid() && Reaches(old(db.State()), db.State())
  {
    hide Inv, Reaches, WellFormed, GraphLaws.Sound, IsNext, Inserted, AllInsertable, AcceptsNode, Advanced, Reconciled, Constructible,
      NewRun;
    ghost var s := db.State();
    AllExactly(s, registry, wf, run.nodes, policy);
    ReachesSelf(s);
    sequence := 0;
    var ok := Validate(run.nodes);
    if !ok { return Rejected(InvalidArgument), sequence; }
    if wf in db.runs {
      if db.runs[wf].def != run { return Rejected(IdempotencyConflict), sequence; }
      return Ok(false), sequence;
    }
    sequence := NextSequence(db);
    var tasks, nodes, runs := db.tasks, db.nodes, db.runs;
    WorkflowStore.DistinctNodes(run.nodes);
    db.runs := db.runs[wf := RunRow(run, RunPending)];
    ghost var m := db.State();
    SameInsertable(s, m, registry, wf, run.nodes, policy);
    var inserted := InsertNodes(db, registry, wf, run.nodes, policy, llm, sequence);
    if inserted.Rejected? {
      db.tasks, db.nodes, db.runs := tasks, nodes, runs;
      assert db.State() == s;
      return Rejected(inserted.failure), sequence;
    }
    InsertedFrom(s, m, db.State(), wf, run.nodes, policy, llm, sequence);
    RunSubmitted(s, db.State(), registry, wf, run, policy, llm, sequence);
    ghost var x := db.State();
    var advanced := WorkflowStore.AdvanceRun(db, wf);
    ReachesTransitive(s, x, db.State());
    NewRunExactly(s, db.State(), wf, run, policy, llm, sequence);
    return Ok(true), sequence;
  }

  lemma AllExactly(s: Db, registry: set<string>, wf: string, nodes: seq<NodeDef>, policy: Option<nat>)
    ensures AllInsertable(s, registry, wf, nodes, policy) <==> forall n | n in nodes :: AcceptsNode(s.tasks, registry, wf, n, policy)
  {
    forall n | n in nodes ensures Insertable(s.tasks, registry, wf, n, policy) <==> AcceptsNode(s.tasks, registry, wf, n, policy) {
      InsertableExactly(s.tasks, registry, wf, n, policy);
    }
    hide Insertable, AcceptsNode;
  }

  lemma SameInsertable(s: Db, m: Db, registry: set<string>, wf: string, nodes: seq<NodeDef>, policy: Option<nat>)
    requires m.tasks == s.tasks
    ensures AllInsertable(m, registry, wf, nodes, policy) <==> AllInsertable(s, registry, wf, nodes, policy)
  {
  }

  lemma InsertedFrom(s: Db, m: Db, x: Db, wf: string, nodes: seq<NodeDef>, policy: Option<nat>, llm: set<string>,
                     sequence: nat)
    requires m == s.(runs := m.runs) && Inserted(m, x, wf, nodes, policy, llm, sequence, |nodes|)
    ensures Inserted(s, x, wf, nodes, policy, llm, sequence, |nodes|)
  {
    hide RowsUpTo, NodesUpTo, IsNext;
  }

  lemma RunSubmitted(s: Db, x: Db, registry: set<string>, wf: string, run: WorkflowDef, policy: Option<nat>,
                     llm: set<string>, sequence: nat)
    requires Inv(s) && wf !in s.runs && WellFormed(run.nodes) && AllInsertable(s, registry, wf, run.nodes, policy)
    requires IsNext(s.tasks, sequence) && Inserted(s, x, wf, run.nodes, policy, llm, sequence, |run.nodes|)
    requires x.runs == s.runs[wf := RunRow(run, RunPending)]
    ensures FlowGuard(s, SubmitRun(wf, run, policy, llm, sequence)) && x == FlowApply(s, SubmitRun(wf, run, policy, llm, sequence))
    ensures Reaches(s, x) && Inv(x)
  {
    hide Inv, Reaches, Inserted, WellFormed, Storable, RunTasks, RunNodes;
    AllInserted(s, x, wf, run, policy, llm, sequence);
    ReachesSelf(s);
    ReachesStep(s, s, ByWorkflow(SubmitRun(wf, run, policy, llm, sequence)));
    ReachesInv(s, x);
  }
}
