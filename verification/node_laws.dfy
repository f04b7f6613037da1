/** What the tables show of a workflow, told from its definition: the settings that the task of a node keeps, the
    arguments that its gate opens with, and the states that a pass of reconciliation leaves. */
module NodeLaws {
  import opened Types
  import opened Rows
  import opened Bindings
  import opened Graph
  import opened GraphLaws
  import opened Protocol
  import opened Invariants
  import opened Advance
  import Dag

  // ---------------------------------------------------------------- the task of a node

  /** All that a node says of its task but the keyword arguments. */
  predicate SettingsOf(n: NodeDef, def: TaskDef) {
    && def.handler == n.handler && def.args == n.args && def.priority == n.priority && def.maxRetries == n.maxRetries
    && def.idempotent == n.idempotent && def.scheduledAt == n.scheduledAt
  }

  /** The value lies at this place in the stored result of another node. */
  predicate ReadsResult(s: Db, wf: string, source: OutputRef, value: Option<Json>) {
    && value.Some?
    && NodeTask(wf, source.node) in s.tasks && s.tasks[NodeTask(wf, source.node)].result.Some?
    && PathValue(s.tasks[NodeTask(wf, source.node)].result.value, source.path) == value
  }

  ghost predicate TargetsApart(n: NodeDef, q: seq<Part>) {
    && (forall i | 0 <= i < |n.inputs| :: Apart([Key(n.inputs[i].0)], q))
    && (forall i | 0 <= i < |n.bindings| :: Apart(n.bindings[i].target, q))
  }

  /** The arguments of the node, with the results it reads in their places and everything else as defined. */
  ghost predicate Resolves(s: Db, wf: string, n: NodeDef, kwargs: map<string, Json>) {
    && (forall i | 0 <= i < |n.inputs| :: ReadsResult(s, wf, n.inputs[i].1, PathValue(Obj(kwargs), [Key(n.inputs[i].0)])))
    && (forall i | 0 <= i < |n.bindings| :: ReadsResult(s, wf, n.bindings[i].source, PathValue(Obj(kwargs), n.bindings[i].target)))
    && (forall q | q != [] && TargetsApart(n, q) :: PathValue(Obj(kwargs), q) == PathValue(Obj(n.kwargs), q))
  }

  /** Something that the node reads is not there, or has no place in the arguments that it defines. */
  ghost predicate Unresolvable(s: Db, wf: string, n: NodeDef) {
    || (exists i | 0 <= i < |n.inputs| :: !HasResult(s, wf, n.inputs[i].1))
    || (exists i | 0 <= i < |n.bindings| ::
          n.bindings[i].target == [] || !HasResult(s, wf, n.bindings[i].source) || !Fits(Obj(n.kwargs), n.bindings[i].target))
  }

  predicate HasResult(s: Db, wf: string, source: OutputRef) {
    && NodeTask(wf, source.node) in s.tasks && s.tasks[NodeTask(wf, source.node)].result.Some?
    && PathValue(s.tasks[NodeTask(wf, source.node)].result.value, source.path).Some?
  }

  /** The task of a node is stored as the node defines it; once its gate is open its arguments are resolved. */
  ghost predicate StoredFor(s: Db, wf: string, n: NodeDef) {
    var t := NodeTask(wf, n.id);
    && t in s.tasks && SettingsOf(n, s.tasks[t].def)
    && (s.tasks[t].blocked ==> s.tasks[t].def.kwargs == n.kwargs)
    && (!s.tasks[t].blocked ==> Resolves(s, wf, n, s.tasks[t].def.kwargs))
  }

  lemma ResolvesExactly(s: Db, wf: string, n: NodeDef, kwargs: map<string, Json>)
    requires Disjoint(Slots(n)) && Materialize(n, Outputs(s.tasks, wf, n)) == Some(kwargs)
    ensures Resolves(s, wf, n, kwargs)
  {
    var slots, outputs := Slots(n), Outputs(s.tasks, wf, n);
    SlotsAre(n);
    hide Slots, Fill, FillOne, Outputs;
    forall i | 0 <= i < |slots| ensures ReadsResult(s, wf, slots[i].source, PathValue(Obj(kwargs), slots[i].target)) {
      FillWrites(Obj(n.kwargs), slots, outputs, i);
      FetchReads(s, wf, n, slots[i].source);
    }
    forall q | q != [] && TargetsApart(n, q) ensures PathValue(Obj(kwargs), q) == PathValue(Obj(n.kwargs), q) {
      forall i | 0 <= i < |slots| ensures Apart(slots[i].target, q) {
        if i < |n.inputs| {
          assert slots[i].target == [Key(n.inputs[i].0)];
        } else {
          assert Apart(n.bindings[i - |n.inputs|].target, q);
        }
      }
      FillElsewhere(Obj(n.kwargs), slots, outputs, q);
    }
    forall i | 0 <= i < |n.inputs|
      ensures ReadsResult(s, wf, n.inputs[i].1, PathValue(Obj(kwargs), [Key(n.inputs[i].0)]))
    {
      assert slots[i] == Slot([Key(n.inputs[i].0)], n.inputs[i].1);
    }
    forall i | 0 <= i < |n.bindings|
      ensures ReadsResult(s, wf, n.bindings[i].source, PathValue(Obj(kwargs), n.bindings[i].target))
    {
      assert slots[|n.inputs| + i] == Slot(n.bindings[i].target, n.bindings[i].source);
    }
  }

  lemma SourceExactly(s: Db, wf: string, n: NodeDef, source: OutputRef)
    requires source.node in SourceIds(n)
    ensures Fetch(Outputs(s.tasks, wf, n), source).Some? <==> HasResult(s, wf, source)
  {
  }

  lemma SlotExactly(s: Db, wf: string, n: NodeDef, i: nat)
    requires i < |Slots(n)|
    ensures var slot := Slots(n)[i];
      FillOne(Obj(n.kwargs), slot, Outputs(s.tasks, wf, n)).Some? <==>
        slot.target != [] && HasResult(s, wf, slot.source) && Fits(Obj(n.kwargs), slot.target)
  {
    var slot, outputs := Slots(n)[i], Outputs(s.tasks, wf, n);
    assert slot in Slots(n) && slot.source.node in SourceIds(n);
    SourceExactly(s, wf, n, slot.source);
    hide Outputs, Slots, SourceIds, Fits;
    if slot.target != [] && Fetch(outputs, slot.source).Some? {
      AssignFits(Obj(n.kwargs), slot.target, Fetch(outputs, slot.source).value);
    }
  }

  lemma KeyFits(kwargs: map<string, Json>, name: string)
    ensures Fits(Obj(kwargs), [Key(name)])
  {
    assert [Key(name)][..0] == [];
  }

  predicate SlotResolves(s: Db, wf: string, n: NodeDef, slot: Slot) {
    slot.target != [] && HasResult(s, wf, slot.source) && Fits(Obj(n.kwargs), slot.target)
  }

  lemma ResolvableSlots(s: Db, wf: string, n: NodeDef)
    ensures Unresolvable(s, wf, n) <==> exists i | 0 <= i < |Slots(n)| :: !SlotResolves(s, wf, n, Slots(n)[i])
  {
    var slots, m := Slots(n), |n.inputs|;
    SlotsAre(n);
    hide Slots, Fits, HasResult;
    forall i | 0 <= i < m ensures SlotResolves(s, wf, n, slots[i]) <==> HasResult(s, wf, n.inputs[i].1) {
      KeyFits(n.kwargs, n.inputs[i].0);
    }
    if i :| 0 <= i < |n.bindings| && !SlotResolves(s, wf, n, Slot(n.bindings[i].target, n.bindings[i].source)) {
      assert !SlotResolves(s, wf, n, slots[m + i]);
    }
    if i :| 0 <= i < |slots| && !SlotResolves(s, wf, n, slots[i]) {
      if m <= i { assert slots[i] == Slot(n.bindings[i - m].target, n.bindings[i - m].source); }
    }
  }

  lemma UnresolvableExactly(s: Db, wf: string, n: NodeDef)
    requires Disjoint(Slots(n))
    ensures Materialize(n, Outputs(s.tasks, wf, n)).None? <==> Unresolvable(s, wf, n)
  {
    FillSucceeds(Obj(n.kwargs), Slots(n), Outputs(s.tasks, wf, n));
    MaterializesIfFilled(n, Outputs(s.tasks, wf, n));
    ResolvableSlots(s, wf, n);
    hide Slots, Outputs, FillOne, Fill, Materialize, Fits, HasResult, Disjoint, Unresolvable;
    forall i | 0 <= i < |Slots(n)|
      ensures FillOne(Obj(n.kwargs), Slots(n)[i], Outputs(s.tasks, wf, n)).Some? <==> SlotResolves(s, wf, n, Slots(n)[i])
    {
      SlotExactly(s, wf, n, i);
    }
  }

  lemma MaterializesIfFilled(n: NodeDef, outputs: map<string, Json>)
    ensures Materialize(n, outputs).Some? <==> Fill(Obj(n.kwargs), Slots(n), outputs).Some?
  {
    Dag.FillKeepsObject(Obj(n.kwargs), Slots(n), outputs);
  }

  lemma FetchReads(s: Db, wf: string, n: NodeDef, source: OutputRef)
    requires Fetch(Outputs(s.tasks, wf, n), source).Some?
    ensures ReadsResult(s, wf, source, Fetch(Outputs(s.tasks, wf, n), source))
  {
  }

  /** In every valid state the task of a node is stored as the node defines it. */
  lemma StoredExactly(s: Db, wf: string, n: NodeDef)
    requires Inv(s) && wf in s.runs && n in s.runs[wf].def.nodes
    ensures StoredFor(s, wf, n)
  {
    hide RowsOk, SessionsOk, CallsOk, HoldsOk, BudgetsOk, AllSucceeded, SomeFailed, Materialize, Outputs, Resolves, HasDefinition;
    assert NodeOk(s.nodes, s.tasks, wf, n);
    var r := s.tasks[NodeTask(wf, n.id)];
    if !r.blocked { ResolvesExactly(s, wf, n, r.def.kwargs); }
  }

  // ---------------------------------------------------------------- a pass over the nodes

  /** The state of the node says how its task is. */
  predicate InStep(state: NodeState, status: Status) {
    && (state == Ready <==> status == Pending)
    && (state == NodeRunning <==> status == Running)
    && (state == NodeRetrying <==> status == Retrying)
    && (state == NodeSuccess <==> status == Success)
    && (state == NodeFailed <==> status == Failed)
  }

  predicate HasState(s: Db, wf: string, d: string, state: NodeState) {
    NodeTask(wf, d) in s.nodes && s.nodes[NodeTask(wf, d)].state == state
  }

  ghost predicate Doomed(s: Db, wf: string, n: NodeDef) {
    exists d :: DependsOn(n, d) && (HasState(s, wf, d, NodeFailed) || HasState(s, wf, d, Skipped))
  }

  ghost predicate Enabled(s: Db, wf: string, n: NodeDef) {
    forall d :: DependsOn(n, d) ==> HasState(s, wf, d, NodeSuccess)
  }

  /** The row after its gate opened, with these arguments. */
  predicate OpenedTo(r: TaskRow, r': TaskRow) {
    r' == r.(def := r.def.(kwargs := r'.def.kwargs), blocked := false)
  }

  /** The row whose arguments cannot be resolved. */
  predicate RejectedTo(r: TaskRow, r': TaskRow) {
    && r' == r.(status := Failed, error := Some(Error("InputBindingError", None)), log := r'.log)
    && r'.log == r.log + [Event(FailedEvent, Failed, r.attempts, r.retries, NoDetail)]
  }

  /** A node that waited: it is skipped, goes on waiting, is dispatched or fails, by the states of its predecessors
      after the pass. */
  ghost predicate WaitedTo(s: Db, s': Db, wf: string, n: NodeDef, x: NodeRow, x': NodeRow, r: TaskRow, r': TaskRow) {
    && (x'.state == Skipped <==> Doomed(s', wf, n))
    && (x'.state == Waiting <==> !Doomed(s', wf, n) && !Enabled(s', wf, n))
    && (x'.state == Skipped || x'.state == Waiting || x'.state == Ready || x'.state == NodeFailed)
    && (x'.state == Skipped || x'.state == Waiting ==> r' == r)
    && (x'.state == Ready ==> OpenedTo(r, r') && Resolves(s, wf, n, r'.def.kwargs))
    && (x'.state == NodeFailed <==> !Doomed(s', wf, n) && Enabled(s', wf, n) && Unresolvable(s, wf, n))
    && (x'.state == NodeFailed ==> RejectedTo(r, r'))
    && x'.llm == x.llm
    && x'.error == match x'.state
                   case Skipped => Some("dependency failed or was skipped")
                   case NodeFailed => Some("input binding failed")
                   case _ => x.error
  }

  /** One node in a pass. */
  ghost predicate NodePassed(s: Db, s': Db, wf: string, n: NodeDef) {
    var t := NodeTask(wf, n.id);
    && t in s.nodes && t in s'.nodes && t in s.tasks && t in s'.tasks
    && var x, x', r, r' := s.nodes[t], s'.nodes[t], s.tasks[t], s'.tasks[t];
       && (x.state == Waiting ==> WaitedTo(s, s', wf, n, x, x', r, r'))
       && (x.state != Waiting ==> r' == r && x'.error == x.error && x'.llm == x.llm)
       && (x.state == Skipped || x.state == NodeFailed ==> x' == x)
       && (x'.state == Waiting || x'.state == Skipped ==> r'.status == Pending && r'.blocked)
       && (x'.state != Waiting && x'.state != Skipped ==> InStep(x'.state, r'.status))
  }

  /** The run has succeeded with all its nodes, or failed when they have ended otherwise; else it is running. */
  ghost predicate RunEnds(s: Db, wf: string, nodes: seq<NodeDef>, status: RunStatus) {
    && (status == RunSuccess <==> forall n | n in nodes :: HasState(s, wf, n.id, NodeSuccess))
    && (status == RunFailed <==>
          && (exists n | n in nodes :: !HasState(s, wf, n.id, NodeSuccess))
          && forall n | n in nodes ::
               HasState(s, wf, n.id, NodeSuccess) || HasState(s, wf, n.id, NodeFailed) || HasState(s, wf, n.id, Skipped))
    && (status == RunSuccess || status == RunFailed || status == RunRunning)
  }

  /** A pass that nothing holds: the state of each dispatched node is that of its task, the others wait or were skipped
      for a reason, the run succeeds with all its nodes and fails if all have ended otherwise; nothing else changes. */
  ghost predicate Passed(s: Db, s': Db, wf: string)
    requires wf in s.runs
  {
    var nodes := s.runs[wf].def.nodes;
    && (forall n | n in nodes :: NodePassed(s, s', wf, n))
    && s'.runs.Keys == s.runs.Keys && s'.runs == s.runs[wf := RunRow(s.runs[wf].def, s'.runs[wf].status)]
    && RunEnds(s', wf, nodes, s'.runs[wf].status)
    && s' == s.(tasks := s'.tasks, nodes := s'.nodes, runs := s'.runs)
    && s'.tasks.Keys == s.tasks.Keys && s'.nodes.Keys == s.nodes.Keys
    && (forall t | t in s.tasks && t !in NodeTasks(wf, nodes) :: s'.tasks[t] == s.tasks[t])
    && (forall t | t in s.nodes && t !in NodeTasks(wf, nodes) :: s'.nodes[t] == s.nodes[t])
  }

  /** What a pass leaves, held or not. */
  ghost predicate Reconciled(s: Db, s': Db, wf: string) {
    && wf in s.runs
    && if exists h | h in s.holds :: h.scope == WorkflowScope(wf)
       then s' == s.(runs := s.runs[wf := RunRow(s.runs[wf].def, Paused)]) else Passed(s, s', wf)
  }

  // ---------------------------------------------------------------- the pass obeys the law

  lemma ShownAfter(s: Db, s': Db, wf: string, st: States, d: string)
    requires PassedWith(s, s', wf, st) && d in st
    ensures NodeTask(wf, d) in s'.nodes && s'.nodes[NodeTask(wf, d)].state == st[d]
  {
    SolutionKeys(s, wf, st);
    IdHasNode(s.runs[wf].def.nodes, d);
    var n :| n in s.runs[wf].def.nodes && n.id == d;
    hide Solves, Written, SolvesAt, TaskWritten, Materialize, Outputs;
    PassedNode(s, s', wf, st, n);
  }

  lemma StatesOfDependencies(s: Db, s': Db, wf: string, st: States, n: NodeDef)
    requires PassedWith(s, s', wf, st) && n in s.runs[wf].def.nodes && KnownIds(s.runs[wf].def.nodes)
    ensures Doomed(s', wf, n) <==> DependencyFailed(n, st)
    ensures Enabled(s', wf, n) <==> DependenciesSucceeded(n, st)
  {
    SolutionKeys(s, wf, st);
    hide Dependencies, PassedWith, DependsOn;
    var nodes := s.runs[wf].def.nodes;
    forall d | d in Dependencies(n) ensures DependsOn(n, d) && d in st && HasState(s', wf, d, st[d]) {
      assert d in Ids(nodes);
      assert d in st.Keys;
      DependsExactly(n, d);
      ShownAfter(s, s', wf, st, d);
    }
    forall d | DependsOn(n, d) ensures d in Dependencies(n) { DependsExactly(n, d); }
  }

  lemma GateWritten(r: TaskRow, kwargs: map<string, Json>)
    requires r.status == Pending && r.blocked
    ensures RowGuard(r, OpenGate(kwargs)) && RowGuard(r, FailBinding)
    ensures OpenedTo(r, RowApply(r, OpenGate(kwargs))) && RowApply(r, OpenGate(kwargs)).def.kwargs == kwargs
    ensures RejectedTo(r, RowApply(r, FailBinding)) && RowApply(r, FailBinding).status == Failed
  {
    assert r.log + [] == r.log;
  }

  /** What is written for a node that waited. */
  lemma WaitedWritten(x: NodeRow, r: TaskRow, state: NodeState, kwargs: Option<map<string, Json>>)
    requires x.state == Waiting && r.status == Pending && r.blocked
    requires state == Ready ==> kwargs.Some?
    ensures var x', r' := NodeWritten(x, state), TaskWritten(x, r, state, kwargs);
      && x'.state == state && x'.llm == x.llm
      && x'.error == (match state case Skipped => Some("dependency failed or was skipped")
                                  case NodeFailed => Some("input binding failed") case _ => x.error)
      && (state == Skipped || state == Waiting ==> r' == r)
      && (state == Ready ==> OpenedTo(r, r') && r'.def.kwargs == kwargs.value && r'.status == Pending)
      && (state == NodeFailed ==> RejectedTo(r, r') && r'.status == Failed)
  {
    GateWritten(r, if kwargs.Some? then kwargs.value else map[]);
    hide RowApply;
  }

  lemma TargetOfWaiting(s: Db, wf: string, n: NodeDef, st: States)
    requires HasNode(s, wf, n) && s.nodes[NodeTask(wf, n.id)].state == Waiting
    ensures var state := Target(s, wf, n, st);
      && (state == Skipped <==> DependencyFailed(n, st))
      && (state == Waiting <==> !DependencyFailed(n, st) && !DependenciesSucceeded(n, st))
      && (state == Skipped || state == Waiting || state == Ready || state == NodeFailed)
      && (state == Ready ==> Materialize(n, Outputs(s.tasks, wf, n)).Some?)
      && (state == NodeFailed ==> Materialize(n, Outputs(s.tasks, wf, n)).None?)
  {
    hide DependencyFailed, DependenciesSucceeded, Materialize, Outputs;
  }

  lemma NodeWaited(s: Db, s': Db, wf: string, st: States, n: NodeDef)
    requires HasNode(s, wf, n) && SolvesAt(s, wf, st, n) && WrittenAt(s, s', wf, st, n)
    requires Disjoint(Slots(n)) && s.nodes[NodeTask(wf, n.id)].state == Waiting
    requires s.tasks[NodeTask(wf, n.id)].status == Pending && s.tasks[NodeTask(wf, n.id)].blocked
    requires Doomed(s', wf, n) <==> DependencyFailed(n, st)
    requires Enabled(s', wf, n) <==> DependenciesSucceeded(n, st)
    ensures NodePassed(s, s', wf, n)
  {
    hide Doomed, Enabled, DependencyFailed, DependenciesSucceeded, Materialize, Outputs, Resolves, Disjoint, Slots, Target,
      NodeWritten, TaskWritten, OpenedTo, RejectedTo;
    var t := NodeTask(wf, n.id);
    var kwargs := Materialize(n, Outputs(s.tasks, wf, n));
    TargetOfWaiting(s, wf, n, st);
    WaitedWritten(s.nodes[t], s.tasks[t], st[n.id], kwargs);
    UnresolvableExactly(s, wf, n);
    hide Unresolvable;
    if kwargs.Some? { ResolvesExactly(s, wf, n, kwargs.value); }
  }

  lemma WrittenOtherwise(x: NodeRow, r: TaskRow, state: NodeState, kwargs: Option<map<string, Json>>)
    requires x.state != Waiting
    ensures NodeWritten(x, state) == x.(state := state) && TaskWritten(x, r, state, kwargs) == r
  {
  }

  lemma TargetOtherwise(s: Db, wf: string, n: NodeDef, st: States)
    requires HasNode(s, wf, n) && NodeOk(s.nodes, s.tasks, wf, n) && s.nodes[NodeTask(wf, n.id)].state != Waiting
    ensures var x, r, state := s.nodes[NodeTask(wf, n.id)], s.tasks[NodeTask(wf, n.id)], Target(s, wf, n, st);
      && (x.state == Skipped || x.state == NodeFailed ==> state == x.state)
      && (state == Skipped ==> r.status == Pending && r.blocked)
      && state != Waiting && (state != Skipped ==> InStep(state, r.status))
  {
    hide DependencyFailed, DependenciesSucceeded, Materialize, Outputs, Frozen, AllSucceeded, SomeFailed;
  }

  lemma NodeFollowed(s: Db, s': Db, wf: string, st: States, n: NodeDef)
    requires HasNode(s, wf, n) && SolvesAt(s, wf, st, n) && WrittenAt(s, s', wf, st, n)
    requires NodeOk(s.nodes, s.tasks, wf, n) && s.nodes[NodeTask(wf, n.id)].state != Waiting
    ensures NodePassed(s, s', wf, n)
  {
    hide NodeOk, Target, NodeWritten, TaskWritten, InStep, WaitedTo, Materialize, Outputs;
    var t := NodeTask(wf, n.id);
    TargetOtherwise(s, wf, n, st);
    WrittenOtherwise(s.nodes[t], s.tasks[t], st[n.id], Materialize(n, Outputs(s.tasks, wf, n)));
  }

  lemma NodeExactly(s: Db, s': Db, wf: string, st: States, n: NodeDef)
    requires PassedWith(s, s', wf, st) && n in s.runs[wf].def.nodes && NodeOk(s.nodes, s.tasks, wf, n)
    requires WellFormed(s.runs[wf].def.nodes)
    ensures NodePassed(s, s', wf, n)
  {
    StatesOfDependencies(s, s', wf, st, n);
    PassedNode(s, s', wf, st, n);
    WaitingIsBlocked(s, wf, n);
    assert Disjoint(Slots(n));
    hide PassedWith, WellFormed, Disjoint, NodeOk, SolvesAt, WrittenAt, Doomed, Enabled, DependencyFailed, DependenciesSucceeded,
      NodePassed;
    if s.nodes[NodeTask(wf, n.id)].state == Waiting { NodeWaited(s, s', wf, st, n); } else { NodeFollowed(s, s', wf, st, n); }
  }

  lemma WaitingIsBlocked(s: Db, wf: string, n: NodeDef)
    requires NodeOk(s.nodes, s.tasks, wf, n)
    ensures s.nodes[NodeTask(wf, n.id)].state == Waiting ==>
              s.tasks[NodeTask(wf, n.id)].status == Pending && s.tasks[NodeTask(wf, n.id)].blocked
  {
    hide Frozen, AllSucceeded, SomeFailed;
  }

  lemma StatusExactly(s: Db, s': Db, wf: string, st: States)
    requires PassedWith(s, s', wf, st)
    ensures RunEnds(s', wf, s.runs[wf].def.nodes, s'.runs[wf].status)
  {
    hide PassedWith, HasState, RunStatusOf;
    AllShownAfter(s, s', wf, st);
    StatusOfStates(s.runs[wf].def.nodes, st);
  }

  lemma AllShownAfter(s: Db, s': Db, wf: string, st: States)
    requires PassedWith(s, s', wf, st)
    ensures wf in s.runs && wf in s'.runs && s'.runs[wf].status == RunStatusOf(s.runs[wf].def.nodes, st)
    ensures forall n | n in s.runs[wf].def.nodes :: n.id in st && forall state :: HasState(s', wf, n.id, state) <==> st[n.id] == state
  {
    hide Solves, Written, RunStatusOf;
    SolutionKeys(s, wf, st);
    forall n | n in s.runs[wf].def.nodes
      ensures n.id in st && forall state :: HasState(s', wf, n.id, state) <==> st[n.id] == state
    {
      ShownAfter(s, s', wf, st, n.id);
    }
  }

  lemma StatusOfStates(nodes: seq<NodeDef>, st: States)
    requires forall n | n in nodes :: n.id in st
    ensures RunStatusOf(nodes, st) == RunSuccess <==> forall n | n in nodes :: st[n.id] == NodeSuccess
    ensures RunStatusOf(nodes, st) == RunFailed <==>
              && (exists n | n in nodes :: st[n.id] != NodeSuccess)
              && forall n | n in nodes :: st[n.id] == NodeSuccess || st[n.id] == NodeFailed || st[n.id] == Skipped
    ensures RunStatusOf(nodes, st) == RunSuccess || RunStatusOf(nodes, st) == RunFailed || RunStatusOf(nodes, st) == RunRunning
  {
  }

  lemma RunWritten(s: Db, s': Db, wf: string, st: States)
    requires PassedWith(s, s', wf, st)
    ensures wf in s.runs && s' == s.(tasks := s'.tasks, nodes := s'.nodes, runs := s'.runs)
    ensures s'.runs.Keys == s.runs.Keys && s'.runs == s.runs[wf := RunRow(s.runs[wf].def, s'.runs[wf].status)]
    ensures s'.tasks.Keys == s.tasks.Keys && s'.nodes.Keys == s.nodes.Keys
    ensures forall t | t in s.tasks && t !in NodeTasks(wf, s.runs[wf].def.nodes) :: s'.tasks[t] == s.tasks[t]
    ensures forall t | t in s.nodes && t !in NodeTasks(wf, s.runs[wf].def.nodes) :: s'.nodes[t] == s.nodes[t]
  {
    SolutionKeys(s, wf, st);
    hide Solves, WrittenAt, RunStatusOf, SolvesAt;
    assert s.tasks.Keys == s'.tasks.Keys && s.nodes.Keys == s'.nodes.Keys;
    forall t: TaskId | t.NodeTask? && t.workflow == wf && t.node in st.Keys ensures t in NodeTasks(wf, s.runs[wf].def.nodes) {
      IdHasNode(s.runs[wf].def.nodes, t.node);
    }
  }

  /** Every pass does what the tables allow it to. */
  lemma ReconciledExactly(s: Db, s': Db, wf: string)
    requires Inv(s) && Advanced(s, s', wf)
    ensures Reconciled(s, s', wf)
  {
    hide RowsOk, SessionsOk, CallsOk, HoldsOk, BudgetsOk, FlowOk, PassedWith, Passed;
    if !HeldWorkflow(s, wf) {
      var st :| PassedWith(s, s', wf, st);
      PassedExactly(s, s', wf, st);
    }
  }

  lemma PassedExactly(s: Db, s': Db, wf: string, st: States)
    requires FlowOk(s.runs, s.nodes, s.tasks) && PassedWith(s, s', wf, st)
    ensures wf in s.runs && Passed(s, s', wf)
  {
    hide FlowOk, NodeOk, WellFormed, PassedWith, NodePassed, HasNode;
    RunWritten(s, s', wf, st);
    StatusExactly(s, s', wf, st);
    GraphOfFlow(s, wf);
    forall n | n in s.runs[wf].def.nodes ensures NodePassed(s, s', wf, n) {
      NodeOfFlow(s, wf, n);
      NodeExactly(s, s', wf, st, n);
    }
  }

  lemma GraphOfFlow(s: Db, wf: string)
    requires FlowOk(s.runs, s.nodes, s.tasks) && wf in s.runs
    ensures WellFormed(s.runs[wf].def.nodes)
  {
    hide NodeOk, HasDefinition, WellFormed;
  }

  lemma ReconciledFrame(s: Db, s': Db, wf: string)
    requires Reconciled(s, s', wf)
    ensures wf in s.runs && wf in s'.runs && s'.runs == s.runs[wf := s'.runs[wf]] && s'.runs[wf].def == s.runs[wf].def
    ensures s' == s.(tasks := s'.tasks, nodes := s'.nodes, runs := s'.runs)
    ensures s'.tasks.Keys == s.tasks.Keys && s'.nodes.Keys == s.nodes.Keys
    ensures forall t | t in s.tasks && t !in NodeTasks(wf, s.runs[wf].def.nodes) :: s'.tasks[t] == s.tasks[t]
    ensures forall t | t in s.nodes && t !in NodeTasks(wf, s.runs[wf].def.nodes) :: s'.nodes[t] == s.nodes[t]
  {
    hide NodePassed, HasState, NodeTasks;
  }

  lemma ReconciledRow(s: Db, s': Db, wf: string, n: NodeDef)
    requires Reconciled(s, s', wf) && n in s.runs[wf].def.nodes && NodeTask(wf, n.id) in s.nodes && NodeTask(wf, n.id) in s.tasks
    ensures var t := NodeTask(wf, n.id);
      && t in s'.nodes && t in s'.tasks && s'.nodes[t].llm == s.nodes[t].llm
      && (s.nodes[t].state == Waiting && s.nodes[t].error == None ==>
            s'.nodes[t].error == match s'.nodes[t].state
                                 case Skipped => Some("dependency failed or was skipped")
                                 case NodeFailed => Some("input binding failed")
                                 case _ => None)
      && (s'.tasks[t] == s.tasks[t] || OpenedTo(s.tasks[t], s'.tasks[t]) || RejectedTo(s.tasks[t], s'.tasks[t]))
  {
    assert Passed(s, s', wf) ==> NodePassed(s, s', wf, n);
    hide Passed, Resolves, Doomed, Enabled, Materialize, Outputs, InStep, OpenedTo, RejectedTo;
  }
}
