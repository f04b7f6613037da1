# Durable workflow engine: a verified control plane

This project models the durable control plane of a workflow engine and proves what its tables keep
under any interleaving of workers, orchestrators, recovery coordinators and operators.

The engine stores tasks, worker sessions, incidents, holds and workflow runs in one database. Every
operation is a short atomic transaction. Workers register sessions, claim tasks and report their
outcomes; sessions that fall silent are suspected, fenced and, after trusted evidence, stopped;
attempts that were interrupted are recovered; failed attempts wait as incidents, with holds that
block dispatch, for an operator; workflows are acyclic graphs whose nodes are dispatched once their
predecessors have succeeded, with arguments resolved from the predecessors' results, and generation
calls pass a call and token budget.

## How it is built

- `types`, `rows`, `bindings`, `graph`, `usage` and `protocol` define the tables and the atomic steps
  (`Protocol.Guard`, `Protocol.Apply`). Next to the tables the state has three records that no table
  holds: the business calls that are alive, the row each claim handed out, and the last generation
  call admitted per workflow.
- `invariants` and the `keep_*` files prove one invariant of all reachable states, step by step.
  `history`, `safety`, `retry_budget`, `node_budget`, `stranded` and `healing` prove what holds over whole runs;
  `lifecycle` compares the transitions with the status table of task objects.
- `tables` has the class `Database`, with one mutable field per table. `worker_registry`, `llm_usage`,
  `task_store`, `dispatch`, `outcomes`, `row_recovery`, `dag`, `workflow_store`, `workflow_submit`,
  `incidents`, `coordinator`, `tick`, `operator` and `reliable_worker` are the transactions, written as methods
  that update these fields step by step. Each is proved against the steps: its result is one step of the
  protocol, or a stated sequence of them (`Reachable.Reaches`), and a refusal changes nothing.
- `orders` and `advance` hold the graph theory of Kahn's algorithm and of the reconciliation pass.
- `row_laws`, `token_laws`, `claim_laws`, `graph_laws` and `node_laws` say what rows, budgets, claims, graphs and nodes
  mean in terms of the stored columns alone, without the functions that the steps are built from; the transactions
  promise these laws next to their steps, and `run_laws` carries them over whole runs.
- `worker_slot` is one consumer as a state machine among the steps of all others, and `shutdown` is about its end;
  `reliable_worker` has its transactions, each proved to be one move.
- `heap`, `task_queue` and `concurrent_worker` are the in-process scheduler.

## What is trusted

- Stop evidence is truthful: `ConfirmStopped`, `Confirm`, `ConfirmHost`, `ConfirmTask` and
  `RecoverInterrupted` require that no call they vouch for is alive. For a worker that drains itself
  this is proved (`WorkerSlot.ConfirmationIsTrue`).
- An executor reports after its call has returned, as the executor waits even for timed out calls
  (`src/workflow_engine/persistence.py:689-702`).
- A transaction is atomic, session identifiers are fresh and known to their worker only, and the clock of the in-process queue does not go back.

## The documentation and the code

- `docs/failure_recovery.md:130-132` says that the committed retry count and the effective retry limit govern the
  retries of an interrupted attempt, and that a changed default policy does not reset them. What is effective is the
  larger of the limit stored at submission and the `max_retries` of the task; recovery and remote reports ask it
  alone, and only the executor in the claiming process asks the stored limit as well.
  `RetryBudget.LimitBindsExactly` gives the exact condition under which the stored limit binds for submitted tasks,
  with a run of remote reports that passes it otherwise, and `NodeBudget.NodeLimitBindsExactly` the one for
  workflow nodes, with a run of recoveries.
- `docs/failure_recovery.md:275-276` offers operators a retry for a failed attempt with remaining budget.
  If the call budget refuses that retry, the failed task keeps its attempt number, its incident counts
  as decided and is never opened again, so the task can no longer be resolved
  (`Safety.RefusedRetryIsFinal`, with such a run in `Stranded.RefusedAfterGrant`).
  `Stranded.DecidableExactly` says when a failed task can still be resolved. Under a token cap this is what happens to every retried generation
  task (`Safety.OneAttemptUnderTokenCap`).
- `docs/failure_recovery.md:123-126` says that a missing handler is healed by a later scan once it is registered.
  That fails for two kinds of attempts whose recovery failed first and whose executor reported afterwards: a success
  keeps its RECOVERY_ERROR for ever (`Healing.HeldForEver`), and a retry keeps it until some coordinator misses the
  handler again (`Healing.HeldUntilMissed`). `Healing.TickHealsExactly` says that there are no others. Runs to both
  states are `Healing.ReportAfterFailedRecovery` and `Healing.RetryAfterFailedRecovery`.
- The same lines say that a waiting task without its handler is isolated. It is not if an operator decided its last
  attempt, for instance with the retry it waits for (`Tick.FirstTransaction`).
- `src/workflow_engine/remote.py:273-274` says that a worker may veto the repetition of its failure. A veto on a
  failure that is reported as a soft timeout is lost (`Outcomes.VetoedRetriesExactly`).
- `src/workflow_engine/recovery.py:181-182` says that a tick is safe to repeat. It is
  (`Tick.FirstTransaction`): by the same clock a repetition changes no task, session or hold.
- A worker shuts itself down in two transactions. A detection of its silence between them makes the second one fail,
  and the drained session stays SUSPECT until someone fences and confirms it (`Shutdown.ConfirmedExactly`).
- `src/workflow_engine/concurrency.py:48-52` describes a run that consumes until queue and slots are empty. A task
  whose claim the store refuses leaves the queue without an outcome; its row stays in the store as the refusal
  found it (`ConcurrentWorkers.EveryClaimRefused`).

## Model

| member | source | states |
|---|---|---|
| Rows.RowStepInv | src/workflow_engine/persistence.py:507-618 | Every transition of a task row keeps the agreement of the row with its event log: attempts are STARTED events, retries are RETRY_SCHEDULED events, the last event shows the status, every attempt that is over has exactly one committed end, only the last attempt of a SUCCESS has a result, an interrupted non-idempotent task is FAILED or SUCCESS, retries stay within the effective limit |
| Rows.RowStepLog | src/workflow_engine/persistence.py:403-413 | A transition ends at most the attempt that is going, and never one that has ended |
| Rows.RowStepCounts | src/workflow_engine/persistence.py:403-413 | The counters of the row stay the counts of its log through every transition |
| Rows.InterruptionIsLogged | src/workflow_engine/persistence.py:603-613 | A log records an interruption exactly when recovery or reconciliation took the row |
| Lifecycle.OutsideTheTable | src/workflow_engine/task.py:134-144 | Every transition follows the status table of task objects, except exactly the operator's result for a failed task and the refusal of a retry by the budget |
| Lifecycle.TableIsTight | src/workflow_engine/task.py:134-144 | The table allows no change of status that no transition makes |
| Types.BlankIsStripped | src/workflow_engine/worker_registry.py:149-151 | An identifier or text is refused as blank if and only if stripping leaves nothing of it |
| RowLaws.InterruptionExactly | src/workflow_engine/persistence.py:593-602 | The row of an interrupted attempt is RETRYING if and only if its task is idempotent, its handler does not reach outside and retries are below the larger of cap and stored limit; otherwise it is FAILED, as UNCERTAIN for an external handler; and all its other columns |
| RowLaws.LocalFailureExactly | src/workflow_engine/persistence.py:674-683 | The executor repeats a failure if and only if it is not vetoed, is transient or unclassified and the retries are below the stored limit, whatever the cap |
| RowLaws.RemoteFailureExactly | src/workflow_engine/remote.py:286-290 | The service repeats it by the larger of cap and stored limit |
| RowLaws.DecisionExactly | src/workflow_engine/recovery.py:404-434 | The row after each decision: a granted retry counts once and raises the stored limit by exactly the grant, a success holds the supplied result, and the failure that was decided is kept as the last one |
| RowLaws.NewRowExactly | src/workflow_engine/persistence.py:361-385 | The stored limit of a new row is the smaller of the submitted limit and the cap |
| Bindings.AssignThenRead | src/workflow_engine/dag.py:161-171 | A written target reads back the written value |
| Bindings.ReadExactly | src/workflow_engine/dag.py:96-104 | Reading a path ends with the item at that place of a list or the member of that name of an object, and fails for anything else |
| Bindings.AssignFits | src/workflow_engine/dag.py:161-171 | A value can be put exactly where an item exists or where an object may have a member |
| Bindings.AssignElsewhere | src/workflow_engine/dag.py:161-171 | Writing a target leaves every path that is apart from it unchanged |
| Bindings.AssignmentsCommute | src/workflow_engine/dag.py:144-149 | Two writes with prefix-incomparable targets commute, also in whether they fit |
| Bindings.FillSucceeds | src/workflow_engine/dag.py:156-172 | Filling fails exactly when some binding alone does not fit the static arguments |
| Bindings.FillWrites | src/workflow_engine/dag.py:156-172 | After all bindings each target still holds the value of its own source |
| Bindings.FillOrderIrrelevant | src/workflow_engine/dag.py:156-172 | Every permutation of disjoint bindings gives the same tree or fails alike |
| Dag.MaterializeMeans | src/workflow_engine/dag.py:156-172 | Resolved arguments: when they exist, what each target holds, what stays unchanged, and that the order of the bindings is irrelevant |
| Dag.WalkPath | src/workflow_engine/dag.py:96-104 | The walk along a path finds the value of the path, and nothing exactly when a part does not match its container |
| Dag.MaterializeKwargs | src/workflow_engine/dag.py:156-172 | The loop over inputs and bindings computes the resolved arguments that the lemmas above describe |
| Dag.TargetsDisjoint | src/workflow_engine/dag.py:144-149 | The nested overlap check accepts exactly the nodes whose targets are pairwise prefix-incomparable |
| Orders.OrderedIsAcyclic | src/workflow_engine/dag.py:222-244 | A graph that has a topological order has no cycle |
| Orders.StuckHasCycle | src/workflow_engine/dag.py:242-243 | If each of some nodes waits for one of them, the graph has a cycle |
| GraphLaws.DependsExactly | src/workflow_engine/dag.py:151-154 | A node depends on exactly the nodes it names and those whose results its inputs and bindings read |
| GraphLaws.TargetsExactly | src/workflow_engine/dag.py:144-149 | Targets are disjoint exactly if inputs differ in name, no binding writes into an input, and two bindings part ways before either path ends |
| GraphLaws.SoundIsWellFormed | src/workflow_engine/dag.py:212-244 | Nodes that can be ranked above all they depend on have no cycle |
| GraphLaws.OrderedIsSound | src/workflow_engine/dag.py:222-244 | The places in a topological order are such ranks |
| Dag.Index | src/workflow_engine/dag.py:223-225 | The dictionary of nodes is as long as the list exactly when the ids differ, and then finds every node |
| Dag.Link | src/workflow_engine/dag.py:226-232 | The successor lists hold exactly the dependants in definition order; an unknown dependency is found exactly when there is one |
| Dag.Complete | src/workflow_engine/dag.py:236-241 | Completing one node leaves every degree equal to the number of predecessors that are not done, and in the queue exactly the nodes that are ready |
| Dag.NothingReady | src/workflow_engine/dag.py:242-244 | When the queue is empty either all nodes are ordered or the graph has a cycle |
| Dag.TopologicalOrder | src/workflow_engine/dag.py:222-244 | The result is a permutation of the node ids with every dependency before its dependant; duplicates, unknown dependencies and cycles are reported if and only if they exist |
| UsageFacts.TotalsOfRow | src/workflow_engine/llm_usage.py:51-76 | Only the last attempt of a SUCCESS can contribute known tokens; all others count as missing |
| UsageFacts.MissingCoversRunning | src/workflow_engine/llm_usage.py:112-115 | Unknown usage covers the running calls, and exceeds them as soon as one attempt ended without known usage |
| TokenLaws.TokensOfSuccess | src/workflow_engine/llm_usage.py:83-92 | The tokens that count for a success are the nonnegative integer at `usage.total_tokens` of its stored result, and unknown for any other value there |
| TokenLaws.WorkflowSums | src/workflow_engine/llm_usage.py:77-92 | Calls and tokens of a workflow are the attempts and the reported totals of its generation tasks, and usage is unknown exactly for attempts that ended without such a report |
| TokenLaws.AdmissionExactly | src/workflow_engine/workflow_store.py:174-191 | In terms of the stored results: a call is refused if and only if the calls are used up, the reported tokens reach the cap or a call under a token cap ended without a report; it is admitted if and only if calls are left and, under a token cap, every call has reported and the sum is below it |
| TokenLaws.OneResultReachesCap | src/workflow_engine/llm_usage.py:112-113 | One stored result whose `total_tokens` reaches the cap refuses every further call of its workflow |
| LlmUsage.StatusMeans | src/workflow_engine/llm_usage.py:103-121 | What is left of a budget and what was used make up the cap until it is passed; which reason a spent budget names; waiting is for a running call only |
| LlmUsage.EndIsLogged | src/workflow_engine/llm_usage.py:73-76 | The log always knows how an attempt ended, so the columns never have to stand in |
| LlmUsage.ReadEvents | src/workflow_engine/llm_usage.py:57-72 | Reading the events gives each attempt the last word of its log |
| LlmUsage.WorkflowUsage | src/workflow_engine/llm_usage.py:42-100 | The event scan equals the totals over the attempts that the rows count: calls are the attempts of the generation tasks, successes the tasks that succeeded, tokens the totals their results report, and calls = succeeded + failed + running |
| LlmUsage.AdmitLlm | src/workflow_engine/workflow_store.py:169-191 | Said of the stored results: a call is admitted exactly when calls are left and, under a token cap, every call has reported and the reported totals are below it; a candidate of a used-up budget fails with its error and event; any other is left alone |
| KeepSessions.NoCallStopped | src/workflow_engine/worker_registry.py:212-231 | No session step stops a session that has a live call: a graceful stop finds no running row, a confirmed one is truthful |
| KeepSessions.InvKept | src/workflow_engine/worker_registry.py:158-231 | Every session step keeps the whole invariant, with one unstopped session per worker id |
| KeepStore.CommitterIsDone | src/workflow_engine/persistence.py:689-702 | An owner that may commit has no live call any more |
| KeepStore.TakenIsDone | src/workflow_engine/persistence.py:620-628 | A row that recovery may take has no live call |
| KeepStore.CallsAfterClaim | src/workflow_engine/persistence.py:523-534 | A claim adds the only live call of its task |
| KeepStore.BudgetsAfterClaim | src/workflow_engine/workflow_store.py:169-191 | An admitted claim keeps every budget, its call becoming the only one that may exceed the token cap |
| KeepStore.InvKept | src/workflow_engine/persistence.py:507-576 | Submission, claim, refusal, report and recovery of an attempt keep the whole invariant |
| KeepSubmit.SubmitRunKeeps | src/workflow_engine/workflow_store.py:55-75 | Submitting a run keeps the whole invariant |
| KeepFlow.FlowKeptByNode | src/workflow_engine/workflow_store.py:105-137 | Dispatching, rejecting, skipping or mirroring one node keeps all nodes in agreement with tasks and definitions |
| KeepRecovery.OpenedKeeps | src/workflow_engine/recovery.py:126-150 | Opening an incident keeps holds and open incidents in one-to-one agreement |
| KeepStore.ClosedKeeps | src/workflow_engine/recovery.py:152-156 | Closing an incident removes its holds and no other |
| KeepRecovery.FlowKeptByReopening | src/workflow_engine/recovery.py:355-362 | After an operator's retry or result the skipped nodes may wait again: no node is left skipped without a failed predecessor |
| KeepRecovery.InvKept | src/workflow_engine/recovery.py:364-437 | Operator decisions, incidents, pauses and attestations keep the whole invariant |
| KeepWorkflow.InvKept | src/workflow_engine/workflow_store.py:88-147 | Every step of reconciliation keeps the whole invariant |
| Reachable.ReachableInv | src/workflow_engine/persistence.py:507-628 | Every state of every interleaving of steps from empty tables satisfies the invariant |
| History.StepEffect | src/workflow_engine/persistence.py:519-534 | A step changes at most one existing task row, by one transition of that row |
| History.TaskAlong | src/workflow_engine/persistence.py:542-556 | Along a run a row stays, its log only grows, its gate never closes, its success is frozen and an attempt that is over never runs again |
| History.FixedAlong | src/workflow_engine/recovery.py:126-132 | Definitions never change and operator decisions are final |
| Safety.OneLiveCall | src/workflow_engine/persistence.py:507-534 | In every reachable state a task has at most one live business call, the one its RUNNING row names, and its session has not stopped |
| Safety.GracefulStopIsSafe | src/workflow_engine/worker_registry.py:212-231 | When a graceful stop is let through, no call of the session is alive, without any evidence from outside |
| Safety.OneOutcome | src/workflow_engine/persistence.py:542-576 | In every reachable state each attempt has exactly one committed end once it is over and none before |
| Safety.WhoEndsAnAttempt | src/workflow_engine/recovery.py:226-232 | A RUNNING row of a registered session is only moved by the exact owner and attempt while the session is ACTIVE, SUSPECT or STOPPING, or by recovery once the session stopped with evidence |
| Safety.StaleReportsStayStale | src/workflow_engine/persistence.py:546-556 | A report that is accepted was acceptable ever since its claim: once stale, refused for ever |
| Safety.ClaimsLast | src/workflow_engine/remote.py:254-261 | What a claim or a remote read handed out is still the stored row whenever its report is accepted, whatever happened in between |
| Safety.SuccessIsForever | src/workflow_engine/persistence.py:542-556 | A successful row never changes again, and logs are append-only |
| Safety.InterruptedIsNotRepeated | src/workflow_engine/recovery.py:406-410 | A non-idempotent task with an interrupted attempt is never started again, whatever recoveries, grants and decisions follow |
| Safety.RetryBounds | src/workflow_engine/persistence.py:415-428 | In every reachable state retries <= max(stored limit, submitted cap), attempts <= retries + 1, and both are counts of the log |
| Safety.StartedNodeIsFrozen | src/workflow_engine/workflow_store.py:114-123 | Once a node was dispatched its dependencies have succeeded for good, and its stored arguments are in every later state the bindings resolved against their results |
| Safety.GateOpensOnce | src/workflow_engine/workflow_store.py:121-123 | At most one step of a run opens the gate of a node |
| Safety.SkippedHasReason | src/workflow_engine/workflow_store.py:111-113 | In every reachable state a skipped node was never started and has a failed or skipped predecessor |
| Safety.BudgetsHold | src/workflow_engine/llm_usage.py:103-121 | In every reachable state started calls <= max_calls; under a token cap at most one call runs, all but the last admitted have known usage, and known tokens stay below the cap plus that last call |
| Safety.OneAttemptUnderTokenCap | src/workflow_engine/llm_usage.py:112-115 | Under a token cap no generation task is ever started a second time |
| RunLaws.BudgetIsKept | src/workflow_engine/llm_usage.py:103-121 | The budget along every run, said of the stored results: attempts of generation tasks <= max_calls; under a token cap all tasks but one have reported for every attempt, and the reported totals without that one are below the cap |
| RunLaws.StartsInTime | src/workflow_engine/persistence.py:511-528 | Along every run whatever starts a task is a claim of it that comes neither before the scheduled time of a task that was never started nor before the time set for its retry, with no hold in the way, within the budget and by an ACTIVE session that is current and not silent |
| RunLaws.RecoveryExactly | src/workflow_engine/persistence.py:590-618 | Along every run a recovery repeats an attempt if and only if the task is idempotent, does not reach outside and has retries left |
| RunLaws.EndedUnlessGranted | src/workflow_engine/recovery.py:402-417 | Along every run a task that has ended gets no further attempt unless an operator grants a retry of that attempt |
| RunLaws.ExternalCallIsNotRepeated | src/workflow_engine/failures.py:24-34 | The interruption of an external call leaves an UNCERTAIN failure, and in no run does anything but an operator's grant schedule another attempt of it |
| RunLaws.NodeIsStored | src/workflow_engine/workflow_store.py:65-75 | In every state of every run the task of a node has exactly the handler, arguments, priority, cap, idempotency and schedule of its definition, with the keyword arguments of the definition until its gate opens and with the results it reads in their places from then on |
| RunLaws.InterruptedNodeIsNotRepeated | src/workflow_engine/workflow_store.py:65-67 | A node that its definition does not declare idempotent is never started again once an attempt of it was interrupted |
| Safety.HoldsAreJustified | src/workflow_engine/recovery.py:145-147 | Every hold is a manual pause of a workflow or belongs to an open incident of that task or workflow |
| Safety.OpenIncidentBlocks | src/workflow_engine/recovery.py:87-90 | While an incident is open its task is not eligible and its workflow is held |
| Safety.IncidentHoldsLast | src/workflow_engine/recovery.py:448-455 | No resume and no other incident removes the holds of an open incident |
| Safety.HeldTaskRests | src/workflow_engine/persistence.py:511-528 | A task is not started as long as a hold covers it |
| Safety.HeldWorkflowRests | src/workflow_engine/workflow_store.py:92-97 | No gate of a workflow opens as long as a hold covers the workflow |
| Safety.DecidedFailureIsFinal | src/workflow_engine/recovery.py:130-132 | A failed attempt that an operator decided never changes again |
| Safety.RefusedRetryIsFinal | src/workflow_engine/workflow_store.py:179-188 | A granted retry that the budget refuses ends its task for ever: no operator can reach it any more |
| Stranded.RefusedAfterGrant | src/workflow_engine/recovery.py:406-417 | A reachable state in which the budget has refused the retry that an operator granted: the task is FAILED and its incident decided |
| Stranded.DecidableExactly | src/workflow_engine/recovery.py:380-384 | In any reachable state a failed task can ever move again if and only if no operator has decided its last attempt |
| Healing.ErrorProvenAlong | src/workflow_engine/recovery.py:226-233 | In every reachable state the open RECOVERY_ERROR of a running attempt was raised with proof that the attempt has ended |
| Healing.TickHealsExactly | src/workflow_engine/recovery.py:202-241 | When a coordinator that knows the handler scans any reachable state, a RECOVERY_ERROR that was open for the current attempt is still open afterwards if and only if the row is SUCCESS, or waits and the reason is not that of a waiting task |
| Healing.HeldForEver | src/workflow_engine/recovery.py:197-213 | The open incident of an attempt that has succeeded can ever be closed if and only if it is a WAIT_STOP: no scan closes a RECOVERY_ERROR of it and no operator can decide it |
| Healing.HeldUntilMissed | src/workflow_engine/recovery.py:208-213 | The open RECOVERY_ERROR with a decoding error of an attempt that will be retried is closed in no run without a coordinator that misses the handler of the waiting task, and is closed in a run with one |
| Healing.ReportAfterFailedRecovery | src/workflow_engine/recovery.py:342-353 | A reachable state of the first kind: stop confirmed for an attempt without a session, recovery refused for its missing handler, then its own report commits SUCCESS; the workflow stays held |
| Healing.RetryAfterFailedRecovery | src/workflow_engine/persistence.py:542-556 | A reachable state of the second kind: the report commits RETRYING instead; the task can be claimed at no time and the workflow stays held |
| Safety.OnlyClaimsStartCalls | src/workflow_engine/persistence.py:507-534 | Along every run a session without a live call gets one only by a claim of its own, whatever steps anyone else takes |
| Safety.SessionLifecycle | src/workflow_engine/worker_registry.py:313-361 | FENCED leads only to STOPPED, STOPPED is absorbing, and a session asked to stop is never ACTIVE again |
| Safety.RevokedNeverClaims | src/workflow_engine/worker_registry.py:282-293 | A session that was asked to stop, fenced or stopped never claims again |
| Safety.OneSessionPerWorker | src/workflow_engine/worker_registry.py:170-185 | A worker id has at most one session that has not stopped, the one its registry row names |
| RetryBudget.LimitBindsExactly | src/workflow_engine/retry.py:90-117 | The stored limit bounds the retries in all runs if and only if the submitted cap is absent or not above the submitted limit; otherwise a run through remote reports passes it |
| NodeBudget.NodeLimitBindsExactly | src/workflow_engine/workflow_store.py:68-70 | The limit stored for a workflow node bounds its retries in all runs if and only if the node has no cap, a policy was given, or the cap is 0: without a policy 0 is stored whatever the cap |
| NodeBudget.RecoveredNode | src/workflow_engine/persistence.py:423-428 | The run that passes it otherwise: recovery of an interrupted idempotent node asks the larger of cap and stored limit and schedules a retry |
| WorkerRegistry.Register | src/workflow_engine/worker_registry.py:158-187 | Registration is refused exactly for blank identifiers, an invalid timeout and while the worker id is ACTIVE; otherwise it is one session step |
| WorkerRegistry.Heartbeat | src/workflow_engine/worker_registry.py:189-210 | A heartbeat is accepted exactly from the current session that is neither fenced nor stopped, for identifiers that are not blank; its time becomes the later of the last and this one, and the session ACTIVE unless it was asked to stop |
| WorkerRegistry.Stop | src/workflow_engine/worker_registry.py:212-231 | A graceful stop is refused exactly while FENCED, while it owns a RUNNING row, or when the session is not current |
| WorkerRegistry.RequireClaimable | src/workflow_engine/worker_registry.py:282-293 | Which of the refusals a session gets, and that it passes exactly when it may claim |
| WorkerRegistry.DetectOverdue | src/workflow_engine/worker_registry.py:313-322 | Exactly the ACTIVE and STOPPING sessions whose last heartbeat is longer ago than their timeout become SUSPECT; nothing else changes |
| WorkerRegistry.Fence | src/workflow_engine/worker_registry.py:324-333 | Only a suspect is fenced, and fencing again changes nothing |
| WorkerRegistry.RequestStop | src/workflow_engine/worker_registry.py:335-341 | A stop request moves ACTIVE and SUSPECT sessions only |
| WorkerRegistry.ConfirmStopped | src/workflow_engine/worker_registry.py:343-361 | A confirmation needs evidence that is not blank and a current session that is fenced or stopping, and stops it once |
| TaskStore.NextSequence | src/workflow_engine/persistence.py:549 | The scan for the next number finds one more than the largest |
| TaskStore.Submit | src/workflow_engine/persistence.py:344-385 | Submitting is idempotent for the same definition, a conflict for another one, and otherwise adds exactly the new row, with the smaller of limit and cap as its stored limit |
| TaskStore.Claim | src/workflow_engine/persistence.py:507-534 | A claim starts the attempt exactly when the row is still the one seen, waits, is not too early, has no hold and is affordable, for a session in charge; otherwise nothing but the failure of a refused one changes |
| TaskStore.ClaimedReaches | src/workflow_engine/persistence.py:507-534 | Whatever a claim does is one step of the protocol, or none |
| TaskStore.FirstBeyond | src/workflow_engine/persistence.py:487-498 | The query returns the first candidate beyond the cursor in the order of dispatch, and nothing only if there is none |
| Dispatch.CursorStep | src/workflow_engine/persistence.py:502-505 | Between the cursor and the next candidate there is no other candidate |
| Dispatch.AdmissionUnmoved | src/workflow_engine/workflow_store.py:179-188 | Failing refused candidates admits or refuses no other task |
| Dispatch.FewerAhead | src/workflow_engine/persistence.py:502-505 | Each turn leaves fewer candidates ahead of the cursor, so the loop ends |
| ClaimLaws.EligibleExactly | src/workflow_engine/persistence.py:487-495 | A task is eligible exactly if it waits with its gate open, no hold is on it or its workflow, and neither its schedule nor its retry time is still to come |
| ClaimLaws.AdmittedExactly | src/workflow_engine/workflow_store.py:169-191 | It is admitted exactly if it is no generation task of a workflow with a budget or that budget allows another call |
| Dispatch.FirstIsTaken | src/workflow_engine/persistence.py:474-505 | The rule that the loop refines, said of the tables |
| Dispatch.ClaimNext | src/workflow_engine/persistence.py:474-505 | Said of the tables: the claim takes the first by priority and number among the affordable tasks that wait, are not too early and have a known handler; it returns nothing exactly if every affordable one is too early; exactly the unaffordable ones before it fail, and no other row changes |
| Outcomes.Finish | src/workflow_engine/persistence.py:542-576 | A report is written exactly for the running attempt of that owner and number whose session is neither fenced nor stopped, with the events that its outcome requires; otherwise nothing changes |
| Outcomes.ExecutorOutcome | src/workflow_engine/persistence.py:671-687 | The executor's decision equals the local transition, which also asks the stored limit |
| Outcomes.Restored | src/workflow_engine/remote.py:265-285 | A reported failure is refused exactly if its timeout or its category is malformed; otherwise it becomes the error and the veto that the type, the fields and the kind of handler call for |
| Outcomes.ReportExactly | src/workflow_engine/remote.py:262-291 | Which reports are malformed; and which reported failures are repeated: soft timeouts and those without a veto, if their category is transient or absent because the call does not reach outside, while retries are left |
| Outcomes.VetoedRetriesExactly | src/workflow_engine/remote.py:273-288 | A failure that its worker vetoes is repeated all the same if and only if it is reported as a soft timeout, is transient or unclassified, and retries are left |
| Outcomes.ServiceOutcome | src/workflow_engine/remote.py:262-290 | Exactly portable reports are judged, and the decision equals the remote transition, which asks only the effective cap |
| Outcomes.CommitLocal | src/workflow_engine/persistence.py:647-687 | A local report is one Commit step on the row that was claimed, or nothing; the row it leaves, column by column |
| Outcomes.ReadForReport | src/workflow_engine/remote.py:254-261 | A remote read succeeds exactly for the running attempt of that owner and session, and returns the row that was claimed |
| Outcomes.CommitRemote | src/workflow_engine/remote.py:248-291 | A report is refused exactly if it is malformed or stale; otherwise the row is the one that the report calls for, with which failures are repeated and which error is stored told from the report itself |
| RowRecovery.RetryScheduledFor | src/workflow_engine/recovery.py:70-82 | A scheduled retry settles exactly the open incident of its attempt |
| RowRecovery.RecoverRow | src/workflow_engine/persistence.py:590-618 | One row is interrupted, retried only if idempotent and within budget, or left alone when its handler is unknown |
| RowRecovery.RecoverRows | src/workflow_engine/persistence.py:590-618 | All rows are interrupted: each is repeated if and only if its task is idempotent with retries left and its handler does not reach outside, and those of external calls are UNCERTAIN failures; they keep their order behind all other rows, and exactly the incidents of retried rows are settled |
| RowRecovery.RecoverWorker | src/workflow_engine/persistence.py:620-628 | Refused unless the session stopped with evidence; otherwise exactly its RUNNING rows in order, all or none |
| RowRecovery.RecoverInterrupted | src/workflow_engine/persistence.py:578-588 | Refused while a registered session owns a RUNNING row; otherwise all RUNNING rows in order, all or none |
| Advance.UniqueSolution | src/workflow_engine/workflow_store.py:103-137 | The node-state equations of a workflow have at most one solution |
| Advance.PassIsDeterministic | src/workflow_engine/workflow_store.py:88-147 | A pass has one possible result, whatever topological order it follows |
| Advance.PassIsIdempotent | src/workflow_engine/workflow_store.py:88-147 | A second pass with no other change alters no row |
| Advance.NoStuckWorkflow | src/workflow_engine/workflow_store.py:138-144 | After a pass on an unheld workflow the run is SUCCESS or FAILED exactly when all nodes are terminal, and otherwise some node is READY, RUNNING or RETRYING |
| NodeLaws.ResolvesExactly | src/workflow_engine/dag.py:156-172 | Resolved arguments hold the stored results of the other nodes at the targets, and the defined values elsewhere |
| NodeLaws.UnresolvableExactly | src/workflow_engine/workflow_store.py:115-131 | Binding fails if and only if some result that the node reads is missing or has no place in its defined arguments |
| NodeLaws.StoredExactly | src/workflow_engine/workflow_store.py:65-75 | In every valid state each node is stored as it is defined |
| NodeLaws.ReconciledExactly | src/workflow_engine/workflow_store.py:88-147 | What a pass leaves, said of tasks and definitions without the equations |
| WorkflowStore.NodeStepIsFlowStep | src/workflow_engine/workflow_store.py:105-137 | What the loop does to a node is one guarded step of the protocol |
| WorkflowStore.BindNode | src/workflow_engine/workflow_store.py:115-131 | Binding stores the resolved arguments and opens the gate in one write, or fails the task before it ever runs |
| WorkflowStore.AdvanceNode | src/workflow_engine/workflow_store.py:105-137 | The body of the loop computes the equation of its node |
| WorkflowStore.AdvanceRun | src/workflow_engine/workflow_store.py:88-147 | The pass writes the unique solution of the node-state equations, or only pauses a held run. Afterwards every dispatched node is READY, RUNNING, RETRYING, SUCCESS or FAILED exactly as its task is PENDING, RUNNING, RETRYING, SUCCESS or FAILED; a node that waited was skipped, dispatched with resolved arguments or failed exactly for the stated reasons; and the run has succeeded or failed with its nodes |
| WorkflowSubmit.Validate | src/workflow_engine/dag.py:212-220 | A definition is accepted exactly when it is nonempty with distinct ids, known dependencies that can be ranked, and targets that part ways |
| WorkflowSubmit.NewRunExactly | src/workflow_engine/workflow_store.py:55-75 | What a submission leaves: the rows of its nodes field by field, and every other row as it was |
| WorkflowSubmit.SubmitWorkflow | src/workflow_engine/workflow_store.py:43-75 | The same definition finds the run, another is a conflict, and a new run appears completely and advanced, or leaves no trace. The task of each node is stored field by field as the node defines it, with its number, no attempt and the limit of the policy |
| Incidents.Raise | src/workflow_engine/recovery.py:126-150 | An operator's decision is left alone; any other incident of the attempt is open afterwards with this kind and reason, the session, host and workflow of its first opening, and its holds |
| Incidents.Close | src/workflow_engine/recovery.py:152-156 | The incident is resolved and exactly its holds are gone |
| Incidents.RecoverOne | src/workflow_engine/recovery.py:158-179 | A row that cannot be decoded stays RUNNING under a RECOVERY_ERROR with the decoding error as its reason; a recovered one that is not retried waits for an operator |
| Coordinator.FenceSuspects | src/workflow_engine/recovery.py:192-196 | Exactly the suspects whose grace period is over are fenced |
| Coordinator.CloseCompleted | src/workflow_engine/recovery.py:197-201 | Exactly the waiting incidents of attempts that have committed after all are closed |
| Coordinator.CheckHandlers | src/workflow_engine/recovery.py:202-213 | A waiting task with an unknown handler has the incident for it open, unless an operator decided its attempt; the incident for the handler of a waiting task whose handler is known is closed; every other incident of such a task, and everything else, is as before |
| Coordinator.ScanRow | src/workflow_engine/recovery.py:215-241 | After its turn a failure is before the operator or decided, a proven stop was recovered or is held with its decoding error, a silent attempt has its WAIT_STOP open and a live one has not |
| Coordinator.ScanRows | src/workflow_engine/recovery.py:214-241 | The scan handles every row and changes only rows whose stop is proven |
| Tick.FirstTransaction | src/workflow_engine/recovery.py:181-241 | The first transaction of a tick, as a whole: sessions suspected and fenced by their deadlines; the incidents of committed attempts closed; a waiting task with an unknown handler on hold for it if and only if no operator decided its attempt; where the handler is known, an open RECOVERY_ERROR survives exactly for a SUCCESS, for a waiting row under a decoding error and for a live session; exactly the attempts with proven stop and known handler recovered and all other rows unchanged; a failure has an open incident if and only if no operator decided it; a repetition by the same clock changes no task, session or hold |
| Tick.SessionExactly | src/workflow_engine/recovery.py:186-196 | By its deadlines a session is SUSPECT after its timeout and FENCED after the grace period, and no other changes |
| Tick.TaskExactly | src/workflow_engine/recovery.py:197-241 | What the first transaction does to each row and to the incident of its attempt, case by case from the tables |
| Tick.QuietStays | src/workflow_engine/recovery.py:181-182 | A state in which no deadline has passed and nothing is owed to any row keeps its tasks, sessions and holds through the whole scan |
| Tick.SecondTransaction | src/workflow_engine/recovery.py:257-267 | Exactly the attempts whose session has stopped with evidence are recovered, or held for their handler; every other row, and the incident of its attempt, is unchanged |
| Operator.Confirm | src/workflow_engine/recovery.py:309-318 | Exactly fenced, stopping and stopped sessions can be confirmed; confirming twice changes nothing |
| Operator.ConfirmSession | src/workflow_engine/recovery.py:320-324 | One session is confirmed exactly if operator, evidence and id are not blank and it is fenced, stopping or stopped; confirming twice changes nothing |
| Operator.ConfirmHost | src/workflow_engine/recovery.py:326-340 | The listed sessions of a host stop, all of them or none, and no other session; blank arguments and repeated or foreign sessions are refused |
| Operator.ConfirmTask | src/workflow_engine/recovery.py:342-353 | The exact attempt without a session is attested and recovered, or held under a RECOVERY_ERROR with the decoding error of its handler |
| Operator.Prepare | src/workflow_engine/recovery.py:378-412 | The checks pass exactly under the stated conditions, and a refusal undoes a reconciliation |
| Operator.AllowedExactly | src/workflow_engine/recovery.py:378-414 | Which decisions are accepted, said of the row, the incident and the proof that the attempt has ended |
| Operator.DecidesExactly | src/workflow_engine/recovery.py:404-435 | All that a decision writes before the workflow is reconciled |
| Operator.ResolveTask | src/workflow_engine/recovery.py:364-437 | A decision is accepted exactly under the stated conditions; the row is the one that the decision calls for, its node is RETRYING or SUCCESS, the skipped nodes wait again, the incident is decided without holds, and the workflow is reconciled |
| Operator.PauseWorkflow | src/workflow_engine/recovery.py:439-446 | The run is PAUSED and held, and nothing else moves |
| Operator.ResumeWorkflow | src/workflow_engine/recovery.py:448-455 | Only the manual hold goes, and the run advances if nothing else holds it |
| Heap.Push | src/workflow_engine/queue.py:70-72 | Pushing keeps the heap and adds exactly the entry |
| Heap.Pop | src/workflow_engine/queue.py:158 | Popping removes an entry that no remaining one is before, and keeps the heap and all others |
| TaskQueues.TaskQueue.Enqueue | src/workflow_engine/queue.py:46-77 | An entry is accepted exactly when it waits for its first attempt or a retry and its id is not queued; it is then queued once, under a new number, due at its scheduled time or the time of its retry, or at once |
| TaskQueues.TaskQueue.Promote | src/workflow_engine/queue.py:162-166 | Exactly the due entries are in the ready heap |
| TaskQueues.TaskQueue.Dequeue | src/workflow_engine/queue.py:153-160 | The due entry that leaves has the highest priority, and among equals came first; nothing leaves exactly when nothing is due |
| TaskQueues.TaskQueue.NextReadyDelay | src/workflow_engine/queue.py:168-174 | 0 when something is due, the time to the earliest entry otherwise, None for an empty queue |
| TaskQueues.TaskQueue.Size | src/workflow_engine/queue.py:181-184 | The size of the id set is the number of entries in both heaps |
| ConcurrentWorkers.Lands | src/workflow_engine/concurrency.py:98-110 | A task whose execution completed is in exactly one place again: the queue, an end or the store |
| ConcurrentWorkers.ConcurrentWorker.Fill | src/workflow_engine/concurrency.py:59-74 | Filling free slots stops at a stop request, or when all are taken or nothing is due, and loses no task; before each start it has seen no stop |
| ConcurrentWorkers.ConcurrentWorker.WaitAndStart | src/workflow_engine/concurrency.py:76-93 | Waiting starts the task that is first in line when it becomes due, or leaves it queued when a stop is seen |
| ConcurrentWorkers.ConcurrentWorker.Release | src/workflow_engine/concurrency.py:103-110 | A task whose claim the store refused leaves its slot; unless the policy of the worker repeats it, it is not queued again and goes back to the store |
| ConcurrentWorkers.ConcurrentWorker.Complete | src/workflow_engine/concurrency.py:102-110 | By what the executor answers, the task is queued again, has ended or is back in the store, and the bound on remaining attempts falls; an exception leaves all as it was |
| ConcurrentWorkers.ConcurrentWorker.Collect | src/workflow_engine/concurrency.py:98-110 | Exactly the completed executions leave their slots, in the order of their submission, and the bound on remaining attempts strictly falls; an exception of one of them ends the loop |
| ConcurrentWorkers.ConcurrentWorker.Turn | src/workflow_engine/concurrency.py:58-110 | Each round of the outer loop comes closer to the end of the run or ends it; it waits only when it can fill no slot, and starts nothing after a stop |
| ConcurrentWorkers.ConcurrentWorker.Run | src/workflow_engine/concurrency.py:47-113 | For attempts, refused claims and exceptions alike: the consumer ends with at most max_workers in flight, and accepted tasks are partitioned into queued, in flight, finished and handed back. A return without a stop leaves the queue empty, and then every accepted task is SUCCESS or FAILED if and only if none was handed back; without a retry policy of the worker, if and only if no claim was refused |
| ConcurrentWorkers.EveryClaimRefused | src/workflow_engine/persistence.py:655-658 | A run without a stop on one waiting task whose claims are refused returns with an empty queue and the task neither queued nor finished |
| WorkerSlot.StartsDrained | src/workflow_engine/worker_registry.py:158-187 | A worker that has just registered has no live call |
| WorkerSlot.ReportIsAStep | src/workflow_engine/persistence.py:542-576 | After its call the report of the executor is refused for its row or its session and for nothing else |
| WorkerSlot.ConfirmationIsTrue | src/workflow_engine/reliable_worker.py:175-180 | When the runtime vouches that its invocations have ended, they have |
| WorkerSlot.SlotIsSafe | src/workflow_engine/reliable_worker.py:162-207 | Claim, call, report, drain, stop request and confirmation are moves of their own, with any steps of others between them: in every trace the worker takes part in a run of the protocol, and its session has no live call except the one it is waiting for |
| Shutdown.ConfirmedExactly | src/workflow_engine/reliable_worker.py:177-184 | The confirmation is accepted if and only if the session is still current and every suspicion after the request was followed by a heartbeat, a fence or another stop; the session ends STOPPED with evidence if and only if every suspicion was; otherwise it stays SUSPECT and keeps its worker id |
| Shutdown.NotOverdueIsEnough | src/workflow_engine/worker_registry.py:313-322 | No detection between request and confirmation can cause that if none reads a clock beyond the last heartbeat plus the timeout |
| Shutdown.RefusedConfirmation | src/workflow_engine/worker_registry.py:343-353 | From every current session that is not stopped and overdue: request, detection, refused confirmation, and the session stays SUSPECT |
| Shutdown.RefusedAfterRegistration | src/workflow_engine/reliable_worker.py:171-184 | That run from empty tables, with no call alive at its end |
| ReliableWorkers.ReliableWorker.TakeWork | src/workflow_engine/reliable_worker.py:188-200 | One claim of the consumer is the claim move of the slot: a call, another turn, or the end of the loop, as the claim answers |
| ReliableWorkers.ReliableWorker.ReportCall | src/workflow_engine/reliable_worker.py:201-207 | The report is the report move of the slot: one commit if the claim still stands, and the end of the loop otherwise |
| ReliableWorkers.ReliableWorker.AskToStop | src/workflow_engine/reliable_worker.py:178 | The stop request is a move of its own and finds a replaced session exactly |
| ReliableWorkers.ReliableWorker.ConfirmStop | src/workflow_engine/reliable_worker.py:179-184 | The confirmation is a move of its own and is accepted exactly for a current session that is fenced, stopping or stopped |

## Left out

- TaskStore.Claim: reads the clock once per transaction and does not repeat the conditions in the final update, which cannot fail inside the transaction.
- LlmUsage.WorkflowUsage: keeps `total_tokens` only; prompt and completion tokens are summed the same way and gate nothing.
- ConcurrentWorkers.ConcurrentWorker.Run: tasks are not submitted from outside during the run, an operator grants no attempts during it, polling waits that return nothing are not modelled, and a refused claim hands back a copy of the stored row, never the queued object itself as it does for a task whose row was deleted.
- Outcomes.Restored: the checks that a reported object has its keys with the right JSON types are not modelled, nor is its message.
- TaskQueues.TaskQueue.Dequeue: entries are values, so a caller that mutates a queued task object is not modelled.
- WorkflowStore.BindNode: the argument tree is updated as a value, not as nested mutable containers; the engine fills a deep copy that nothing else refers to.
- Operator.ResolveTask: operator names, reasons and the text of a resolution are reduced to the decision itself.
- ReliableWorkers.ReliableWorker.TakeWork: the loop around the transactions, the heartbeat thread and a failed start of the threads are not methods; `WorkerSlot.Trace` allows the moves in every order that the loop does.
- The loop of a tick over unfinished workflows, one `_advance` per transaction, and the calls of the stop verifier between its transactions.
- `TaskQueue._refresh_persistent`, `TaskQueue.dequeue_wait` for several consumers, the synchronous `Worker.run` and `WorkerLoop`.
- The HTTP management API, RPC transport, TLS, authentication, metrics and OpenAPI.
- Model, tool and HTTP adapters and the classification of their failures: a call ends with any JSON result or any failure with any category.
- SQL text, write-ahead logging, savepoints, the connection pool and the writer queue: a transaction is one method, a failed one changes nothing.
- Schema migration, RESTORED histories and priorities outside 64 bits in old databases.
- Threads, locks, condition waits and soft timeouts.
- Wall-clock details and floating-point backoff: times are integers and a delay is any natural number.
- JSON text encoding and decoding errors other than an unknown handler; task names and timeouts as part of a definition.
- The audit tables `recovery_events` and `worker_session_events`, except the attestation that recovery reads, and the columns `registered_at`, `stopped_at`, `created_at` and `updated_at`.
- Incident identifiers: an incident is named by its task and attempt, which the schema keeps unique; node rows are named by their task.
- Task identifiers of nodes are derived from workflow and node without collision.
- Read models, snapshots, benchmarks and deployment.
