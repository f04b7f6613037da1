/** The rows of the shared tables: tasks with their event log, worker sessions,
    incidents, holds, workflow runs and workflow nodes. */
module Types {

  datatype Option<+T> = None | Some(value: T)

  type Time = int
  type SessionId = string
  type WorkerId = string

  /** JSON values. Integers and other numbers are told apart: only an integer counts as tokens or as an index. */
  datatype Json =
    | Null
    | Bool(b: bool)
    | Int(n: int)
    | Real(r: real)
    | Str(s: string)
    | Arr(items: seq<Json>)
    | Obj(fields: map<string, Json>)

  /** Workflow node tasks have an id derived from the workflow and the node. */
  datatype TaskId = Plain(name: string) | NodeTask(workflow: string, node: string)

  datatype Status = Pending | Running | Success | Failed | Retrying

  datatype Category = Permanent | Transient | Uncertain

  /** What the tables keep of an exception: its type name and failure category. */
  datatype Error = Error(name: string, category: Option<Category>)

  datatype EventKind =
    | Created | Submitted | Started | Succeeded | FailedEvent | RetryScheduled
    | Interrupted | ManualResolution | BudgetExceeded

  datatype Decision = Retry | Succeed | Fail

  datatype Detail = NoDetail | Output(json: Json) | Manual(decision: Decision, supplied: Json)

  datatype Event = Event(kind: EventKind, status: Status, attempt: nat, retries: nat, detail: Detail)

  datatype TaskDef = TaskDef(
    handler: string,
    args: seq<Json>,
    kwargs: map<string, Json>,
    priority: int,
    maxRetries: Option<nat>,
    idempotent: bool,
    scheduledAt: Option<Time>)

  /** One row of `tasks` together with its rows of `task_events`, in order. */
  datatype TaskRow = TaskRow(
    sequence: nat,
    def: TaskDef,
    status: Status,
    attempts: nat,
    retries: nat,
    result: Option<Json>,
    error: Option<Error>,
    lastError: Option<Error>,
    owner: Option<string>,
    session: Option<SessionId>,
    retryLimit: nat,
    retryAt: Option<Time>,
    blocked: bool,
    log: seq<Event>)

  datatype SessionState = ActiveSession | Suspect | Fenced | Stopping | Stopped

  datatype SessionRow = SessionRow(
    worker: WorkerId,
    state: SessionState,
    lastHeartbeat: Time,
    timeout: Time,
    evidence: Option<string>,
    stopRequested: bool,
    host: string)

  datatype RegistryRow = RegistryRow(session: SessionId, active: bool, lastHeartbeat: Time)

  /** `UNIQUE(task_id, attempt_count)` makes this pair the key of an incident. */
  datatype Case = Case(task: TaskId, attempt: nat)

  datatype IncidentKind = WaitStop | TaskFailure | RecoveryError

  /** Why an incident is open. A coordinator that misses the handler of a waiting task words it otherwise
      than a recovery that fails to decode a row. */
  datatype Reason = HandlerUnavailable(handler: string) | Undecodable(handler: string) | Because(text: string)

  datatype Resolution =
    | HeartbeatResumed | HandlerRestored | RetryWasScheduled | OutcomeCommitted
    | Decided(decision: Decision, extra: nat)

  datatype Incident = Incident(
    kind: IncidentKind,
    session: Option<SessionId>,
    workflow: Option<string>,
    host: Option<string>,
    reason: Reason,
    resolution: Option<Resolution>)
  {
    predicate Open() { resolution.None? }
    predicate OfOperator() { resolution.Some? && resolution.value.Decided? }
  }

  datatype Scope = TaskScope(task: TaskId) | WorkflowScope(workflow: string)

  datatype Source = ByOperator | ByIncident(incident: Case)

  datatype Hold = Hold(scope: Scope, source: Source)

  datatype NodeState = Waiting | Ready | NodeRunning | NodeRetrying | NodeSuccess | NodeFailed | Skipped

  datatype NodeRow = NodeRow(state: NodeState, error: Option<string>, llm: bool)

  datatype RunStatus = RunPending | RunRunning | RunSuccess | RunFailed | Paused

  datatype Part = Key(key: string) | Index(index: int)

  datatype OutputRef = OutputRef(node: string, path: seq<Part>)

  datatype Binding = Binding(target: seq<Part>, source: OutputRef)

  datatype NodeDef = NodeDef(
    id: string,
    handler: string,
    dependsOn: seq<string>,
    args: seq<Json>,
    kwargs: map<string, Json>,
    inputs: seq<(string, OutputRef)>,
    priority: int,
    maxRetries: Option<nat>,
    idempotent: bool,
    scheduledAt: Option<Time>,
    bindings: seq<Binding>)

  datatype Budget = Budget(maxCalls: Option<nat>, maxTokens: Option<nat>)

  datatype WorkflowDef = WorkflowDef(nodes: seq<NodeDef>, budget: Option<Budget>)

  datatype RunRow = RunRow(def: WorkflowDef, status: RunStatus)

  /** The characters that stripping a string removes. */
  predicate IsSpace(c: char) {
    var n := c as int;
    9 <= n <= 13 || 28 <= n <= 32 || 0x2000 <= n <= 0x200a || n in {0x85, 0xa0, 0x1680, 0x2028, 0x2029, 0x202f, 0x205f, 0x3000}
  }

  /** What is left when the spaces at both ends are gone. */
  function Strip(s: string): string {
    if s != "" && IsSpace(s[0]) then Strip(s[1..])
    else if s != "" && IsSpace(s[|s| - 1]) then Strip(s[..|s| - 1])
    else s
  }

  /** Identifiers, operators, reasons and evidence must not be blank. */
  predicate Blank(s: string) { forall c | c in s :: IsSpace(c) }

  /** No character that prints in ASCII is a space; blanks, tabs and line breaks are. */
  lemma PrintedIsNotBlank(s: string, c: char)
    ensures c in s && 33 <= c as int <= 126 ==> !Blank(s)
    ensures Blank("") && Blank(" \t\r\n")
  {
    assert c in s && 33 <= c as int <= 126 ==> !IsSpace(c);
  }

  /** A string is blank if and only if nothing is left of it. */
  lemma {:induction false} BlankIsStripped(s: string)
    ensures Blank(s) <==> Strip(s) == ""
  {
    if s != "" && IsSpace(s[0]) {
      BlankIsStripped(s[1..]);
      assert s == [s[0]] + s[1..];
    } else if s != "" && IsSpace(s[|s| - 1]) {
      BlankIsStripped(s[..|s| - 1]);
      assert s == s[..|s| - 1] + [s[|s| - 1]];
    } else if s != "" {
      assert s[0] in s;
    }
  }

  function Max(a: int, b: int): int { if a >= b then a else b }
}
