/** The shared database: one field for each table, updated in place by transactions. */
module Tables {
  import opened Types
  import opened Protocol
  import opened Invariants

  datatype Failure =
    | InvalidArgument
    | WorkerAlreadyActive
    | SessionMismatch
    | RegistryError
    | WorkerNotReady
    | StopRequested
    | IdempotencyConflict
    | MissingHandler
    | StaleExecution
    | NotStopped
    | RecoveryConflict
    | UnknownWorkflow

  /** The result of a transaction that may be rolled back. */
  datatype Reply<+T> = Ok(value: T) | Rejected(failure: Failure)

  datatype Unit = Unit

  class Database {
    var tasks: map<TaskId, TaskRow>
    var sessions: map<SessionId, SessionRow>
    var registry: map<WorkerId, RegistryRow>
    var incidents: map<Case, Incident>
    var holds: set<Hold>
    var runs: map<string, RunRow>
    var nodes: map<TaskId, NodeRow>
    var attested: set<Case>
    ghost var live: set<Invocation>
    ghost var claims: map<Case, TaskRow>
    ghost var admitted: map<string, Case>

    ghost function State(): Db
      reads this
    {
      Db(tasks, sessions, registry, incidents, holds, runs, nodes, attested, live, claims, admitted)
    }

    ghost predicate Valid()
      reads this
    {
      Inv(State())
    }

    constructor ()
      ensures State() == EMPTY && Valid()
    {
      tasks, sessions, registry, incidents, holds, runs := map[], map[], map[], map[], {}, map[];
      nodes, attested, live, claims, admitted := map[], {}, {}, map[], map[];
    }
  }
}
