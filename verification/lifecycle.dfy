/** The status table of task objects (`task.py`) against the transitions of the stored rows. */
module Lifecycle {
  import opened Types
  import opened Rows

  /** Which assignments to the status of a task object are allowed. */
  predicate Allowed(from: Status, to: Status) {
    match from
    case Pending => to in {Pending, Running, Failed}
    case Running => to in {Success, Failed}
    case Failed => to in {Failed, Retrying}
    case Retrying => to in {Retrying, Running}
    case Success => to == Success
  }

  /** The statuses that a transition passes through, as its events record them, follow the table. */
  ghost predicate Follows(r: TaskRow, a: RowAction) {
    var entries := Entries(r, a);
    && (entries != [] ==> Allowed(r.status, entries[0].status))
    && (|entries| == 2 ==> Allowed(entries[0].status, entries[1].status))
  }

  /** The rows leave the table in two places only, both written without a task object: an operator's
      result for a failed task, and the refusal of a retry by the budget. */
  lemma OutsideTheTable(r: TaskRow, a: RowAction)
    requires RowGuard(r, a)
    ensures Follows(r, a) <==> !(a.Resolve? && a.decision == Succeed) && !(a.RefuseBudget? && r.status == Retrying)
  {
    if a.Resolve? { assert a.decision == Decision.Retry ==> Entries(r, a)[1].status == Retrying; }
  }

  /** Some transition of some row passes from one status to the other. */
  ghost predicate Taken(from: Status, to: Status) {
    exists r: TaskRow, a: RowAction :: RowGuard(r, a) && PassesThrough(r, a, from, to)
  }

  ghost predicate PassesThrough(r: TaskRow, a: RowAction, from: Status, to: Status) {
    var entries := Entries(r, a);
    || (1 <= |entries| && r.status == from && entries[0].status == to)
    || (|entries| == 2 && entries[0].status == from && entries[1].status == to)
  }

  /** The table allows no change of status that no transition makes. */
  lemma TableIsTight(from: Status, to: Status)
    requires from != to && Allowed(from, to)
    ensures Taken(from, to)
  {
    var row := NewRow(TaskDef("handler", [], map[], 0, None, true, None), 1, false, 0).(status := from);
    var error := Error("StoredTaskError", None);
    match (from, to) {
      case (Pending, Running) => assert PassesThrough(row, Start("owner", None), from, to);
      case (Pending, Failed) => assert PassesThrough(row, RefuseBudget, from, to);
      case (Running, Success) => assert PassesThrough(row, FinishSuccess(Null, 0), from, to);
      case (Running, Failed) => assert PassesThrough(row, FinishFailure(error, true, RemoteService, 0, 0, 0), from, to);
      case (Failed, Retrying) => assert PassesThrough(row, Resolve(Decision.Retry, 0, Null, None), from, to);
      case (Retrying, Running) => assert PassesThrough(row, Start("owner", None), from, to);
      case _ => assert false;
    }
  }
}
