/** What one database transaction over the rows of an execution returns, and the result
    package it may write (`evidence.py`). A transaction that raises is rolled back. */
module Transactions {
  import opened Prelude
  import opened Rows

  datatype Outcome =
    | Accepted | Lost | Continuing | SawCancel | SawDeadline
    | EndedCompleted | EndedFailed | EndedTimedOut | EndedStalled | EndedCancelled | Rejected
    | NowReady | NowExpired | NowInvalid | NowRetained | NowRemoved | Requeued
    | Claimed(generation: nat, version: nat) | NotClaimed
    | Conflict(httpStatus: int) | Raised(code: string)

  datatype Tx = Tx(unit: Unit, outcome: Outcome)

  const IMMUTABLE := "final_result_package_is_immutable"

  /** `materialize_result_package` raises: a final package would have to change. */
  predicate Immutable(existing: Option<Package>, payload: string) {
    existing.Some? && existing.value.state.Final? && existing.value.digest != Sha256(payload)
  }

  /** The package row `materialize_result_package` leaves when it does not raise. */
  function Materialized(existing: Option<Package>, payload: string, final: bool, now: Time): Package {
    if existing.Some? && existing.value.state.Final? then existing.value
    else Package(if final then Final else Provisional, payload, Sha256(payload), if final then Some(now) else None)
  }

  /** Write the terminal package of `after` and commit, or roll back to `before`. */
  function Sealed(before: Unit, after: Unit, payload: string, outcome: Outcome, now: Time): Tx {
    if !IsTerminal(after.run.status) then
      Tx(before, Raised("execution_is_not_terminal"))
    else if Immutable(after.package, payload) then
      Tx(before, Raised(IMMUTABLE))
    else
      Tx(after.(package := Some(Materialized(after.package, payload, !IsInspection(after.ws.status), now))), outcome)
  }

  function FailedTask(task: TaskStatus): TaskStatus {
    if task.InProgress? || task.WaitingApproval? then TaskFailed else task
  }

  /** The execution-side fields every terminal transition of an OpenCode run sets. */
  function Ended(run: Run, status: RunStatus, stage: Stage, now: Time): Run {
    run.(status := status, stage := stage, finishedAt := Some(now), heartbeatAt := Some(now), leaseOwner := None,
         leaseExpiresAt := None)
  }

  /** The columns in which a run and its workspace must agree. */
  predicate SameBinding(run: Run, ws: Workspace) {
    && run.workspaceId == ws.id
    && run.taskId == ws.taskId
    && run.repositoryId == ws.repositoryId
    && run.baseCommit == ws.baseCommit
    && run.workspacePath == ws.opencodePath
  }

  /** The ORM session of one transaction: the locked rows of one execution. Attribute
      assignments become record updates of the fields; `Rollback` restores the rows read. */
  class Session {
    var run: Run
    var workspace: Workspace
    var task: TaskStatus
    var package: Option<Package>
    var reports: seq<RoleReport>

    constructor (unit: Unit)
      ensures Rows() == unit
    {
      run, workspace, task, package, reports := unit.run, unit.ws, unit.task, unit.package, unit.reports;
    }

    function Rows(): Unit
      reads this
    {
      Unit(run, workspace, task, package, reports)
    }

    method Rollback(unit: Unit)
      modifies this
      ensures Rows() == unit
    {
      run, workspace, task, package, reports := unit.run, unit.ws, unit.task, unit.package, unit.reports;
    }

    method FailTask()
      modifies this`task
      ensures task == FailedTask(old(task))
    {
      if task.InProgress? || task.WaitingApproval? {
        task := TaskFailed;
      }
    }

    /** `materialize_result_package`: create or overwrite the row, refusing to change a final one. */
    method Materialize(payload: string, final: bool, now: Time) returns (raised: bool)
      modifies this`package
      ensures raised <==> Immutable(old(package), payload)
      ensures package == if raised then old(package) else Some(Materialized(old(package), payload, final, now))
    {
      var digest := Sha256(payload);
      if package.Some? && package.value.state.Final? {
        return package.value.digest != digest;
      }
      if package.None? {
        package := Some(Package(if final then Final else Provisional, payload, digest,
                                  if final then Some(now) else None));
      } else {
        var row := package.value;
        row := row.(state := if final then Final else Provisional);
        row := row.(payload := payload, digest := digest, finalizedAt := if final then Some(now) else None);
        package := Some(row);
      }
      return false;
    }

    /** `materialize_terminal_result_package`, as the last step of a transaction that began with `before`. */
    method Seal(before: Unit, payload: string, success: Outcome, now: Time) returns (outcome: Outcome)
      modifies this
      ensures Tx(Rows(), outcome) == Sealed(before, old(Rows()), payload, success, now)
    {
      if !IsTerminal(run.status) {
        Rollback(before);
        return Raised("execution_is_not_terminal");
      }
      var inspectionPending := IsInspection(workspace.status);
      var raised := Materialize(payload, !inspectionPending, now);
      if raised {
        Rollback(before);
        return Raised(IMMUTABLE);
      }
      return success;
    }
  }
}
