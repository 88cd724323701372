/** `workspace_manager.py`: the leased prepare / inspect / cleanup lifecycle of a workspace. */
module WorkspaceLeases {
  import opened Prelude
  import opened Rows
  import opened Transactions

  datatype Operation = Prepare | Inspect | Cleanup

  datatype Config = Config(worker: string, leaseSeconds: nat, retryBase: nat, retryMax: nat, maxPrepareFailures: nat,
                           root: string)

  datatype Lease = Lease(operation: Operation, generation: nat, version: nat, repositoryId: Uuid, baseCommit: string,
                         opencodePath: Path)

  datatype Prepared = Prepared(tree: string, trackedEntries: int, preflightDigest: string)

  /** The validated result of an inspection (see the Porcelain module for its validation). */
  datatype Inspection = Inspection(head: string, tree: string, changeDigest: string, hasChanges: bool,
                                   changedFileCount: nat)

  /** The repository row as `assert_repository_ready` reads it. */
  datatype Trust = Trusted | TrustRevoked | NotReady

  function OperationFor(status: WorkspaceStatus): Option<Operation> {
    match status
    case WsPending | WsUnavailable | WsPreparing => Some(Prepare)
    case WsInspectionPending | WsInspecting => Some(Inspect)
    case WsCleanupPending | WsCleaning => Some(Cleanup)
    case _ => None
  }

  function ActiveStatus(op: Operation): WorkspaceStatus {
    match op
    case Prepare => WsPreparing
    case Inspect => WsInspecting
    case Cleanup => WsCleaning
  }

  /** `request_workspace_inspection`; None when it raises. */
  function InspectionRequested(ws: Workspace, now: Time): Option<Workspace> {
    if ws.status.WsRemoved? || ws.status.WsInvalid? || IsInspection(ws.status) then Some(ws)
    else if !ws.status.WsReady? then None
    else Some(ws.(status := WsInspectionPending, inspectionRequestedAt := Some(now), nextAttemptAt := Some(now),
                  leaseOwner := None, leaseExpiresAt := None, version := ws.version + 1))
  }

  /** End the run: queue its inspection, write its package and commit; or roll back to `before`. */
  function Closed(before: Unit, run: Run, task: TaskStatus, payload: string, outcome: Outcome, now: Time): Tx {
    match InspectionRequested(before.ws, now)
    case None => Tx(before, Raised("workspace_cannot_be_inspected"))
    case Some(ws) => Sealed(before, before.(run := run, task := task, ws := ws), payload, outcome, now)
  }

  /** `_binding_error`. */
  function BindingError(run: Run, ws: Workspace, op: Operation, root: string): Option<string> {
    if !SameBinding(run, ws) then Some("workspace_database_binding_mismatch")
    else if NormalizeCommit(ws.baseCommit).None? then Some("base_commit_invalid")
    else if ws.opencodePath != Path(root, ws.id) then Some("workspace_path_mismatch")
    else EvidenceError(run, ws, op)
  }

  function EvidenceError(run: Run, ws: Workspace, op: Operation): Option<string> {
    var some := ws.initialTree.Some? || ws.trackedEntries.Some? || ws.preflightDigest.Some?;
    var all := ws.initialTree.Some? && ws.trackedEntries.Some? && ws.preflightDigest.Some?;
    if op == Inspect && !all then Some("workspace_preflight_evidence_missing")
    else if !some then None
    else if !all then Some("workspace_preflight_evidence_incomplete")
    else if NormalizeCommit(ws.initialTree.value).None? then Some("initial_tree_invalid")
    else if ws.trackedEntries.value < 0 || !IsHex64(ws.preflightDigest.value)
           then Some("workspace_preflight_evidence_invalid")
    else if run.workspaceTree != NormalizeCommit(ws.initialTree.value) || run.preflightDigest != ws.preflightDigest
            || run.preflightCompletedAt.None? then Some("workspace_execution_evidence_mismatch")
    else None
  }

  /** `_invalidate_binding`: the workspace becomes invalid; a live run fails with it. */
  function Invalidated(u: Unit, code: string, payload: string, outcome: Outcome, now: Time): Tx {
    var ws := u.ws.(status := WsInvalid, nextAttemptAt := None, leaseOwner := None, leaseExpiresAt := None,
                    lastErrorCode := Some(code), version := u.ws.version + 1);
    if IsActive(u.run.status) then
      var run := Ended(u.run, Failed, WorkspaceBindingRejected, now).(leaseGeneration := u.run.leaseGeneration + 1);
      Sealed(u, u.(run := run, ws := ws, task := FailedTask(u.task)), payload, outcome, now)
    else
      Tx(u.(ws := ws), outcome)
  }

  /** `_expire_preparing_execution`. */
  function Expired(u: Unit, payload: string, outcome: Outcome, now: Time): Tx {
    var run := Ended(u.run, Failed, WorkspacePreflightTimedOut, now).(leaseGeneration := u.run.leaseGeneration + 1);
    var ws := u.ws.(status := WsCleanupPending, cleanupRequestedAt := Some(now), nextAttemptAt := Some(now),
                    leaseOwner := None, leaseExpiresAt := None, lastErrorCode := Some("execution_deadline_elapsed"),
                    version := u.ws.version + 1);
    Sealed(u, u.(run := run, ws := ws, task := FailedTask(u.task)), payload, outcome, now)
  }

  predicate Claimable(ws: Workspace, now: Time) {
    || (IsWaiting(ws.status) && ws.nextAttemptAt.Some? && ws.nextAttemptAt.value <= now)
    || (IsLeased(ws.status) && ws.leaseExpiresAt.Some? && ws.leaseExpiresAt.value <= now)
  }

  /** `claim_available`, for one claimable row. */
  function Claim(c: Config, u: Unit, payload: string, now: Time): Tx {
    if !Claimable(u.ws, now) || OperationFor(u.ws.status).None? then Tx(u, NotClaimed) else
    var op := OperationFor(u.ws.status).value;
    var fault := BindingError(u.run, u.ws, op, c.root);
    if fault.Some? then Invalidated(u, fault.value, payload, NotClaimed, now)
    else if op == Prepare && (u.run.cancelRequestedAt.Some? || IsTerminal(u.run.status)) then
      Tx(u.(ws := u.ws.(status := WsCleanupPending, cleanupRequestedAt := Some(now), nextAttemptAt := Some(now),
                        leaseOwner := None, leaseExpiresAt := None, version := u.ws.version + 1)), NotClaimed)
    else if op == Prepare && !u.run.status.Preparing? then
      Invalidated(u, "preparation_execution_state_invalid", payload, NotClaimed, now)
    else if op == Prepare && (u.run.deadlineAt.None? || u.run.deadlineAt.value <= now) then
      Expired(u, payload, NotClaimed, now)
    else if op == Inspect && !IsTerminal(u.run.status) then
      Invalidated(u, "inspection_before_execution_terminal", payload, NotClaimed, now)
    else if op == Cleanup && !IsTerminal(u.run.status) then
      Invalidated(u, "cleanup_before_execution_terminal", payload, NotClaimed, now)
    else
      Tx(u.(ws := u.ws.(generation := u.ws.generation + 1, version := u.ws.version + 1, status := ActiveStatus(op),
                        startedAt := if op == Prepare then Some(now) else u.ws.startedAt, nextAttemptAt := None,
                        leaseOwner := Some(c.worker), leaseExpiresAt := Some(now + c.leaseSeconds * SECOND))),
         Claimed(u.ws.generation + 1, u.ws.version + 1))
  }

  /** `_locked_owned_workspace`. */
  predicate Owned(c: Config, ws: Workspace, lease: Lease, now: Time) {
    && ws.status == ActiveStatus(lease.operation)
    && ws.version == lease.version
    && ws.generation == lease.generation
    && ws.leaseOwner == Some(c.worker)
    && ws.leaseExpiresAt.Some?
    && ws.leaseExpiresAt.value > now
  }

  function Heartbeat(c: Config, u: Unit, lease: Lease, now: Time): Tx {
    if !Owned(c, u.ws, lease, now) then Tx(u, Lost)
    else Tx(u.(ws := u.ws.(leaseExpiresAt := Some(now + c.leaseSeconds * SECOND))), Accepted)
  }

  /** `mark_prepare_success`; the prepared tree becomes the evidence of both rows. */
  function MarkPrepareSuccess(c: Config, u: Unit, lease: Lease, result: Prepared, trust: Trust, payload: string,
                              now: Time): Tx {
    if NormalizeCommit(result.tree).None? then Tx(u, Raised("initial_tree_invalid"))
    else if result.trackedEntries < 0 || !IsHex64(result.preflightDigest)
           then Tx(u, Raised("workspace_preflight_result_invalid"))
    else if !Owned(c, u.ws, lease, now) then Tx(u, Lost)
    else if BindingError(u.run, u.ws, Prepare, c.root).Some? then
      Invalidated(u, BindingError(u.run, u.ws, Prepare, c.root).value, payload, NowInvalid, now)
    else if trust == TrustRevoked then Tx(u, Raised("repository_trust_revoked"))
    else if trust == NotReady then Tx(u, Raised("repository_not_ready"))
    else if !u.run.status.Preparing? || u.run.cancelRequestedAt.Some? || u.run.repositoryId != lease.repositoryId
            || u.run.baseCommit != lease.baseCommit || u.run.workspacePath != lease.opencodePath then Tx(u, Lost)
    else if u.run.deadlineAt.None? || u.run.deadlineAt.value <= now then Expired(u, payload, NowExpired, now)
    else
      var tree := NormalizeCommit(result.tree);
      Tx(u.(ws := u.ws.(status := WsReady, initialTree := tree, preflightDigest := Some(result.preflightDigest),
                        trackedEntries := Some(result.trackedEntries), currentHead := Some(lease.baseCommit),
                            currentTree := tree,
                        hasChanges := Some(false), changedFileCount := Some(0), preparedAt := Some(now),
                            nextAttemptAt := None,
                        leaseOwner := None, leaseExpiresAt := None, failureCount := 0, lastErrorCode := None,
                        version := u.ws.version + 1),
            run := u.run.(status := Queued, stage := DispatchPending, workspaceTree := tree,
                          preflightDigest := Some(result.preflightDigest), preflightCompletedAt := Some(now))),
         NowReady)
  }

  /** The workspace columns an inspection fills in when its result is retained. */
  function WithInspection(ws: Workspace, result: Inspection, now: Time): Workspace {
    ws.(status := WsRetained, currentHead := Some(result.head), currentTree := Some(result.tree),
        changeDigest := Some(result.changeDigest), hasChanges := Some(result.hasChanges),
        changedFileCount := Some(result.changedFileCount as int), inspectedAt := Some(now), nextAttemptAt := None,
        leaseOwner := None, leaseExpiresAt := None, version := ws.version + 1)
  }

  function MarkInspectionSuccess(c: Config, u: Unit, lease: Lease, result: Inspection, payload: string, now: Time): Tx {
    if !Owned(c, u.ws, lease, now) then Tx(u, Lost)
    else if BindingError(u.run, u.ws, Inspect, c.root).Some? then
      Invalidated(u, BindingError(u.run, u.ws, Inspect, c.root).value, payload, NowInvalid, now)
    else
      var ws := WithInspection(u.ws, result, now).(failureCount := 0, lastErrorCode := None);
      if !IsTerminal(u.run.status) then Tx(u.(ws := ws), NowRetained) else
      if Immutable(u.package, payload) then Tx(u, Raised(IMMUTABLE))
      else Tx(u.(ws := ws, package := Some(Materialized(u.package, payload, true, now))), NowRetained)
  }

  function MarkCleanupSuccess(c: Config, u: Unit, lease: Lease, payload: string, now: Time): Tx {
    if !Owned(c, u.ws, lease, now) then Tx(u, Lost)
    else if BindingError(u.run, u.ws, Cleanup, c.root).Some? then
      Invalidated(u, BindingError(u.run, u.ws, Cleanup, c.root).value, payload, NowInvalid, now)
    else
      Tx(u.(ws := u.ws.(status := WsRemoved, cleanedAt := Some(now), nextAttemptAt := None, leaseOwner := None,
                        leaseExpiresAt := None, lastErrorCode := None, version := u.ws.version + 1)), NowRemoved)
  }

  function MarkCleanupRetained(c: Config, u: Unit, lease: Lease, result: Inspection, payload: string, now: Time): Tx {
    if !Owned(c, u.ws, lease, now) then Tx(u, Lost)
    else if BindingError(u.run, u.ws, Cleanup, c.root).Some? then
      Invalidated(u, BindingError(u.run, u.ws, Cleanup, c.root).value, payload, NowInvalid, now)
    else
      Tx(u.(ws := WithInspection(u.ws, result, now).(lastErrorCode := Some("workspace_changed_cleanup_blocked"))),
         NowRetained)
  }

  function RetryAt(c: Config, failures: nat, now: Time): Time {
    now + Backoff(c.retryBase, c.retryMax, Max(0, failures - 1) as nat, 20) * SECOND
  }

  /** `mark_failure`: retry later, or give up and end what depended on the operation. */
  function MarkFailure(c: Config, u: Unit, lease: Lease, code: string, terminal: bool, payload: string, now: Time): Tx {
    if !Owned(c, u.ws, lease, now) then Tx(u, Lost)
    else if BindingError(u.run, u.ws, lease.operation, c.root).Some? then
      Invalidated(u, BindingError(u.run, u.ws, lease.operation, c.root).value, payload, NowInvalid, now)
    else
      var failures := u.ws.failureCount + 1;
      var ws := u.ws.(failureCount := failures, leaseOwner := None, leaseExpiresAt := None,
                      lastErrorCode := Some(code), version := u.ws.version + 1);
      var givenUp := ws.(status := WsInvalid, nextAttemptAt := None);
      var due := Some(RetryAt(c, failures, now));
      match lease.operation
      case Prepare =>
        if terminal || failures >= c.maxPrepareFailures || u.run.deadlineAt.None? || u.run.deadlineAt.value <= now then
          if u.run.status.Preparing? then
            var run := u.run.(status := Failed, stage := WorkspacePreflightFailed, finishedAt := Some(now),
                              heartbeatAt := Some(now));
            Sealed(u, u.(run := run, ws := givenUp, task := FailedTask(u.task)), payload, NowInvalid, now)
          else Tx(u.(ws := givenUp), NowInvalid)
        else
          Tx(u.(ws := ws.(status := WsUnavailable, nextAttemptAt := due),
                run := if u.run.status.Preparing? then u.run.(stage := WorkspaceRetryWait) else u.run), Requeued)
      case Inspect =>
        if !terminal then Tx(u.(ws := ws.(status := WsInspectionPending, nextAttemptAt := due)), Requeued)
        else if IsTerminal(u.run.status) then Sealed(u, u.(ws := givenUp), payload, NowInvalid, now)
        else Tx(u.(ws := givenUp), NowInvalid)
      case Cleanup =>
        Tx(u.(ws := if terminal then givenUp else ws.(status := WsCleanupPending, nextAttemptAt := due)),
           if terminal then NowInvalid else Requeued)
  }

  method RequestWorkspaceInspection(db: Session, now: Time) returns (raised: bool)
    modifies db`workspace
    ensures raised <==> InspectionRequested(old(db.workspace), now).None?
    ensures Some(db.workspace) == if raised then Some(old(db.workspace))
                                    else InspectionRequested(old(db.workspace), now)
  {
    if db.workspace.status.WsRemoved? || db.workspace.status.WsInvalid? || IsInspection(db.workspace.status) {
      return false;
    }
    if !db.workspace.status.WsReady? {
      return true;
    }
    db.workspace := db.workspace.(status := WsInspectionPending);
    db.workspace := db.workspace.(inspectionRequestedAt := Some(now), nextAttemptAt := Some(now));
    db.workspace := db.workspace.(leaseOwner := None, leaseExpiresAt := None);
    db.workspace := db.workspace.(version := db.workspace.version + 1);
    return false;
  }

  /** The end of a terminal transaction that began with `before`: queue the inspection, write the package. */
  method Close(db: Session, before: Unit, payload: string, success: Outcome, now: Time) returns (outcome: Outcome)
    requires db.workspace == before.ws && db.package == before.package && db.reports == before.reports
    modifies db
    ensures Tx(db.Rows(), outcome) == Closed(before, old(db.run), old(db.task), payload, success, now)
  {
    var raised := RequestWorkspaceInspection(db, now);
    if raised {
      db.Rollback(before);
      return Raised("workspace_cannot_be_inspected");
    }
    outcome := db.Seal(before, payload, success, now);
  }

  class WorkspaceLeaseManager {
    const c: Config

    constructor (config: Config)
      ensures c == config
    {
      c := config;
    }

    method InvalidateBinding(db: Session, code: string, payload: string, reported: Outcome, now: Time)
        returns (outcome: Outcome)
      modifies db
      ensures Tx(db.Rows(), outcome) == Invalidated(old(db.Rows()), code, payload, reported, now)
    {
      var before := db.Rows();
      db.workspace := db.workspace.(status := WsInvalid, nextAttemptAt := None, leaseOwner := None,
                                    leaseExpiresAt := None);
      db.workspace := db.workspace.(lastErrorCode := Some(code), version := db.workspace.version + 1);
      if !IsActive(db.run.status) {
        return reported;
      }
      db.run := db.run.(status := Failed, stage := WorkspaceBindingRejected);
      db.run := db.run.(finishedAt := Some(now), heartbeatAt := Some(now));
      db.run := db.run.(leaseGeneration := db.run.leaseGeneration + 1, leaseOwner := None, leaseExpiresAt := None);
      db.FailTask();
      outcome := db.Seal(before, payload, reported, now);
    }

    method ExpirePreparingExecution(db: Session, payload: string, reported: Outcome, now: Time)
        returns (outcome: Outcome)
      modifies db
      ensures Tx(db.Rows(), outcome) == Expired(old(db.Rows()), payload, reported, now)
    {
      var before := db.Rows();
      db.run := db.run.(status := Failed, stage := WorkspacePreflightTimedOut);
      db.run := db.run.(finishedAt := Some(now), heartbeatAt := Some(now));
      db.run := db.run.(leaseGeneration := db.run.leaseGeneration + 1, leaseOwner := None, leaseExpiresAt := None);
      db.FailTask();
      db.workspace := db.workspace.(status := WsCleanupPending, cleanupRequestedAt := Some(now),
                                    nextAttemptAt := Some(now));
      db.workspace := db.workspace.(leaseOwner := None, leaseExpiresAt := None,
                                    lastErrorCode := Some("execution_deadline_elapsed"));
      db.workspace := db.workspace.(version := db.workspace.version + 1);
      outcome := db.Seal(before, payload, reported, now);
    }

    /** The body of the claim loop, for one locked row. */
    method ClaimRow(db: Session, payload: string, now: Time) returns (outcome: Outcome)
      modifies db
      ensures Tx(db.Rows(), outcome) == Claim(c, old(db.Rows()), payload, now)
    {
      var operation := OperationFor(db.workspace.status);
      if !Claimable(db.workspace, now) || operation.None? {
        return NotClaimed;
      }
      var op := operation.value;
      var fault := BindingError(db.run, db.workspace, op, c.root);
      if fault.Some? {
        outcome := InvalidateBinding(db, fault.value, payload, NotClaimed, now);
        return;
      }
      if op.Prepare? {
        if db.run.cancelRequestedAt.Some? || IsTerminal(db.run.status) {
          db.workspace := db.workspace.(status := WsCleanupPending, cleanupRequestedAt := Some(now),
                                        nextAttemptAt := Some(now));
          db.workspace := db.workspace.(leaseOwner := None, leaseExpiresAt := None,
                                        version := db.workspace.version + 1);
          return NotClaimed;
        }
        if !db.run.status.Preparing? {
          outcome := InvalidateBinding(db, "preparation_execution_state_invalid", payload, NotClaimed, now);
          return;
        }
        if db.run.deadlineAt.None? || db.run.deadlineAt.value <= now {
          outcome := ExpirePreparingExecution(db, payload, NotClaimed, now);
          return;
        }
      } else if !IsTerminal(db.run.status) {
        outcome := InvalidateBinding(db, if op.Inspect? then "inspection_before_execution_terminal"
                                           else "cleanup_before_execution_terminal",
                                     payload, NotClaimed, now);
        return;
      }
      var row := db.workspace;
      row := row.(generation := row.generation + 1, version := row.version + 1, status := ActiveStatus(op));
      row := row.(startedAt := if op.Prepare? then Some(now) else row.startedAt, nextAttemptAt := None);
      row := row.(leaseOwner := Some(c.worker), leaseExpiresAt := Some(now + c.leaseSeconds * SECOND));
      db.workspace := row;
      return Claimed(row.generation, row.version);
    }

    /** `claim_available` over the rows the query locked: each row is claimed, settled or skipped on its own. */
    method ClaimAvailable(rows: seq<Session>, payloads: seq<string>, now: Time) returns (outcomes: seq<Outcome>)
      requires |payloads| == |rows|
      requires forall i, j :: 0 <= i < j < |rows| ==> rows[i] != rows[j]
      modifies rows
      ensures |outcomes| == |rows|
      ensures forall i :: 0 <= i < |rows| ==> Tx(rows[i].Rows(), outcomes[i]) == Claim(c, old(rows[i].Rows()),
              payloads[i], now)
    {
      outcomes := [];
      ghost var before := seq(|rows|, i requires 0 <= i < |rows| reads rows => rows[i].Rows());
      for k := 0 to |rows|
        invariant |outcomes| == k
        invariant forall i :: 0 <= i < k ==> Tx(rows[i].Rows(), outcomes[i]) == Claim(c, before[i], payloads[i], now)
        invariant forall i :: k <= i < |rows| ==> rows[i].Rows() == before[i]
      {
        var outcome := ClaimRow(rows[k], payloads[k], now);
        outcomes := outcomes + [outcome];
      }
    }

    method HeartbeatRow(db: Session, lease: Lease, now: Time) returns (outcome: Outcome)
      modifies db
      ensures Tx(db.Rows(), outcome) == Heartbeat(c, old(db.Rows()), lease, now)
    {
      if !Owned(c, db.workspace, lease, now) {
        return Lost;
      }
      db.workspace := db.workspace.(leaseExpiresAt := Some(now + c.leaseSeconds * SECOND));
      return Accepted;
    }

    method PrepareSucceeded(db: Session, lease: Lease, result: Prepared, trust: Trust, payload: string, now: Time)
        returns (outcome: Outcome)
      modifies db
      ensures Tx(db.Rows(), outcome) == MarkPrepareSuccess(c, old(db.Rows()), lease, result, trust, payload, now)
    {
      var tree := NormalizeCommit(result.tree);
      if tree.None? {
        return Raised("initial_tree_invalid");
      }
      if result.trackedEntries < 0 || !IsHex64(result.preflightDigest) {
        return Raised("workspace_preflight_result_invalid");
      }
      if !Owned(c, db.workspace, lease, now) {
        return Lost;
      }
      var fault := BindingError(db.run, db.workspace, Prepare, c.root);
      if fault.Some? {
        outcome := InvalidateBinding(db, fault.value, payload, NowInvalid, now);
        return;
      }
      match trust {
        case TrustRevoked => return Raised("repository_trust_revoked");
        case NotReady => return Raised("repository_not_ready");
        case Trusted =>
      }
      if !db.run.status.Preparing? || db.run.cancelRequestedAt.Some? || db.run.repositoryId != lease.repositoryId
         || db.run.baseCommit != lease.baseCommit || db.run.workspacePath != lease.opencodePath {
        return Lost;
      }
      if db.run.deadlineAt.None? || db.run.deadlineAt.value <= now {
        outcome := ExpirePreparingExecution(db, payload, NowExpired, now);
        return;
      }
      var row := db.workspace;
      row := row.(status := WsReady, initialTree := tree, preflightDigest := Some(result.preflightDigest));
      row := row.(trackedEntries := Some(result.trackedEntries), currentHead := Some(lease.baseCommit),
                  currentTree := tree);
      row := row.(hasChanges := Some(false), changedFileCount := Some(0), preparedAt := Some(now),
                  nextAttemptAt := None);
      row := row.(leaseOwner := None, leaseExpiresAt := None, failureCount := 0, lastErrorCode := None,
                  version := row.version + 1);
      db.workspace := row;
      db.run := db.run.(status := Queued, stage := DispatchPending);
      db.run := db.run.(workspaceTree := row.initialTree, preflightDigest := Some(result.preflightDigest),
                        preflightCompletedAt := Some(now));
      return NowReady;
    }

    /** The common part of `mark_inspection_success` and `mark_cleanup_retained`. */
    method Retain(db: Session, result: Inspection, now: Time)
      modifies db`workspace
      ensures db.workspace == WithInspection(old(db.workspace), result, now)
    {
      var row := db.workspace;
      row := row.(status := WsRetained, currentHead := Some(result.head), currentTree := Some(result.tree));
      row := row.(changeDigest := Some(result.changeDigest), hasChanges := Some(result.hasChanges));
      row := row.(changedFileCount := Some(result.changedFileCount as int), inspectedAt := Some(now),
                  nextAttemptAt := None);
      row := row.(leaseOwner := None, leaseExpiresAt := None, version := row.version + 1);
      db.workspace := row;
    }

    method InspectionSucceeded(db: Session, lease: Lease, result: Inspection, payload: string, now: Time)
        returns (outcome: Outcome)
      modifies db
      ensures Tx(db.Rows(), outcome) == MarkInspectionSuccess(c, old(db.Rows()), lease, result, payload, now)
    {
      if !Owned(c, db.workspace, lease, now) {
        return Lost;
      }
      var fault := BindingError(db.run, db.workspace, Inspect, c.root);
      if fault.Some? {
        outcome := InvalidateBinding(db, fault.value, payload, NowInvalid, now);
        return;
      }
      var before := db.Rows();
      Retain(db, result, now);
      db.workspace := db.workspace.(failureCount := 0, lastErrorCode := None);
      if IsTerminal(db.run.status) {
        var raised := db.Materialize(payload, true, now);
        if raised {
          db.Rollback(before);
          return Raised(IMMUTABLE);
        }
      }
      return NowRetained;
    }

    method CleanupSucceeded(db: Session, lease: Lease, payload: string, now: Time) returns (outcome: Outcome)
      modifies db
      ensures Tx(db.Rows(), outcome) == MarkCleanupSuccess(c, old(db.Rows()), lease, payload, now)
    {
      if !Owned(c, db.workspace, lease, now) {
        return Lost;
      }
      var fault := BindingError(db.run, db.workspace, Cleanup, c.root);
      if fault.Some? {
        outcome := InvalidateBinding(db, fault.value, payload, NowInvalid, now);
        return;
      }
      db.workspace := db.workspace.(status := WsRemoved, cleanedAt := Some(now), nextAttemptAt := None);
      db.workspace := db.workspace.(leaseOwner := None, leaseExpiresAt := None, lastErrorCode := None,
                                    version := db.workspace.version + 1);
      return NowRemoved;
    }

    method CleanupRetained(db: Session, lease: Lease, result: Inspection, payload: string, now: Time)
        returns (outcome: Outcome)
      modifies db
      ensures Tx(db.Rows(), outcome) == MarkCleanupRetained(c, old(db.Rows()), lease, result, payload, now)
    {
      if !Owned(c, db.workspace, lease, now) {
        return Lost;
      }
      var fault := BindingError(db.run, db.workspace, Cleanup, c.root);
      if fault.Some? {
        outcome := InvalidateBinding(db, fault.value, payload, NowInvalid, now);
        return;
      }
      Retain(db, result, now);
      db.workspace := db.workspace.(lastErrorCode := Some("workspace_changed_cleanup_blocked"));
      return NowRetained;
    }

    method FailureReported(db: Session, lease: Lease, code: string, giveUp: bool, payload: string, now: Time)
        returns (outcome: Outcome)
      modifies db
      ensures Tx(db.Rows(), outcome) == MarkFailure(c, old(db.Rows()), lease, code, giveUp, payload, now)
    {
      if !Owned(c, db.workspace, lease, now) {
        return Lost;
      }
      var fault := BindingError(db.run, db.workspace, lease.operation, c.root);
      if fault.Some? {
        outcome := InvalidateBinding(db, fault.value, payload, NowInvalid, now);
        return;
      }
      var before := db.Rows();
      db.workspace := db.workspace.(failureCount := db.workspace.failureCount + 1, leaseOwner := None,
                                    leaseExpiresAt := None);
      db.workspace := db.workspace.(lastErrorCode := Some(code), version := db.workspace.version + 1);
      var terminal := giveUp;
      if lease.operation.Prepare? {
        terminal := terminal || db.workspace.failureCount >= c.maxPrepareFailures;
        terminal := terminal || db.run.deadlineAt.None? || db.run.deadlineAt.value <= now;
      }
      if !terminal {
        db.workspace := db.workspace.(nextAttemptAt := Some(RetryAt(c, db.workspace.failureCount, now)));
        match lease.operation {
          case Prepare =>
            db.workspace := db.workspace.(status := WsUnavailable);
            if db.run.status.Preparing? {
              db.run := db.run.(stage := WorkspaceRetryWait);
            }
          case Inspect => db.workspace := db.workspace.(status := WsInspectionPending);
          case Cleanup => db.workspace := db.workspace.(status := WsCleanupPending);
        }
        return Requeued;
      }
      db.workspace := db.workspace.(status := WsInvalid, nextAttemptAt := None);
      if lease.operation.Prepare? && db.run.status.Preparing? {
        db.run := db.run.(status := Failed, stage := WorkspacePreflightFailed, finishedAt := Some(now),
                          heartbeatAt := Some(now));
        db.FailTask();
        outcome := db.Seal(before, payload, NowInvalid, now);
        return;
      }
      if lease.operation.Inspect? && IsTerminal(db.run.status) {
        outcome := db.Seal(before, payload, NowInvalid, now);
        return;
      }
      return NowInvalid;
    }
  }
}
