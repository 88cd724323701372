/** `execution_worker.py`: the leased dispatch and observation of an OpenCode execution. */
module ExecutionLeases {
  import opened Prelude
  import opened Rows
  import opened Transactions
  import opened WorkspaceLeases

  datatype Worker = Worker(id: string, leaseSeconds: nat, timeoutSeconds: nat, root: string)

  /** What a worker keeps of its claim: the fenced generation and the attested preflight digest. */
  datatype ExecutionLease = ExecutionLease(generation: nat, boundDigest: Option<string>)

  /** `_locked_owned_run`. */
  predicate OwnedRun(w: Worker, run: Run, generation: nat, now: Time) {
    && (run.status.Queued? || run.status.Running?)
    && run.leaseOwner == Some(w.id)
    && run.leaseGeneration == generation
    && run.leaseExpiresAt.Some?
    && run.leaseExpiresAt.value > now
  }

  /** The fields every accepted non-terminal write renews. */
  function Renewed(w: Worker, run: Run, now: Time): Run {
    run.(heartbeatAt := Some(now), leaseExpiresAt := Some(now + w.leaseSeconds * SECOND))
  }

  /** `_workspace_binding`: why the attested binding cannot be built. */
  function BindingFault(run: Run, ws: Workspace, root: string): Option<string> {
    if !ws.status.WsReady? then Some("workspace_not_ready")
    else if !SameBinding(run, ws) || ws.initialTree != run.workspaceTree || ws.preflightDigest != run.preflightDigest
            || run.preflightCompletedAt.None? then Some("workspace_database_binding_mismatch")
    else if NormalizeCommit(ws.baseCommit).None? then Some("base_commit_invalid")
    else if ws.initialTree.None? || NormalizeCommit(ws.initialTree.value).None? then Some("initial_tree_invalid")
    else if ws.opencodePath != Path(root, ws.id) then Some("workspace_path_mismatch")
    else if ws.trackedEntries.None? || ws.trackedEntries.value < 0 || ws.preflightDigest.None?
           || !IsHex64(ws.preflightDigest.value)
      then Some("workspace_preflight_evidence_invalid")
    else None
  }

  /** `_reject_invalid_workspace_binding`. */
  function BindingRejected(u: Unit, code: string, payload: string, outcome: Outcome, now: Time): Tx {
    var run := Ended(u.run, Failed, WorkspaceBindingRejected, now).(leaseGeneration := u.run.leaseGeneration + 1);
    var ws := u.ws.(status := WsInvalid, nextAttemptAt := None, leaseOwner := None, leaseExpiresAt := None,
                    lastErrorCode := Some(code), version := u.ws.version + 1);
    Sealed(u, u.(run := run, ws := ws, task := FailedTask(u.task)), payload, outcome, now)
  }

  predicate ClaimableRun(run: Run, now: Time) {
    && run.backend.OpenCode?
    && (run.status.Queued? || run.status.Running?)
    && (run.leaseExpiresAt.None? || run.leaseExpiresAt.value <= now)
  }

  /** `claim_available`, for one row. */
  function ClaimRun(w: Worker, u: Unit, payload: string, now: Time): Tx {
    if !ClaimableRun(u.run, now) then Tx(u, NotClaimed)
    else if BindingFault(u.run, u.ws, w.root).Some? then
      BindingRejected(u, BindingFault(u.run, u.ws, w.root).value, payload, NotClaimed, now)
    else
      var deadline := if u.run.deadlineAt.None? then Some(now + w.timeoutSeconds * SECOND) else u.run.deadlineAt;
      Tx(u.(run := Renewed(w, u.run, now).(deadlineAt := deadline, leaseGeneration := u.run.leaseGeneration + 1,
                                           leaseOwner := Some(w.id))),
         Claimed(u.run.leaseGeneration + 1, u.ws.version))
  }

  function HeartbeatRun(w: Worker, u: Unit, lease: ExecutionLease, allowCancel: bool, now: Time): Tx {
    if !OwnedRun(w, u.run, lease.generation, now) || (u.run.cancelRequestedAt.Some? && !allowCancel) then Tx(u, Lost)
    else Tx(u.(run := Renewed(w, u.run, now)), Accepted)
  }

  function PersistDispatchSession(w: Worker, u: Unit, lease: ExecutionLease, session: string, now: Time): Tx {
    if !OwnedRun(w, u.run, lease.generation, now) || !u.run.status.Queued? || u.run.cancelRequestedAt.Some?
       || (u.run.sessionId.Some? && u.run.sessionId != Some(session)) then Tx(u, Lost)
    else Tx(u.(run := Renewed(w, u.run, now).(sessionId := Some(session), stage := DispatchSessionReady)), Accepted)
  }

  function MarkRuntimeVerified(w: Worker, u: Unit, lease: ExecutionLease, digest: string, now: Time): Tx {
    if !OwnedRun(w, u.run, lease.generation, now) || !u.run.status.Queued? || lease.boundDigest != Some(digest)
       || u.run.preflightDigest != Some(digest) then Tx(u, Lost)
    else Tx(u.(run := Renewed(w, u.run, now).(runtimeDigest := Some(digest), runtimeVerifiedAt := Some(now),
                                              stage := DispatchPreflightVerified)), Accepted)
  }

  function MarkRuntimeRejected(w: Worker, u: Unit, lease: ExecutionLease, code: string, payload: string,
                               now: Time): Tx {
    if !OwnedRun(w, u.run, lease.generation, now) then Tx(u, Lost)
    else BindingRejected(u, code, payload, Rejected, now)
  }

  function RequestSafetyCancel(w: Worker, u: Unit, lease: ExecutionLease, now: Time): Tx {
    if !OwnedRun(w, u.run, lease.generation, now) || !u.run.status.Queued? then Tx(u, Lost)
    else if u.run.cancelRequestedAt.Some? then Tx(u, Accepted)
    else Tx(u.(run := Renewed(w, u.run, now).(cancelRequestedAt := Some(now), stage := SafetyAbortRequested)), Accepted)
  }

  function MarkDispatched(w: Worker, u: Unit, lease: ExecutionLease, session: string, now: Time): Tx {
    if !OwnedRun(w, u.run, lease.generation, now) || !u.run.status.Queued? || u.run.cancelRequestedAt.Some?
       || u.run.sessionId != Some(session) || u.run.runtimeDigest != u.run.preflightDigest
       || u.run.runtimeVerifiedAt.None? then Tx(u, Lost)
    else Tx(u.(run := u.run.(status := Running, stage := DepartmentLead, heartbeatAt := Some(now),
                             leaseOwner := None, leaseExpiresAt := None)), Accepted)
  }

  datatype Observed = SessionError | SessionIdle(result: string) | SessionBusy

  /** `apply_observation`. */
  function ApplyObservation(w: Worker, u: Unit, lease: ExecutionLease, seen: Observed, payload: string, now: Time): Tx {
    if !OwnedRun(w, u.run, lease.generation, now) || !u.run.status.Running? then Tx(u, Lost)
    else if u.run.cancelRequestedAt.Some? then Tx(u, SawCancel)
    else if u.run.deadlineAt.Some? && u.run.deadlineAt.value <= now
           then Tx(u.(run := Renewed(w, u.run, now)), SawDeadline)
    else if seen.SessionError? then
      Closed(u, Ended(u.run, Failed, OpenCodeFailed, now), FailedTask(u.task), payload, EndedFailed, now)
    else if seen.SessionIdle? && !IsBlank(seen.result) then
      Closed(u, Ended(u.run, Completed, ManagerReview, now).(result := Strip(seen.result)), ReviewedTask(u.task),
             payload, EndedCompleted, now)
    else Tx(u.(run := Renewed(w, u.run, now)), Continuing)
  }

  function ReviewedTask(task: TaskStatus): TaskStatus {
    if task.InProgress? || task.WaitingApproval? then Qa else task
  }

  /** `mark_timeout_pending`, `mark_stalled_tool_abort_pending`: stay active until the abort is confirmed. */
  function MarkAbortPending(w: Worker, u: Unit, lease: ExecutionLease, stage: Stage, now: Time): Tx {
    if !OwnedRun(w, u.run, lease.generation, now) then Tx(u, Lost)
    else Tx(u.(run := Renewed(w, u.run, now).(stage := stage)), Continuing)
  }

  /** `mark_timed_out`, `mark_stalled_tool`: fail the run once its sessions are stopped. */
  function MarkAborted(w: Worker, u: Unit, lease: ExecutionLease, stage: Stage, payload: string, outcome: Outcome,
                       now: Time): Tx {
    if !OwnedRun(w, u.run, lease.generation, now) then Tx(u, Lost)
    else Closed(u, Ended(u.run, Failed, stage, now), FailedTask(u.task), payload, outcome, now)
  }

  function MarkCancelPending(w: Worker, u: Unit, lease: ExecutionLease, now: Time): Tx {
    if !OwnedRun(w, u.run, lease.generation, now) || u.run.cancelRequestedAt.None? then Tx(u, Lost)
    else Tx(u.(run := Renewed(w, u.run, now).(stage := CancelCleanupPending)), Continuing)
  }

  function MarkCancelled(w: Worker, u: Unit, lease: ExecutionLease, payload: string, now: Time): Tx {
    if !OwnedRun(w, u.run, lease.generation, now) || u.run.cancelRequestedAt.None? then Tx(u, Lost)
    else Closed(u, Ended(u.run, Cancelled, Stopped, now), FailedTask(u.task), payload, EndedCancelled, now)
  }

  /** `_fail_runner_gate`; it also fails a task already in review. */
  function FailRunnerGate(w: Worker, u: Unit, lease: ExecutionLease, code: string, payload: string, now: Time): Tx {
    if !OwnedRun(w, u.run, lease.generation, now) || !u.run.status.Running? then Tx(u, Lost)
    else Closed(u, Ended(u.run, Failed, Named(code), now), if u.task.Qa? then TaskFailed
                                                             else FailedTask(u.task), payload, EndedFailed, now)
  }

  /** The run row as the running-stage transactions leave it: `_ensure_runner_checkpoint_jobs`
      and `_prompt_running_with_repository_trust_gate`. */
  function ContinueRunning(w: Worker, u: Unit, lease: ExecutionLease, stage: Stage, now: Time): Tx {
    if !OwnedRun(w, u.run, lease.generation, now) || !u.run.status.Running? then Tx(u, Lost)
    else Tx(u.(run := Renewed(w, u.run, now).(stage := stage)), Accepted)
  }

  class ExecutionLeaseManager {
    const w: Worker

    constructor (worker: Worker)
      ensures w == worker
    {
      w := worker;
    }

    /** Renew the lease of the locked row. */
    method Renew(db: Session, now: Time)
      modifies db`run
      ensures db.run == Renewed(w, old(db.run), now)
    {
      db.run := db.run.(heartbeatAt := Some(now));
      db.run := db.run.(leaseExpiresAt := Some(now + w.leaseSeconds * SECOND));
    }

    /** The terminal fields of the locked row. */
    method End(db: Session, status: RunStatus, stage: Stage, now: Time)
      modifies db`run
      ensures db.run == Ended(old(db.run), status, stage, now)
    {
      db.run := db.run.(status := status, stage := stage);
      db.run := db.run.(finishedAt := Some(now), heartbeatAt := Some(now));
      db.run := db.run.(leaseOwner := None, leaseExpiresAt := None);
    }

    /** End the run and its task, queue the inspection and write the package. */
    method EndAndClose(db: Session, status: RunStatus, stage: Stage, payload: string, reported: Outcome, now: Time)
        returns (outcome: Outcome)
      modifies db
      ensures Tx(db.Rows(), outcome) == Closed(old(db.Rows()), Ended(old(db.run), status, stage, now),
                                               FailedTask(old(db.task)), payload, reported, now)
    {
      var before := db.Rows();
      End(db, status, stage, now);
      db.FailTask();
      outcome := Close(db, before, payload, reported, now);
    }

    method RejectInvalidWorkspaceBinding(db: Session, code: string, payload: string, reported: Outcome, now: Time)
        returns (outcome: Outcome)
      modifies db
      ensures Tx(db.Rows(), outcome) == BindingRejected(old(db.Rows()), code, payload, reported, now)
    {
      var before := db.Rows();
      End(db, Failed, WorkspaceBindingRejected, now);
      db.run := db.run.(leaseGeneration := db.run.leaseGeneration + 1);
      db.workspace := db.workspace.(status := WsInvalid, nextAttemptAt := None, leaseOwner := None,
                                    leaseExpiresAt := None);
      db.workspace := db.workspace.(lastErrorCode := Some(code), version := db.workspace.version + 1);
      db.FailTask();
      outcome := db.Seal(before, payload, reported, now);
    }

    /** The body of the claim loop, for one locked row. */
    method ClaimRow(db: Session, payload: string, now: Time) returns (outcome: Outcome)
      modifies db
      ensures Tx(db.Rows(), outcome) == ClaimRun(w, old(db.Rows()), payload, now)
    {
      if !ClaimableRun(db.run, now) {
        return NotClaimed;
      }
      var fault := BindingFault(db.run, db.workspace, w.root);
      if fault.Some? {
        outcome := RejectInvalidWorkspaceBinding(db, fault.value, payload, NotClaimed, now);
        return;
      }
      if db.run.deadlineAt.None? {
        db.run := db.run.(deadlineAt := Some(now + w.timeoutSeconds * SECOND));
      }
      db.run := db.run.(leaseGeneration := db.run.leaseGeneration + 1, leaseOwner := Some(w.id));
      Renew(db, now);
      return Claimed(db.run.leaseGeneration, db.workspace.version);
    }

    /** `claim_available` over the rows the query locked. */
    method ClaimAvailable(rows: seq<Session>, payloads: seq<string>, now: Time) returns (outcomes: seq<Outcome>)
      requires |payloads| == |rows|
      requires forall i, j :: 0 <= i < j < |rows| ==> rows[i] != rows[j]
      modifies rows
      ensures |outcomes| == |rows|
      ensures forall i :: 0 <= i < |rows| ==> Tx(rows[i].Rows(), outcomes[i]) == ClaimRun(w, old(rows[i].Rows()),
              payloads[i], now)
    {
      outcomes := [];
      ghost var before := seq(|rows|, i requires 0 <= i < |rows| reads rows => rows[i].Rows());
      for k := 0 to |rows|
        invariant |outcomes| == k
        invariant forall i :: 0 <= i < k ==> Tx(rows[i].Rows(), outcomes[i]) == ClaimRun(w, before[i], payloads[i], now)
        invariant forall i :: k <= i < |rows| ==> rows[i].Rows() == before[i]
      {
        var outcome := ClaimRow(rows[k], payloads[k], now);
        outcomes := outcomes + [outcome];
      }
    }

    method Heartbeat(db: Session, lease: ExecutionLease, allowCancel: bool, now: Time) returns (outcome: Outcome)
      modifies db
      ensures Tx(db.Rows(), outcome) == HeartbeatRun(w, old(db.Rows()), lease, allowCancel, now)
    {
      if !OwnedRun(w, db.run, lease.generation, now) {
        return Lost;
      }
      if db.run.cancelRequestedAt.Some? && !allowCancel {
        return Lost;
      }
      Renew(db, now);
      return Accepted;
    }

    method PersistSession(db: Session, lease: ExecutionLease, session: string, now: Time) returns (outcome: Outcome)
      modifies db
      ensures Tx(db.Rows(), outcome) == PersistDispatchSession(w, old(db.Rows()), lease, session, now)
    {
      if !OwnedRun(w, db.run, lease.generation, now) || !db.run.status.Queued? || db.run.cancelRequestedAt.Some? {
        return Lost;
      }
      if db.run.sessionId.Some? && db.run.sessionId.value != session {
        return Lost;
      }
      db.run := db.run.(sessionId := Some(session), stage := DispatchSessionReady);
      Renew(db, now);
      return Accepted;
    }

    method RuntimeWorkspaceVerified(db: Session, lease: ExecutionLease, digest: string, now: Time)
        returns (outcome: Outcome)
      modifies db
      ensures Tx(db.Rows(), outcome) == MarkRuntimeVerified(w, old(db.Rows()), lease, digest, now)
    {
      if !OwnedRun(w, db.run, lease.generation, now) || !db.run.status.Queued? {
        return Lost;
      }
      if lease.boundDigest.None? || digest != lease.boundDigest.value || db.run.preflightDigest != Some(digest) {
        return Lost;
      }
      db.run := db.run.(runtimeDigest := Some(digest), runtimeVerifiedAt := Some(now));
      db.run := db.run.(stage := DispatchPreflightVerified);
      Renew(db, now);
      return Accepted;
    }

    method RuntimeWorkspaceRejected(db: Session, lease: ExecutionLease, code: string, payload: string, now: Time)
        returns (outcome: Outcome)
      modifies db
      ensures Tx(db.Rows(), outcome) == MarkRuntimeRejected(w, old(db.Rows()), lease, code, payload, now)
    {
      if !OwnedRun(w, db.run, lease.generation, now) {
        return Lost;
      }
      outcome := RejectInvalidWorkspaceBinding(db, code, payload, Rejected, now);
    }

    method SafetyCancel(db: Session, lease: ExecutionLease, now: Time) returns (outcome: Outcome)
      modifies db
      ensures Tx(db.Rows(), outcome) == RequestSafetyCancel(w, old(db.Rows()), lease, now)
    {
      if !OwnedRun(w, db.run, lease.generation, now) || !db.run.status.Queued? {
        return Lost;
      }
      if db.run.cancelRequestedAt.None? {
        db.run := db.run.(cancelRequestedAt := Some(now), stage := SafetyAbortRequested);
        Renew(db, now);
      }
      return Accepted;
    }

    method DispatchAccepted(db: Session, lease: ExecutionLease, session: string, now: Time) returns (outcome: Outcome)
      modifies db
      ensures Tx(db.Rows(), outcome) == MarkDispatched(w, old(db.Rows()), lease, session, now)
    {
      if !OwnedRun(w, db.run, lease.generation, now) || !db.run.status.Queued? || db.run.cancelRequestedAt.Some? {
        return Lost;
      }
      if db.run.sessionId != Some(session) {
        return Lost;
      }
      if db.run.runtimeDigest != db.run.preflightDigest || db.run.runtimeVerifiedAt.None? {
        return Lost;
      }
      db.run := db.run.(status := Running, stage := DepartmentLead, heartbeatAt := Some(now));
      db.run := db.run.(leaseOwner := None, leaseExpiresAt := None);
      return Accepted;
    }

    method Observe(db: Session, lease: ExecutionLease, seen: Observed, payload: string, now: Time)
        returns (outcome: Outcome)
      modifies db
      ensures Tx(db.Rows(), outcome) == ApplyObservation(w, old(db.Rows()), lease, seen, payload, now)
    {
      if !OwnedRun(w, db.run, lease.generation, now) || !db.run.status.Running? {
        return Lost;
      }
      if db.run.cancelRequestedAt.Some? {
        return SawCancel;
      }
      if db.run.deadlineAt.Some? && db.run.deadlineAt.value <= now {
        Renew(db, now);
        return SawDeadline;
      }
      match seen
      case SessionError =>
        outcome := EndAndClose(db, Failed, OpenCodeFailed, payload, EndedFailed, now);
      case SessionIdle(result) =>
        if IsBlank(result) {
          Renew(db, now);
          return Continuing;
        }
        var before := db.Rows();
        End(db, Completed, ManagerReview, now);
        db.run := db.run.(result := Strip(result));
        db.task := ReviewedTask(db.task);
        outcome := Close(db, before, payload, EndedCompleted, now);
      case SessionBusy =>
        Renew(db, now);
        return Continuing;
    }

    method AbortPending(db: Session, lease: ExecutionLease, stage: Stage, now: Time) returns (outcome: Outcome)
      modifies db
      ensures Tx(db.Rows(), outcome) == MarkAbortPending(w, old(db.Rows()), lease, stage, now)
    {
      if !OwnedRun(w, db.run, lease.generation, now) {
        return Lost;
      }
      db.run := db.run.(stage := stage);
      Renew(db, now);
      return Continuing;
    }

    method Aborted(db: Session, lease: ExecutionLease, stage: Stage, payload: string, reported: Outcome, now: Time)
        returns (outcome: Outcome)
      modifies db
      ensures Tx(db.Rows(), outcome) == MarkAborted(w, old(db.Rows()), lease, stage, payload, reported, now)
    {
      if !OwnedRun(w, db.run, lease.generation, now) {
        return Lost;
      }
      assert MarkAborted(w, db.Rows(), lease, stage, payload, reported, now)
          == Closed(db.Rows(), Ended(db.run, Failed, stage, now), FailedTask(db.task), payload, reported, now);
      outcome := EndAndClose(db, Failed, stage, payload, reported, now);
    }

    method CancelPending(db: Session, lease: ExecutionLease, now: Time) returns (outcome: Outcome)
      modifies db
      ensures Tx(db.Rows(), outcome) == MarkCancelPending(w, old(db.Rows()), lease, now)
    {
      if !OwnedRun(w, db.run, lease.generation, now) || db.run.cancelRequestedAt.None? {
        return Lost;
      }
      db.run := db.run.(stage := CancelCleanupPending);
      Renew(db, now);
      return Continuing;
    }

    method CancelConfirmed(db: Session, lease: ExecutionLease, payload: string, now: Time) returns (outcome: Outcome)
      modifies db
      ensures Tx(db.Rows(), outcome) == MarkCancelled(w, old(db.Rows()), lease, payload, now)
    {
      if !OwnedRun(w, db.run, lease.generation, now) || db.run.cancelRequestedAt.None? {
        return Lost;
      }
      outcome := EndAndClose(db, Cancelled, Stopped, payload, EndedCancelled, now);
    }

    method RunnerGateFailed(db: Session, lease: ExecutionLease, code: string, payload: string, now: Time)
        returns (outcome: Outcome)
      modifies db
      ensures Tx(db.Rows(), outcome) == FailRunnerGate(w, old(db.Rows()), lease, code, payload, now)
    {
      if !OwnedRun(w, db.run, lease.generation, now) || !db.run.status.Running? {
        return Lost;
      }
      var before := db.Rows();
      End(db, Failed, Named(code), now);
      if db.task.Qa? {
        db.task := TaskFailed;
      }
      db.FailTask();
      outcome := Close(db, before, payload, EndedFailed, now);
    }

    method RunContinued(db: Session, lease: ExecutionLease, stage: Stage, now: Time) returns (outcome: Outcome)
      modifies db
      ensures Tx(db.Rows(), outcome) == ContinueRunning(w, old(db.Rows()), lease, stage, now)
    {
      if !OwnedRun(w, db.run, lease.generation, now) || !db.run.status.Running? {
        return Lost;
      }
      db.run := db.run.(stage := stage);
      Renew(db, now);
      return Accepted;
    }
  }
}
