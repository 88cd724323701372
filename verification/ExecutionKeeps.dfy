/** Every transaction of the execution worker keeps the invariant. */
module ExecutionKeeps {
  import opened Prelude
  import opened Rows
  import opened Transactions
  import opened Fencing
  import opened WorkspaceLeases
  import opened ExecutionLeases
  import opened Lifecycle
  import CodexBroker

  /** Ending a live run: its workspace is queued for inspection and its package is provisional. */
  lemma ClosedIsSafe(u: Unit, run: Run, task: TaskStatus, payload: string, outcome: Outcome, root: string, now: Time)
    requires UnitInv(u, root) && (u.run.status.Queued? || u.run.status.Running?)
    requires IsTerminal(run.status) && RunInv(run) && CkRun(run) && BindingInv(run, u.ws, root)
    requires run.backend.CodexSubscription? ==> CodexInv(run, u.reports)
    requires run.backend == u.run.backend && run.preflightCompletedAt == u.run.preflightCompletedAt
    requires outcome != Raised(IMMUTABLE)
    ensures var tx := Closed(u, run, task, payload, outcome, now);
            && tx.outcome == outcome && tx.unit.run == run && tx.unit.reports == u.reports
            && tx.unit.ws.status.WsInspectionPending? && tx.unit.ws.generation == u.ws.generation
            && UnitInv(tx.unit, root)
  {
  }

  /** An owned OpenCode run changes in place, without leaving its status. */
  lemma InPlaceIsSafe(u: Unit, run: Run, root: string, now: Time)
    requires UnitInv(u, root) && u.run.backend.OpenCode? && (u.run.status.Queued? || u.run.status.Running?)
    requires run == u.run.(stage := run.stage, sessionId := run.sessionId, runtimeDigest := run.runtimeDigest,
                           runtimeVerifiedAt := run.runtimeVerifiedAt, cancelRequestedAt := run.cancelRequestedAt,
                           leaseOwner := run.leaseOwner, leaseGeneration := run.leaseGeneration,
                           leaseExpiresAt := run.leaseExpiresAt, heartbeatAt := run.heartbeatAt)
    requires u.run.sessionId.Some? ==> run.sessionId == u.run.sessionId
    requires (run.runtimeDigest == u.run.runtimeDigest && run.runtimeVerifiedAt == u.run.runtimeVerifiedAt)
             || (run.runtimeDigest == run.preflightDigest && run.runtimeVerifiedAt.Some?)
    requires u.run.cancelRequestedAt.Some? ==> run.cancelRequestedAt == u.run.cancelRequestedAt
    requires run.leaseOwner.Some? <==> run.leaseExpiresAt.Some?
    requires FencedStep(RunLease(u.run), RunLease(run), now)
    ensures UnitInv(u.(run := run), root) && Evolves(u, u.(run := run), now)
  {
  }

  lemma RejectedIsSafe(u: Unit, code: string, payload: string, outcome: Outcome, root: string, now: Time)
    requires UnitInv(u, root) && (u.run.status.Queued? || u.run.status.Running?) && u.run.backend.OpenCode?
    requires outcome != Raised(IMMUTABLE)
    ensures Safe(u, BindingRejected(u, code, payload, outcome, now), root, now)
  {
  }

  lemma ClaimRunIsSafe(w: Worker, u: Unit, payload: string, root: string, now: Time)
    requires UnitInv(u, root)
    ensures Safe(u, ClaimRun(w, u, payload, now), root, now)
  {
    if ClaimableRun(u.run, now) {
      if BindingFault(u.run, u.ws, w.root).Some? {
        RejectedIsSafe(u, BindingFault(u.run, u.ws, w.root).value, payload, NotClaimed, root, now);
      } else {
        InPlaceIsSafe(u, ClaimRun(w, u, payload, now).unit.run, root, now);
      }
    } else {
      EvolvesReflexive(u, now);
    }
  }

  /** The transactions that only renew the lease and name a stage. */
  lemma RenewalIsSafe(w: Worker, u: Unit, lease: ExecutionLease, allowCancel: bool, stage: Stage, root: string,
                      now: Time)
    requires UnitInv(u, root) && w.id != CodexBroker.CODEX_WORKER
    ensures Safe(u, HeartbeatRun(w, u, lease, allowCancel, now), root, now)
    ensures Safe(u, MarkAbortPending(w, u, lease, stage, now), root, now)
    ensures Safe(u, ContinueRunning(w, u, lease, stage, now), root, now)
  {
    EvolvesReflexive(u, now);
    if OwnedRun(w, u.run, lease.generation, now) {
      InPlaceIsSafe(u, Renewed(w, u.run, now), root, now);
      InPlaceIsSafe(u, Renewed(w, u.run, now).(stage := stage), root, now);
    }
  }

  lemma MarkCancelPendingIsSafe(w: Worker, u: Unit, lease: ExecutionLease, root: string, now: Time)
    requires UnitInv(u, root) && w.id != CodexBroker.CODEX_WORKER
    ensures Safe(u, MarkCancelPending(w, u, lease, now), root, now)
  {
    EvolvesReflexive(u, now);
    if OwnedRun(w, u.run, lease.generation, now) {
      InPlaceIsSafe(u, Renewed(w, u.run, now).(stage := CancelCleanupPending), root, now);
    }
  }

  lemma PersistDispatchSessionIsSafe(w: Worker, u: Unit, lease: ExecutionLease, session: string, root: string,
                                     now: Time)
    requires UnitInv(u, root) && w.id != CodexBroker.CODEX_WORKER
    ensures Safe(u, PersistDispatchSession(w, u, lease, session, now), root, now)
  {
    EvolvesReflexive(u, now);
    var tx := PersistDispatchSession(w, u, lease, session, now);
    if tx.outcome.Accepted? {
      InPlaceIsSafe(u, tx.unit.run, root, now);
    }
  }

  lemma MarkRuntimeVerifiedIsSafe(w: Worker, u: Unit, lease: ExecutionLease, digest: string, root: string, now: Time)
    requires UnitInv(u, root) && w.id != CodexBroker.CODEX_WORKER
    ensures Safe(u, MarkRuntimeVerified(w, u, lease, digest, now), root, now)
    ensures var tx := MarkRuntimeVerified(w, u, lease, digest, now);
            if tx.outcome.Accepted?
            then Some(digest) == lease.boundDigest == u.run.preflightDigest == tx.unit.run.runtimeDigest
            else tx.unit == u
  {
    EvolvesReflexive(u, now);
    var tx := MarkRuntimeVerified(w, u, lease, digest, now);
    if tx.outcome.Accepted? {
      InPlaceIsSafe(u, tx.unit.run, root, now);
    }
  }

  lemma RequestSafetyCancelIsSafe(w: Worker, u: Unit, lease: ExecutionLease, root: string, now: Time)
    requires UnitInv(u, root) && w.id != CodexBroker.CODEX_WORKER
    ensures Safe(u, RequestSafetyCancel(w, u, lease, now), root, now)
  {
    EvolvesReflexive(u, now);
    var tx := RequestSafetyCancel(w, u, lease, now);
    if tx.unit != u {
      InPlaceIsSafe(u, tx.unit.run, root, now);
    }
  }

  lemma MarkDispatchedIsSafe(w: Worker, u: Unit, lease: ExecutionLease, session: string, root: string, now: Time)
    requires UnitInv(u, root) && w.id != CodexBroker.CODEX_WORKER
    ensures Safe(u, MarkDispatched(w, u, lease, session, now), root, now)
  {
  }

  lemma MarkRuntimeRejectedIsSafe(w: Worker, u: Unit, lease: ExecutionLease, code: string, payload: string,
                                  root: string, now: Time)
    requires UnitInv(u, root) && w.id != CodexBroker.CODEX_WORKER
    ensures Safe(u, MarkRuntimeRejected(w, u, lease, code, payload, now), root, now)
  {
    EvolvesReflexive(u, now);
    if OwnedRun(w, u.run, lease.generation, now) {
      RejectedIsSafe(u, code, payload, Rejected, root, now);
    }
  }

  lemma ApplyObservationIsSafe(w: Worker, u: Unit, lease: ExecutionLease, seen: Observed, payload: string, root: string,
                               now: Time)
    requires UnitInv(u, root) && w.id != CodexBroker.CODEX_WORKER
    ensures Safe(u, ApplyObservation(w, u, lease, seen, payload, now), root, now)
  {
    var tx := ApplyObservation(w, u, lease, seen, payload, now);
    if tx.unit == u {
      EvolvesReflexive(u, now);
    } else if tx.outcome.SawDeadline? || tx.outcome.Continuing? {
      InPlaceIsSafe(u, Renewed(w, u.run, now), root, now);
    } else if seen.SessionError? {
      ClosedIsSafe(u, Ended(u.run, Failed, OpenCodeFailed, now), FailedTask(u.task), payload, EndedFailed, root, now);
    } else {
      CompletedIsSafe(u, Strip(seen.result), payload, root, now);
    }
  }

  lemma CompletedIsSafe(u: Unit, result: string, payload: string, root: string, now: Time)
    requires UnitInv(u, root) && u.run.backend.OpenCode? && u.run.status.Running? && u.run.cancelRequestedAt.None?
    requires u.run.deadlineAt.value > now
    ensures Safe(u, Closed(u, Ended(u.run, Completed, ManagerReview, now).(result := result), ReviewedTask(u.task),
                           payload, EndedCompleted, now), root, now)
  {
    ClosedIsSafe(u, Ended(u.run, Completed, ManagerReview, now).(result := result), ReviewedTask(u.task), payload,
                 EndedCompleted, root, now);
  }

  /** The transactions that end an owned run: timeout, stalled tool, runner gate and confirmed cancellation. */
  lemma MarkAbortedIsSafe(w: Worker, u: Unit, lease: ExecutionLease, stage: Stage, payload: string, outcome: Outcome,
                          root: string, now: Time)
    requires UnitInv(u, root) && w.id != CodexBroker.CODEX_WORKER && outcome != Raised(IMMUTABLE)
    ensures Safe(u, MarkAborted(w, u, lease, stage, payload, outcome, now), root, now)
  {
    EvolvesReflexive(u, now);
    if OwnedRun(w, u.run, lease.generation, now) {
      ClosedIsSafe(u, Ended(u.run, Failed, stage, now), FailedTask(u.task), payload, outcome, root, now);
    }
  }

  lemma FailRunnerGateIsSafe(w: Worker, u: Unit, lease: ExecutionLease, code: string, payload: string, root: string,
                             now: Time)
    requires UnitInv(u, root) && w.id != CodexBroker.CODEX_WORKER
    ensures Safe(u, FailRunnerGate(w, u, lease, code, payload, now), root, now)
  {
    EvolvesReflexive(u, now);
    if OwnedRun(w, u.run, lease.generation, now) {
      ClosedIsSafe(u, Ended(u.run, Failed, Named(code), now), if u.task.Qa? then TaskFailed else FailedTask(u.task),
                   payload, EndedFailed, root, now);
    }
  }

  lemma MarkCancelledIsSafe(w: Worker, u: Unit, lease: ExecutionLease, payload: string, root: string, now: Time)
    requires UnitInv(u, root) && w.id != CodexBroker.CODEX_WORKER
    ensures Safe(u, MarkCancelled(w, u, lease, payload, now), root, now)
  {
    EvolvesReflexive(u, now);
    if OwnedRun(w, u.run, lease.generation, now) && u.run.cancelRequestedAt.Some? {
      ClosedIsSafe(u, Ended(u.run, Cancelled, Stopped, now), FailedTask(u.task), payload, EndedCancelled, root, now);
    }
  }
}
