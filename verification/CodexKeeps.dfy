/** Every transaction of the subscription worker protocol and of the manager endpoints keeps the invariant. */
module CodexKeeps {
  import opened Prelude
  import opened Rows
  import opened Transactions
  import opened Fencing
  import opened CodexBroker
  import opened Lifecycle
  import ControlApi
  import ExecutionKeeps

  predicate LiveCodex(run: Run) {
    run.backend.CodexSubscription? && (run.status.Queued? || run.status.Running?)
  }

  /** `now` is the clock reading written to the row, `at` the one that checked the ownership. */
  lemma TerminalIsSafe(u: Unit, status: RunStatus, code: string, payload: string, outcome: Outcome, root: string,
                       now: Time, at: Time)
    requires UnitInv(u, root) && LiveCodex(u.run)
    requires status.Failed? || (status.Cancelled? && u.run.cancelRequestedAt.Some?)
    requires outcome != Raised(IMMUTABLE)
    ensures Safe(u, Terminal(u, status, code, payload, outcome, now), root, at)
  {
  }

  lemma SettledIsSafe(u: Unit, code: string, payload: string, outcome: Outcome, root: string, now: Time, at: Time)
    requires UnitInv(u, root) && LiveCodex(u.run) && outcome != Raised(IMMUTABLE)
    ensures Safe(u, Settled(u, code, payload, outcome, now), root, at)
  {
    if u.run.cancelRequestedAt.Some? {
      TerminalIsSafe(u, Cancelled, "codex_cancelled", payload, outcome, root, now, at);
    } else {
      TerminalIsSafe(u, Failed, code, payload, outcome, root, now, at);
    }
  }

  /** The run advances inside the protocol without ending. */
  lemma AdvancedIsSafe(u: Unit, v: Unit, root: string, now: Time)
    requires UnitInv(u, root) && LiveCodex(u.run)
    requires v == u.(run := v.run, reports := v.reports) && u.reports <= v.reports
    requires v.run == u.run.(status := v.run.status, stage := v.run.stage, leaseOwner := v.run.leaseOwner,
                             leaseGeneration := v.run.leaseGeneration, leaseExpiresAt := v.run.leaseExpiresAt,
                             heartbeatAt := v.run.heartbeatAt, runtimeDigest := v.run.runtimeDigest,
                             runtimeVerifiedAt := v.run.runtimeVerifiedAt, cancelRequestedAt := v.run.cancelRequestedAt)
    requires LiveCodex(v.run) && StatusRank(u.run.status) <= StatusRank(v.run.status)
    requires v.run.leaseOwner.Some? && v.run.leaseExpiresAt.Some?
    requires CodexInv(v.run, v.reports) && CodexRank(u.run) <= CodexRank(v.run)
    requires v.run.status.Running? ==> v.run.runtimeDigest == v.run.preflightDigest && v.run.runtimeVerifiedAt.Some?
    requires u.run.cancelRequestedAt.Some? ==> v.run.cancelRequestedAt == u.run.cancelRequestedAt
                                               && v.run.status == u.run.status
    requires FencedStep(RunLease(u.run), RunLease(v.run), now)
    ensures UnitInv(v, root) && Evolves(u, v, now)
  {
  }

  lemma SweepIsSafe(u: Unit, payload: string, root: string, now: Time)
    requires UnitInv(u, root)
    ensures Safe(u, Sweep(u, payload, now), root, now)
  {
    if Sweep(u, payload, now).unit == u {
      EvolvesReflexive(u, now);
    } else {
      SettledIsSafe(u, "codex_lease_expired", payload, NotClaimed, root, now, now);
    }
  }

  lemma ClaimIsSafe(u: Unit, repo: Option<Repo>, workspaceRoot: string, payload: string, root: string, now: Time)
    requires UnitInv(u, root)
    ensures Safe(u, Claim(u, repo, workspaceRoot, payload, now), root, now)
  {
    if !u.run.backend.CodexSubscription? || !u.run.status.Queued? || !u.run.stage.DispatchPending?
        || u.run.leaseOwner.Some? {
      EvolvesReflexive(u, now);
    } else if u.run.cancelRequestedAt.Some? || Elapsed(u.run.deadlineAt, now) {
      SettledIsSafe(u, "codex_deadline_expired", payload, NotClaimed, root, now, now);
    } else if !Trusted(u.run, repo) {
      TerminalIsSafe(u, Failed, "repository_trust_revoked", payload, NotClaimed, root, now, now);
    } else if !Bound(u.run, u.ws, workspaceRoot) {
      TerminalIsSafe(u, Failed, "workspace_database_binding_mismatch", payload, NotClaimed, root, now, now);
    } else {
      AdvancedIsSafe(u, Claim(u, repo, workspaceRoot, payload, now).unit, root, now);
    }
  }

  lemma AcceptPreflightIsSafe(u: Unit, body: Preflight, repo: Option<Repo>, workspaceRoot: string, payload: string,
                              root: string, settle: Time, now: Time)
    requires UnitInv(u, root)
    ensures Safe(u, AcceptPreflight(u, body, repo, workspaceRoot, payload, settle, now), root, settle)
  {
    var tx := AcceptPreflight(u, body, repo, workspaceRoot, payload, settle, now);
    if tx.unit == u {
      EvolvesReflexive(u, settle);
    } else if MustSettle(u.run, settle) {
      SettledIsSafe(u, "codex_lease_expired", payload, Conflict(409), root, settle, settle);
    } else {
      AdvancedIsSafe(u, tx.unit, root, settle);
    }
  }

  lemma HeartbeatIsSafe(u: Unit, generation: int, payload: string, root: string, settle: Time, now: Time)
    requires UnitInv(u, root)
    ensures Safe(u, Heartbeat(u, generation, payload, settle, now), root, settle)
  {
    var tx := Heartbeat(u, generation, payload, settle, now);
    if tx.unit == u {
      EvolvesReflexive(u, settle);
    } else if MustSettle(u.run, settle) {
      SettledIsSafe(u, "codex_lease_expired", payload, Conflict(409), root, settle, settle);
    } else {
      AdvancedIsSafe(u, tx.unit, root, settle);
    }
  }

  /** A report is accepted: it is recorded once, and the run moves to the next role or ends. */
  lemma PhaseIsSafe(u: Unit, body: Report, repo: Option<Repo>, workspaceRoot: string, payload: string, root: string,
                    settle: Time, now: Time)
    requires UnitInv(u, root)
    ensures Safe(u, Phase(u, body, repo, workspaceRoot, payload, settle, now), root, settle)
  {
    if !HeldBy(u.run, body.generation, false, false) {
      EvolvesReflexive(u, settle);
    } else if MustSettle(u.run, settle) {
      SettledIsSafe(u, "codex_lease_expired", payload, Conflict(409), root, settle, settle);
    } else if Refusal(u, body, workspaceRoot).Some? {
      EvolvesReflexive(u, settle);
    } else if !Trusted(u.run, repo) {
      TerminalIsSafe(u, Failed, "repository_trust_revoked", payload, EndedFailed, root, now, settle);
    } else {
      var report := RoleReport(body.role.value, body.outcome, body.generation, body.finalText, body.finalSha);
      RecordedIsSafe(u, report, payload, root, settle, now);
    }
  }

  /** The report of the expected role is new, and the protocol moves on to the next role or to the end. */
  lemma RecordedIsSafe(u: Unit, report: RoleReport, payload: string, root: string, settle: Time, now: Time)
    requires UnitInv(u, root) && LiveCodex(u.run) && u.run.status.Running? && u.run.cancelRequestedAt.None?
    requires !MustSettle(u.run, settle)
    requires Some(report.role) == ExpectedRole(u.run.stage) && report.generation == u.run.leaseGeneration
    requires report.outcome == COMPLETED ==> report.finalSha == Sha256(report.finalText)
    ensures !Reported(u.reports, report.role)
    ensures Safe(u, PhaseRecorded(u, u.(reports := u.reports + [report]), report, payload, now), root, settle)
  {
    var v := u.(reports := u.reports + [report]);
    if report.outcome != COMPLETED {
      FailedReportIsSafe(u, v, report, payload, root, settle, now);
    } else if report.role.Reviewer? {
      ReviewedIsSafe(u, v, report, payload, root, settle, now);
    } else {
      HandedOverIsSafe(u, v, report, payload, root, settle, now);
    }
  }

  lemma HandedOverIsSafe(u: Unit, v: Unit, report: RoleReport, payload: string, root: string, settle: Time, now: Time)
    requires UnitInv(u, root) && LiveCodex(u.run) && v == u.(reports := u.reports + [report])
    requires u.run.status.Running? && u.run.cancelRequestedAt.None? && !MustSettle(u.run, settle)
    requires Some(report.role) == ExpectedRole(u.run.stage) && !report.role.Reviewer?
             && CompletedBy(report, report.role)
    ensures Safe(u, PhaseRecorded(u, v, report, payload, now), root, settle)
  {
    AdvancedIsSafe(u, PhaseRecorded(u, v, report, payload, now).unit, root, settle);
  }

  lemma FailedReportIsSafe(u: Unit, v: Unit, report: RoleReport, payload: string, root: string, settle: Time, now: Time)
    requires UnitInv(u, root) && LiveCodex(u.run) && v == u.(reports := u.reports + [report])
             && report.outcome != COMPLETED
    ensures Safe(u, PhaseRecorded(u, v, report, payload, now), root, settle)
  {
  }

  lemma ReviewedIsSafe(u: Unit, v: Unit, report: RoleReport, payload: string, root: string, settle: Time, now: Time)
    requires UnitInv(u, root) && LiveCodex(u.run) && v == u.(reports := u.reports + [report])
    requires u.run.status.Running? && u.run.stage.ReviewerRunning? && u.run.cancelRequestedAt.None?
    requires CompletedBy(report, Reviewer)
    ensures Safe(u, PhaseRecorded(u, v, report, payload, now), root, settle)
  {
  }

  lemma AbortIsSafe(u: Unit, payload: string, root: string, now: Time)
    requires UnitInv(u, root)
    ensures Safe(u, ControlApi.Abort(u, payload, now), root, now)
  {
    if !IsActive(u.run.status) || u.run.cancelRequestedAt.Some? {
      EvolvesReflexive(u, now);
    } else if u.run.status.Preparing? {
      AbortedPreparationIsSafe(u, payload, root, now);
    } else if u.run.backend.OpenCode? {
      ExecutionKeeps.InPlaceIsSafe(u, ControlApi.Abort(u, payload, now).unit.run, root, now);
    } else if u.run.status.Running? {
      AdvancedIsSafe(u, ControlApi.Abort(u, payload, now).unit, root, now);
    } else {
      AbortedQueueIsSafe(u, payload, root, now);
    }
  }

  lemma AbortedPreparationIsSafe(u: Unit, payload: string, root: string, now: Time)
    requires UnitInv(u, root) && u.run.status.Preparing?
    ensures Safe(u, ControlApi.Abort(u, payload, now), root, now)
  {
  }

  lemma AbortedQueueIsSafe(u: Unit, payload: string, root: string, now: Time)
    requires UnitInv(u, root) && LiveCodex(u.run) && u.run.status.Queued?
    ensures Safe(u, ControlApi.Abort(u, payload, now), root, now)
  {
  }

  lemma RequestCleanupIsSafe(u: Unit, expectedVersion: int, root: string, now: Time)
    requires UnitInv(u, root)
    ensures Safe(u, ControlApi.RequestCleanup(u, expectedVersion, now), root, now)
  {
  }
}
