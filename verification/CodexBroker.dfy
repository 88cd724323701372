/** `codex_broker.py`: the single-claim subscription worker protocol. */
module CodexBroker {
  import opened Prelude
  import opened Rows
  import opened Transactions
  import W = WorkspaceLeases

  const CODEX_WORKER := "codex-worker"
  const LEASE: Time := 120 * SECOND

  /** The repository row as `repository_trusted` reads it. */
  datatype Repo = Repo(enabled: bool, ready: bool, lastKnownCommit: Option<string>, generalStandard: bool)

  datatype Preflight = Preflight(generation: int, baseCommit: string, baseTree: string, digest: string)

  datatype Report = Report(generation: int, role: Option<Role>, outcome: string, model: string, finalText: string,
                           finalSha: Digest, eventsSha: Digest, baseCommit: string, baseTree: string, digest: string)

  const COMPLETED := "completed"
  const OUTCOMES := [COMPLETED, "execution_failed", "local_timeout", "incomplete_result", "read_only_violation",
                     "auth_failed", "workspace_failed"]

  predicate Trusted(run: Run, repo: Option<Repo>) {
    && repo.Some? && repo.value.enabled && repo.value.ready
    && repo.value.lastKnownCommit == Some(run.baseCommit)
    && repo.value.generalStandard
  }

  /** `binding` builds an attested binding. */
  predicate Bound(run: Run, ws: Workspace, root: string) {
    && ws.status.WsReady? && ws.version >= 1
    && SameBinding(run, ws)
    && ws.initialTree == run.workspaceTree
    && ws.preflightDigest == run.preflightDigest
    && ws.preflightDigest.Some? && IsHex64(ws.preflightDigest.value)
    && ws.initialTree.Some? && IsCommit(ws.initialTree.value)
    && IsCommit(ws.baseCommit)
    && ws.trackedEntries.Some? && ws.trackedEntries.value >= 0
    && ws.opencodePath == Path(root, ws.id)
    && run.preflightCompletedAt.Some?
  }

  /** `terminal`: fence the worker and end the run; a ready workspace is queued for inspection. */
  function Terminal(u: Unit, status: RunStatus, code: string, payload: string, outcome: Outcome, now: Time): Tx {
    var run := Ended(u.run, status, Named(code), now).(leaseGeneration := u.run.leaseGeneration + 1);
    var task := if u.task.Qa? then TaskFailed else FailedTask(u.task);
    if u.ws.status.WsReady? then W.Closed(u, run, task, payload, outcome, now)
    else Sealed(u, u.(run := run, task := task), payload, outcome, now)
  }

  predicate PreflightPending(run: Run) {
    run.status.Queued? && run.stage.CodexPreflightPending?
  }

  predicate Elapsed(instant: Option<Time>, now: Time) {
    instant.None? || instant.value <= now
  }

  /** The state and generation checks of `owned`. */
  predicate HeldBy(run: Run, generation: int, pending: bool, allowPending: bool) {
    && run.backend.CodexSubscription?
    && (if pending then PreflightPending(run) else run.status.Running? || (allowPending && PreflightPending(run)))
    && run.leaseGeneration == generation
    && run.leaseOwner == Some(CODEX_WORKER)
  }

  /** The expiry checks of `owned`: the lease must be settled instead of used. */
  predicate MustSettle(run: Run, now: Time) {
    run.cancelRequestedAt.Some? || Elapsed(run.deadlineAt, now) || Elapsed(run.leaseExpiresAt, now)
  }

  function Settled(u: Unit, code: string, payload: string, outcome: Outcome, now: Time): Tx {
    if u.run.cancelRequestedAt.Some? then Terminal(u, Cancelled, "codex_cancelled", payload, outcome, now)
    else Terminal(u, Failed, code, payload, outcome, now)
  }

  /** The sweep of `claim`, for one expired run: never recovered, always ended. */
  function Sweep(u: Unit, payload: string, now: Time): Tx {
    if u.run.backend.CodexSubscription? && (u.run.status.Running? || PreflightPending(u.run))
       && u.run.leaseExpiresAt.Some? && u.run.leaseExpiresAt.value <= now
    then Settled(u, "codex_lease_expired", payload, NotClaimed, now)
    else Tx(u, NotClaimed)
  }

  /** The queued half of `claim`, for the oldest dispatchable run. */
  function Claim(u: Unit, repo: Option<Repo>, root: string, payload: string, now: Time): Tx {
    if !u.run.backend.CodexSubscription? || !u.run.status.Queued? || !u.run.stage.DispatchPending?
        || u.run.leaseOwner.Some? then
      Tx(u, NotClaimed)
    else if u.run.cancelRequestedAt.Some? || Elapsed(u.run.deadlineAt, now) then
      Settled(u, "codex_deadline_expired", payload, NotClaimed, now)
    else if !Trusted(u.run, repo) then Terminal(u, Failed, "repository_trust_revoked", payload, NotClaimed, now)
    else if !Bound(u.run, u.ws, root) then Terminal(u, Failed, "workspace_database_binding_mismatch", payload,
                                                    NotClaimed, now)
    else
      Tx(u.(run := u.run.(leaseGeneration := u.run.leaseGeneration + 1, leaseOwner := Some(CODEX_WORKER),
                          leaseExpiresAt := Some(now + LEASE), heartbeatAt := Some(now),
                              stage := CodexPreflightPending)),
         Claimed(u.run.leaseGeneration + 1, u.ws.version))
  }

  /** `preflight`; `settle` is the clock reading of `owned`, `now` the later one of the write. */
  function AcceptPreflight(u: Unit, body: Preflight, repo: Option<Repo>, root: string, payload: string, settle: Time,
                           now: Time): Tx {
    if !HeldBy(u.run, body.generation, true, false) then Tx(u, Conflict(409))
    else if MustSettle(u.run, settle) then Settled(u, "codex_lease_expired", payload, Conflict(409), settle)
    else if body.baseCommit != u.run.baseCommit || Some(body.baseTree) != u.run.workspaceTree
            || Some(body.digest) != u.run.preflightDigest || !Bound(u.run, u.ws, root) || !Trusted(u.run, repo)
            || u.run.runtimeDigest.Some? || u.run.runtimeVerifiedAt.Some? then Tx(u, Conflict(409))
    else
      Tx(u.(run := u.run.(runtimeDigest := Some(body.digest), runtimeVerifiedAt := Some(now), status := Running,
                          stage := ArchitectRunning, heartbeatAt := Some(now), leaseExpiresAt := Some(now + LEASE))),
         Accepted)
  }

  function Heartbeat(u: Unit, generation: int, payload: string, settle: Time, now: Time): Tx {
    if !HeldBy(u.run, generation, false, true) then Tx(u, Conflict(409))
    else if MustSettle(u.run, settle) then Settled(u, "codex_lease_expired", payload, Conflict(409), settle)
    else Tx(u.(run := u.run.(heartbeatAt := Some(now), leaseExpiresAt := Some(now + LEASE))), Accepted)
  }

  function ExpectedRole(stage: Stage): Option<Role> {
    match stage
    case ArchitectRunning => Some(Architect)
    case QaRunning => Some(QaRole)
    case ReviewerRunning => Some(Reviewer)
    case _ => None
  }

  /** The HTTP status with which `phase` refuses a report without touching a row. */
  function Refusal(u: Unit, body: Report, root: string): Option<int> {
    if body.role.None? || body.role != ExpectedRole(u.run.stage) then Some(409)
    else if body.outcome !in OUTCOMES then Some(422)
    else if body.baseCommit != u.run.baseCommit || Some(body.baseTree) != u.run.workspaceTree
            || Some(body.digest) != u.run.preflightDigest || !Bound(u.run, u.ws, root) then Some(409)
    else if Utf8Length(body.finalText) > 400_000 || body.finalSha.Malformed? || body.eventsSha.Malformed? then Some(422)
    else if body.outcome == COMPLETED
            && (IsBlank(body.finalText) || IsBlank(body.model) || body.finalSha != Sha256(body.finalText))
              then Some(422)
    else None
  }

  function RoleCode(role: Role): string {
    match role
    case Architect => "codex_architect_failed"
    case QaRole => "codex_qa_failed"
    case Reviewer => "codex_reviewer_failed"
  }

  predicate Reported(reports: seq<RoleReport>, role: Role) {
    exists i :: 0 <= i < |reports| && reports[i].role == role
  }

  /** `phase`. */
  function Phase(u: Unit, body: Report, repo: Option<Repo>, root: string, payload: string, settle: Time,
                 now: Time): Tx {
    if !HeldBy(u.run, body.generation, false, false) then Tx(u, Conflict(409))
    else if MustSettle(u.run, settle) then Settled(u, "codex_lease_expired", payload, Conflict(409), settle)
    else if Refusal(u, body, root).Some? then Tx(u, Conflict(Refusal(u, body, root).value))
    else if !Trusted(u.run, repo) then Terminal(u, Failed, "repository_trust_revoked", payload, EndedFailed, now)
    else if Reported(u.reports, body.role.value) then Tx(u, Raised("ux_execution_child_runs_source"))
    else
      var report := RoleReport(body.role.value, body.outcome, body.generation, body.finalText, body.finalSha);
      PhaseRecorded(u, u.(reports := u.reports + [report]), report, payload, now)
  }

  /** `phase` after the report rows are added to `v`; a failing commit returns to `before`. */
  function PhaseRecorded(before: Unit, v: Unit, report: RoleReport, payload: string, now: Time): Tx {
    if report.outcome != COMPLETED then
      OrRollback(before, Terminal(v, Failed, RoleCode(report.role), payload, EndedFailed, now))
    else
      match report.role
      case Reviewer =>
        var run := v.run.(status := Completed, stage := ReviewerCompleted, result := report.finalText,
                          finishedAt := Some(now),
                          leaseOwner := None, leaseExpiresAt := None);
        OrRollback(before, W.Closed(v, run, if v.task.InProgress? then Qa else v.task, payload, EndedCompleted, now))
      case _ =>
        Tx(v.(run := v.run.(stage := if report.role.Architect? then QaRunning
                                       else ReviewerRunning, heartbeatAt := Some(now),
                            leaseExpiresAt := Some(now + LEASE))), Accepted)
  }

  function OrRollback(before: Unit, tx: Tx): Tx {
    if tx.outcome.Raised? then Tx(before, tx.outcome) else tx
  }

  class Broker {
    const root: string

    constructor (workspaceRoot: string)
      ensures root == workspaceRoot
    {
      root := workspaceRoot;
    }

    /** The run and task columns of `terminal`. */
    method EndRun(db: Session, status: RunStatus, code: string, now: Time)
      modifies db`run, db`task
      ensures db.run == Ended(old(db.run), status, Named(code),
                              now).(leaseGeneration := old(db.run).leaseGeneration + 1)
      ensures db.task == if old(db.task).Qa? then TaskFailed else FailedTask(old(db.task))
    {
      db.run := db.run.(status := status, stage := Named(code));
      db.run := db.run.(finishedAt := Some(now), heartbeatAt := Some(now));
      db.run := db.run.(leaseGeneration := db.run.leaseGeneration + 1, leaseOwner := None, leaseExpiresAt := None);
      if db.task.Qa? {
        db.task := TaskFailed;
      }
      db.FailTask();
    }

    /** `terminal`. */
    method Finish(db: Session, status: RunStatus, code: string, payload: string, reported: Outcome, now: Time)
        returns (outcome: Outcome)
      modifies db
      ensures Tx(db.Rows(), outcome) == Terminal(old(db.Rows()), status, code, payload, reported, now)
    {
      var before := db.Rows();
      EndRun(db, status, code, now);
      if db.workspace.status.WsReady? {
        outcome := W.Close(db, before, payload, reported, now);
      } else {
        assert db.Rows() == before.(run := db.run, task := db.task);
        outcome := db.Seal(before, payload, reported, now);
      }
    }

    method Settle(db: Session, code: string, payload: string, reported: Outcome, now: Time) returns (outcome: Outcome)
      modifies db
      ensures Tx(db.Rows(), outcome) == Settled(old(db.Rows()), code, payload, reported, now)
    {
      if db.run.cancelRequestedAt.Some? {
        outcome := Finish(db, Cancelled, "codex_cancelled", payload, reported, now);
      } else {
        outcome := Finish(db, Failed, code, payload, reported, now);
      }
    }

    method SweepRow(db: Session, payload: string, now: Time) returns (outcome: Outcome)
      modifies db
      ensures Tx(db.Rows(), outcome) == Sweep(old(db.Rows()), payload, now)
    {
      if db.run.backend.CodexSubscription? && (db.run.status.Running? || PreflightPending(db.run))
         && db.run.leaseExpiresAt.Some? && db.run.leaseExpiresAt.value <= now {
        outcome := Settle(db, "codex_lease_expired", payload, NotClaimed, now);
      } else {
        outcome := NotClaimed;
      }
    }

    method ClaimQueued(db: Session, repo: Option<Repo>, payload: string, now: Time) returns (outcome: Outcome)
      modifies db
      ensures Tx(db.Rows(), outcome) == Claim(old(db.Rows()), repo, root, payload, now)
    {
      if !db.run.backend.CodexSubscription? || !db.run.status.Queued? || !db.run.stage.DispatchPending?
          || db.run.leaseOwner.Some? {
        return NotClaimed;
      }
      if db.run.cancelRequestedAt.Some? || Elapsed(db.run.deadlineAt, now) {
        outcome := Settle(db, "codex_deadline_expired", payload, NotClaimed, now);
        return;
      }
      if !Trusted(db.run, repo) {
        outcome := Finish(db, Failed, "repository_trust_revoked", payload, NotClaimed, now);
        return;
      }
      if !Bound(db.run, db.workspace, root) {
        outcome := Finish(db, Failed, "workspace_database_binding_mismatch", payload, NotClaimed, now);
        return;
      }
      db.run := db.run.(leaseGeneration := db.run.leaseGeneration + 1, leaseOwner := Some(CODEX_WORKER));
      db.run := db.run.(leaseExpiresAt := Some(now + LEASE), heartbeatAt := Some(now));
      db.run := db.run.(stage := CodexPreflightPending);
      return Claimed(db.run.leaseGeneration, db.workspace.version);
    }

    /** `claim`: end every expired run, then hand out at most the one dispatchable run found. */
    method ClaimNext(expired: seq<Session>, payloads: seq<string>, queued: Session, repo: Option<Repo>, payload: string,
                     now: Time)
      returns (outcome: Outcome)
      requires |payloads| == |expired| && queued !in expired
      requires forall i, j :: 0 <= i < j < |expired| ==> expired[i] != expired[j]
      modifies expired, queued
      ensures forall i :: 0 <= i < |expired|
                          ==> expired[i].Rows() == Sweep(old(expired[i].Rows()), payloads[i], now).unit
      ensures Tx(queued.Rows(), outcome) == Claim(old(queued.Rows()), repo, root, payload, now)
    {
      for k := 0 to |expired|
        invariant forall i :: 0 <= i < k ==> expired[i].Rows() == Sweep(old(expired[i].Rows()), payloads[i], now).unit
        invariant forall i :: k <= i < |expired| ==> expired[i].Rows() == old(expired[i].Rows())
        invariant queued.Rows() == old(queued.Rows())
      {
        var _ := SweepRow(expired[k], payloads[k], now);
      }
      outcome := ClaimQueued(queued, repo, payload, now);
    }

    method PreflightAccepted(db: Session, body: Preflight, repo: Option<Repo>, payload: string, settle: Time, now: Time)
        returns (outcome: Outcome)
      modifies db
      ensures Tx(db.Rows(), outcome) == AcceptPreflight(old(db.Rows()), body, repo, root, payload, settle, now)
    {
      if !HeldBy(db.run, body.generation, true, false) {
        return Conflict(409);
      }
      if MustSettle(db.run, settle) {
        outcome := Settle(db, "codex_lease_expired", payload, Conflict(409), settle);
        return;
      }
      if body.baseCommit != db.run.baseCommit || Some(body.baseTree) != db.run.workspaceTree
          || Some(body.digest) != db.run.preflightDigest {
        return Conflict(409);
      }
      if !Bound(db.run, db.workspace, root) {
        return Conflict(409);
      }
      if !Trusted(db.run, repo) || db.run.runtimeDigest.Some? || db.run.runtimeVerifiedAt.Some? {
        return Conflict(409);
      }
      db.run := db.run.(runtimeDigest := Some(body.digest), runtimeVerifiedAt := Some(now));
      db.run := db.run.(status := Running, stage := ArchitectRunning);
      db.run := db.run.(heartbeatAt := Some(now), leaseExpiresAt := Some(now + LEASE));
      return Accepted;
    }

    method HeartbeatAccepted(db: Session, generation: int, payload: string, settle: Time, now: Time)
        returns (outcome: Outcome)
      modifies db
      ensures Tx(db.Rows(), outcome) == Heartbeat(old(db.Rows()), generation, payload, settle, now)
    {
      if !HeldBy(db.run, generation, false, true) {
        return Conflict(409);
      }
      if MustSettle(db.run, settle) {
        outcome := Settle(db, "codex_lease_expired", payload, Conflict(409), settle);
        return;
      }
      db.run := db.run.(heartbeatAt := Some(now), leaseExpiresAt := Some(now + LEASE));
      return Accepted;
    }

    /** The end of `phase`, after the report rows were added. */
    method ReportAccepted(db: Session, before: Unit, report: RoleReport, payload: string, now: Time)
        returns (outcome: Outcome)
      modifies db
      ensures Tx(db.Rows(), outcome) == PhaseRecorded(before, old(db.Rows()), report, payload, now)
    {
      if report.outcome != COMPLETED {
        outcome := Finish(db, Failed, RoleCode(report.role), payload, EndedFailed, now);
      } else if report.role.Reviewer? {
        var recorded := db.Rows();
        db.run := db.run.(status := Completed, stage := ReviewerCompleted, result := report.finalText);
        db.run := db.run.(finishedAt := Some(now), leaseOwner := None, leaseExpiresAt := None);
        if db.task.InProgress? {
          db.task := Qa;
        }
        outcome := W.Close(db, recorded, payload, EndedCompleted, now);
      } else {
        db.run := db.run.(stage := if report.role.Architect? then QaRunning else ReviewerRunning);
        db.run := db.run.(heartbeatAt := Some(now), leaseExpiresAt := Some(now + LEASE));
        return Accepted;
      }
      if outcome.Raised? {
        db.Rollback(before);
      }
    }

    method PhaseReported(db: Session, body: Report, repo: Option<Repo>, payload: string, settle: Time, now: Time)
        returns (outcome: Outcome)
      modifies db
      ensures Tx(db.Rows(), outcome) == Phase(old(db.Rows()), body, repo, root, payload, settle, now)
    {
      if !HeldBy(db.run, body.generation, false, false) {
        return Conflict(409);
      }
      if MustSettle(db.run, settle) {
        outcome := Settle(db, "codex_lease_expired", payload, Conflict(409), settle);
        return;
      }
      var refusal := Refusal(db.Rows(), body, root);
      if refusal.Some? {
        return Conflict(refusal.value);
      }
      if !Trusted(db.run, repo) {
        outcome := Finish(db, Failed, "repository_trust_revoked", payload, EndedFailed, now);
        return;
      }
      if Reported(db.reports, body.role.value) {
        return Raised("ux_execution_child_runs_source");
      }
      var before := db.Rows();
      var report := RoleReport(body.role.value, body.outcome, body.generation, body.finalText, body.finalSha);
      db.reports := db.reports + [report];
      outcome := ReportAccepted(db, before, report, payload, now);
    }
  }
}
