/** The durable rows of one execution, and the CHECK constraints the database puts on them. */
module Rows {
  import opened Prelude

  datatype RunStatus = Preparing | Queued | Running | Completed | Failed | Cancelled

  datatype Backend = OpenCode | CodexSubscription

  datatype Stage =
    | WorkspacePending | WorkspaceRetryWait | WorkspacePreflightFailed | WorkspacePreflightTimedOut
    | WorkspaceBindingRejected | DispatchPending | DispatchSessionReady | DispatchPreflightVerified
    | SafetyAbortRequested | DepartmentLead | OpenCodeFailed | ManagerReview | TimeoutAbortPending
    | TimedOut | StalledToolAbortPending | StalledTool | CancelRequested | CancelCleanupPending | Stopped
    | RunnerValidation | CodexPreflightPending | ArchitectRunning | QaRunning | ReviewerRunning
    | ReviewerCompleted | Named(code: string)

  datatype WorkspaceStatus =
    | WsPending | WsPreparing | WsUnavailable | WsReady | WsInspectionPending | WsInspecting
    | WsRetained | WsCleanupPending | WsCleaning | WsRemoved | WsInvalid

  datatype TaskStatus = Backlog | Planned | InProgress | WaitingApproval | Qa | TaskFailed | TaskDone

  /** `root / workspace_id`; the identifier is the last 36 characters of the path text. */
  datatype Path = Path(root: string, leaf: Uuid)

  function PathLength(p: Path): nat {
    |p.root| + 1 + 36
  }

  datatype Run = Run(
    id: Uuid, taskId: Uuid, repositoryId: Uuid, workspaceId: Uuid,
    baseCommit: string, workspacePath: Path, backend: Backend,
    workspaceTree: Option<string>, preflightDigest: Option<string>, preflightCompletedAt: Option<Time>,
    runtimeDigest: Option<string>, runtimeVerifiedAt: Option<Time>,
    status: RunStatus, stage: Stage, sessionId: Option<string>, result: string,
    leaseOwner: Option<string>, leaseGeneration: nat, leaseExpiresAt: Option<Time>,
    heartbeatAt: Option<Time>, deadlineAt: Option<Time>, cancelRequestedAt: Option<Time>,
    finishedAt: Option<Time>)

  datatype Workspace = Workspace(
    id: Uuid, taskId: Uuid, repositoryId: Uuid, baseCommit: string, opencodePath: Path,
    status: WorkspaceStatus,
    initialTree: Option<string>, preflightDigest: Option<string>, trackedEntries: Option<int>,
    currentHead: Option<string>, currentTree: Option<string>, changeDigest: Option<string>,
    hasChanges: Option<bool>, changedFileCount: Option<int>,
    generation: nat, version: nat, failureCount: nat,
    startedAt: Option<Time>, preparedAt: Option<Time>, inspectionRequestedAt: Option<Time>,
    inspectedAt: Option<Time>, cleanupRequestedAt: Option<Time>, cleanedAt: Option<Time>,
    nextAttemptAt: Option<Time>, leaseOwner: Option<string>, leaseExpiresAt: Option<Time>,
    lastErrorCode: Option<string>)

  datatype PackageState = Provisional | Final

  datatype Package = Package(state: PackageState, payload: string, digest: Digest, finalizedAt: Option<Time>)

  datatype Role = Architect | QaRole | Reviewer

  /** One accepted role report: the child-run row, its evidence row and the audited generation. */
  datatype RoleReport = RoleReport(role: Role, outcome: string, generation: int, finalText: string, finalSha: Digest)

  /** The rows one execution transaction locks. */
  datatype Unit = Unit(run: Run, ws: Workspace, task: TaskStatus, package: Option<Package>, reports: seq<RoleReport>)

  predicate IsTerminal(s: RunStatus) {
    s.Completed? || s.Failed? || s.Cancelled?
  }

  predicate IsActive(s: RunStatus) {
    s.Preparing? || s.Queued? || s.Running?
  }

  /** The workspace is being prepared, inspected or cleaned under a lease. */
  predicate IsLeased(s: WorkspaceStatus) {
    s.WsPreparing? || s.WsInspecting? || s.WsCleaning?
  }

  /** The workspace waits for its next attempt. */
  predicate IsWaiting(s: WorkspaceStatus) {
    s.WsPending? || s.WsUnavailable? || s.WsInspectionPending? || s.WsCleanupPending?
  }

  predicate IsInspection(s: WorkspaceStatus) {
    s.WsInspectionPending? || s.WsInspecting?
  }

  predicate CommitLength(n: nat) {
    n == 40 || n == 64
  }

  /** Every `ck_task_workspaces_*` constraint on the modelled columns. */
  ghost predicate CkWorkspace(w: Workspace) {
    var holds :=
    && CommitLength(|w.baseCommit|)
    && 1 <= PathLength(w.opencodePath) <= 512
    && w.version >= 1
    && (w.changedFileCount.Some? ==> w.changedFileCount.value >= 0)
    && (w.leaseOwner.Some? <==> w.leaseExpiresAt.Some?)
    && (IsLeased(w.status) <==> w.leaseOwner.Some?)
    && (IsWaiting(w.status) <==> w.nextAttemptAt.Some?)
    && (w.status.WsReady? ==>
          && w.initialTree.Some? && CommitLength(|w.initialTree.value|)
          && w.preflightDigest.Some? && |w.preflightDigest.value| == 64
          && w.trackedEntries.Some? && w.trackedEntries.value >= 0
          && w.preparedAt.Some? && w.lastErrorCode.None?)
    && (w.status.WsRetained? ==> w.inspectedAt.Some? && w.hasChanges.Some? && w.changedFileCount.Some?)
    && (w.status.WsRemoved? ==> w.cleanedAt.Some?);
    holds
  }

  /** Every `ck_execution_runs_*` constraint, for a contract-v2 row. */
  ghost predicate CkRun(r: Run) {
    var holds :=
    && CommitLength(|r.baseCommit|)
    && 1 <= PathLength(r.workspacePath) <= 512
    && (r.status.Queued? || r.status.Running? || r.status.Completed? ==>
          && r.workspaceTree.Some? && CommitLength(|r.workspaceTree.value|)
          && r.preflightDigest.Some? && |r.preflightDigest.value| == 64
          && r.preflightCompletedAt.Some?)
    && (r.status.Running? || r.status.Completed? ==>
          && r.runtimeDigest.Some? && |r.runtimeDigest.value| == 64
          && r.runtimeDigest == r.preflightDigest
          && r.runtimeVerifiedAt.Some?);
    holds
  }

  /** `ck_execution_result_packages_*`; the digest is that of the stored payload. */
  ghost predicate CkPackage(p: Package) {
    && p.digest == Sha256(p.payload)
    && (p.state == Final <==> p.finalizedAt.Some?)
  }
}
