/** The invariant that run, workspace, task, package and role reports keep together, and what a
    single transaction may change. */
module Lifecycle {
  import opened Prelude
  import opened Rows
  import opened Transactions
  import opened Fencing
  import CodexBroker

  /** Run and workspace move together. */
  predicate Coupled(run: RunStatus, ws: WorkspaceStatus) {
    && (run.Preparing? <==> ws.WsPending? || ws.WsPreparing? || ws.WsUnavailable?)
    && (run.Queued? || run.Running? <==> ws.WsReady?)
  }

  /** A package is provisional exactly while its inspection is outstanding; only a run
      cancelled before it was prepared ends without one. */
  ghost predicate PackageInv(u: Unit) {
    && (u.package.Some? && u.package.value.state.Provisional? <==> IsInspection(u.ws.status))
    && (u.package.Some? ==> CkPackage(u.package.value))
    && (u.package.Some? <==> IsTerminal(u.run.status) && !(u.run.status.Cancelled? && u.run.preflightCompletedAt.None?))
  }

  predicate Canonical(commit: string) {
    NormalizeCommit(commit) == Some(commit)
  }

  /** The workspace belongs to the run, and both rows carry the same preflight evidence or none. */
  ghost predicate BindingInv(run: Run, ws: Workspace, root: string) {
    && SameBinding(run, ws)
    && Canonical(ws.baseCommit)
    && ws.opencodePath == Path(root, ws.id) && PathLength(ws.opencodePath) <= 512
    && ws.initialTree == run.workspaceTree
    && ws.preflightDigest == run.preflightDigest
    && (ws.initialTree.Some? <==> run.preflightCompletedAt.Some?)
    && (ws.trackedEntries.Some? <==> run.preflightCompletedAt.Some?)
    && (ws.preflightDigest.Some? <==> run.preflightCompletedAt.Some?)
    && (ws.initialTree.Some? && ws.trackedEntries.Some? && ws.preflightDigest.Some? ==>
          Canonical(ws.initialTree.value) && ws.trackedEntries.value >= 0 && IsHex64(ws.preflightDigest.value))
    && (run.status.Preparing? ==> run.preflightCompletedAt.None?)
    && (IsInspection(ws.status) ==> run.preflightCompletedAt.Some?)
  }

  ghost predicate RunInv(run: Run) {
    && (run.leaseOwner.Some? <==> run.leaseExpiresAt.Some?)
    && (run.leaseOwner.Some? ==> run.status.Queued? || run.status.Running?)
    && (run.finishedAt.Some? <==> IsTerminal(run.status))
    && run.deadlineAt.Some?
    && (run.cancelRequestedAt.Some? ==> !run.status.Completed? && !run.status.Preparing?)
    && (run.status.Cancelled? ==> run.cancelRequestedAt.Some?)
    && (run.status.Running? && run.backend.OpenCode? ==> run.sessionId.Some?)
    && (run.status.Completed? && run.backend.OpenCode? ==>
          run.finishedAt.Some? && run.deadlineAt.Some? && run.finishedAt.value < run.deadlineAt.value)
    && (run.status.Preparing? ==> run.runtimeDigest.None? && run.runtimeVerifiedAt.None?)
  }

  /** The first `n` role reports were accepted, completed, in order, under the claimed generation. */
  ghost predicate ReportedInOrder(reports: seq<RoleReport>, n: nat) {
    && |reports| == n <= 3
    && (n >= 1 ==> CompletedBy(reports[0], Architect))
    && (n >= 2 ==> CompletedBy(reports[1], QaRole))
    && (n >= 3 ==> CompletedBy(reports[2], Reviewer))
  }

  ghost predicate CompletedBy(r: RoleReport, role: Role) {
    r.role == role && r.outcome == CodexBroker.COMPLETED && r.generation == 1 && r.finalSha == Sha256(r.finalText)
  }

  /** The subscription protocol: which stage a live run is in, who holds it, and what was reported. */
  ghost predicate CodexInv(run: Run, reports: seq<RoleReport>) {
    && (run.status.Preparing? ==> run.leaseGeneration == 0 && reports == [])
    && (run.status.Queued? ==>
          && run.cancelRequestedAt.None? && reports == [] && run.runtimeDigest.None? && run.runtimeVerifiedAt.None?
          && (run.stage.DispatchPending? || run.stage.CodexPreflightPending?)
          && (run.stage.DispatchPending? ==> run.leaseOwner.None? && run.leaseGeneration == 0)
          && (run.stage.CodexPreflightPending? ==> run.leaseOwner == Some(CodexBroker.CODEX_WORKER)
                                                   && run.leaseGeneration == 1))
    && (run.status.Running? ==>
          && run.leaseOwner == Some(CodexBroker.CODEX_WORKER)
          && (run.cancelRequestedAt.None? ==>
                && run.leaseGeneration == 1
                && (run.stage.ArchitectRunning? || run.stage.QaRunning? || run.stage.ReviewerRunning?)
                && (run.stage.ArchitectRunning? ==> ReportedInOrder(reports, 0))
                && (run.stage.QaRunning? ==> ReportedInOrder(reports, 1))
                && (run.stage.ReviewerRunning? ==> ReportedInOrder(reports, 2)))
          && (run.cancelRequestedAt.Some? ==> run.stage.CancelRequested?))
    && (run.status.Completed? ==>
          && run.stage.ReviewerCompleted? && run.leaseGeneration == 1
          && ReportedInOrder(reports, 3) && run.result == reports[2].finalText)
  }

  /** The invariant of the rows of one execution; `root` is the configured workspace root. */
  ghost predicate UnitInv(u: Unit, root: string) {
    var holds :=
    && Coupled(u.run.status, u.ws.status)
    && PackageInv(u)
    && BindingInv(u.run, u.ws, root)
    && RunInv(u.run)
    && CkRun(u.run)
    && CkWorkspace(u.ws)
    && (u.run.backend.CodexSubscription? ==> CodexInv(u.run, u.reports))
    && (u.run.backend.OpenCode? ==> u.reports == []);
    holds
  }

  function RunLease(run: Run): Leased {
    Leased(run.status.Queued? || run.status.Running?, 0, run.leaseOwner, run.leaseGeneration, 0, run.leaseExpiresAt)
  }

  function OperationTag(ws: WorkspaceStatus): nat {
    if ws.WsPreparing? then 1 else if ws.WsInspecting? then 2 else if ws.WsCleaning? then 3 else 0
  }

  function WorkspaceLease(ws: Workspace): Leased {
    Leased(IsLeased(ws.status), OperationTag(ws.status), ws.leaseOwner, ws.generation, ws.version, ws.leaseExpiresAt)
  }

  function StatusRank(s: RunStatus): nat {
    match s
    case Preparing => 0
    case Queued => 1
    case Running => 2
    case _ => 3
  }

  /** How far a subscription run has come: dispatch, preflight, the three roles, cancellation, the end. */
  function CodexRank(run: Run): nat {
    if IsTerminal(run.status) then 7
    else if run.status.Preparing? then 0
    else
      match run.stage
      case DispatchPending => 1
      case CodexPreflightPending => 2
      case ArchitectRunning => 3
      case QaRunning => 4
      case ReviewerRunning => 5
      case _ => 6
  }

  /** What one transaction at `now` may do to the rows of an execution. */
  ghost predicate Evolves(u: Unit, v: Unit, now: Time) {
    var legal :=
    && u.run.id == v.run.id && u.run.taskId == v.run.taskId && u.run.workspaceId == v.run.workspaceId
    && u.run.backend == v.run.backend
    && StatusRank(u.run.status) <= StatusRank(v.run.status)
    && (IsTerminal(u.run.status) ==> v.run == u.run && v.reports == u.reports)
    && (u.package.Some? ==> v.package.Some?)
    && (u.package.Some? && u.package.value.state.Final? ==> v.package == u.package)
    && (u.run.cancelRequestedAt.Some? ==>
          && v.run.cancelRequestedAt == u.run.cancelRequestedAt
          && (v.run.status.Completed? ==> u.run.status.Completed?)
          && (u.run.status.Queued? ==> !v.run.status.Running?))
    && (u.run.sessionId.Some? ==> v.run.sessionId == u.run.sessionId)
    && (u.run.preflightDigest.Some? ==> v.run.preflightDigest == u.run.preflightDigest)
    && v.run.deadlineAt == u.run.deadlineAt
    && (u.run.backend.CodexSubscription? ==> CodexRank(u.run) <= CodexRank(v.run))
    && u.reports <= v.reports
    && FencedStep(RunLease(u.run), RunLease(v.run), now)
    && FencedStep(WorkspaceLease(u.ws), WorkspaceLease(v.ws), now);
    legal
  }

  /** A transaction keeps the invariant, evolves the rows legally and never meets an immutable package. */
  ghost predicate Safe(u: Unit, tx: Tx, root: string, now: Time) {
    var holds := UnitInv(tx.unit, root) && Evolves(u, tx.unit, now) && tx.outcome != Raised(IMMUTABLE);
    holds
  }

  /** The task column belongs to the manager: the invariant does not depend on it. */
  lemma TaskIsFree(u: Unit, task: TaskStatus, root: string, now: Time)
    ensures UnitInv(u, root) ==> UnitInv(u.(task := task), root)
    ensures Evolves(u, u.(task := task), now)
  {
  }

  lemma EvolvesReflexive(u: Unit, now: Time)
    ensures Evolves(u, u, now)
  {
  }
}
