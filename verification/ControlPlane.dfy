/** The control plane as a machine over its tables: every transaction of the execution worker, the
    workspace manager, the subscription worker and the manager endpoints, in any order. */
module ControlPlane {
  import opened Prelude
  import opened Rows
  import opened Transactions
  import opened Lifecycle
  import W = WorkspaceLeases
  import E = ExecutionLeases
  import C = CodexBroker
  import ControlApi
  import ExecutionKeeps
  import WorkspaceKeeps
  import CodexKeeps

  datatype Tables = Tables(runs: map<Uuid, Run>, workspaces: map<Uuid, Workspace>, tasks: map<Uuid, TaskStatus>,
                           packages: map<Uuid, Package>, reports: map<Uuid, seq<RoleReport>>)

  datatype ExecutionOp =
    | ClaimRun | HeartbeatRun(allowCancel: bool) | PersistSession(session: string) | RuntimeVerified(digest: string)
    | RuntimeRejected(code: string) | SafetyCancel | Dispatched(session: string) | Observation(seen: E.Observed)
    | AbortPending(stage: Stage) | TimedOutNow | StalledNow | CancelPending | CancelDone | GateFailed(code: string)
    | Continued(stage: Stage)

  datatype WorkspaceOp =
    | ClaimWorkspace | HeartbeatWorkspace | PrepareDone(prepared: W.Prepared, trust: W.Trust)
    | InspectDone(result: W.Inspection)
    | CleanupDone | CleanupBlocked(result: W.Inspection) | WorkspaceFailed(code: string, giveUp: bool)

  datatype CodexOp =
    | CodexSweep | CodexClaim(repo: Option<C.Repo>) | CodexPreflight(body: C.Preflight, repo: Option<C.Repo>)
    | CodexHeartbeat(generation: int) | CodexPhase(report: C.Report, repo: Option<C.Repo>)

  /** One transaction on the rows of one execution, with everything it reads from outside. The
      subscription endpoints read the clock twice: `written` is the later reading. */
  datatype Action =
    | ByWorker(worker: E.Worker, lease: E.ExecutionLease, execution: ExecutionOp)
    | ByManager(manager: W.Config, ticket: W.Lease, workspace: WorkspaceOp)
    | ByCodex(attestedRoot: string, written: Time, codex: CodexOp)
    | Abort
    | RequestCleanup(expectedVersion: int)

  function ApplyExecution(w: E.Worker, lease: E.ExecutionLease, op: ExecutionOp, u: Unit, payload: string,
                          now: Time): Tx {
    match op
    case ClaimRun => E.ClaimRun(w, u, payload, now)
    case HeartbeatRun(allowCancel) => E.HeartbeatRun(w, u, lease, allowCancel, now)
    case PersistSession(session) => E.PersistDispatchSession(w, u, lease, session, now)
    case RuntimeVerified(digest) => E.MarkRuntimeVerified(w, u, lease, digest, now)
    case RuntimeRejected(code) => E.MarkRuntimeRejected(w, u, lease, code, payload, now)
    case SafetyCancel => E.RequestSafetyCancel(w, u, lease, now)
    case Dispatched(session) => E.MarkDispatched(w, u, lease, session, now)
    case Observation(seen) => E.ApplyObservation(w, u, lease, seen, payload, now)
    case AbortPending(stage) => E.MarkAbortPending(w, u, lease, stage, now)
    case TimedOutNow => E.MarkAborted(w, u, lease, TimedOut, payload, EndedTimedOut, now)
    case StalledNow => E.MarkAborted(w, u, lease, StalledTool, payload, EndedStalled, now)
    case CancelPending => E.MarkCancelPending(w, u, lease, now)
    case CancelDone => E.MarkCancelled(w, u, lease, payload, now)
    case GateFailed(code) => E.FailRunnerGate(w, u, lease, code, payload, now)
    case Continued(stage) => E.ContinueRunning(w, u, lease, stage, now)
  }

  function ApplyWorkspace(c: W.Config, ticket: W.Lease, op: WorkspaceOp, u: Unit, payload: string, now: Time): Tx {
    match op
    case ClaimWorkspace => W.Claim(c, u, payload, now)
    case HeartbeatWorkspace => W.Heartbeat(c, u, ticket, now)
    case PrepareDone(prepared, trust) => W.MarkPrepareSuccess(c, u, ticket, prepared, trust, payload, now)
    case InspectDone(result) => W.MarkInspectionSuccess(c, u, ticket, result, payload, now)
    case CleanupDone => W.MarkCleanupSuccess(c, u, ticket, payload, now)
    case CleanupBlocked(result) => W.MarkCleanupRetained(c, u, ticket, result, payload, now)
    case WorkspaceFailed(code, giveUp) => W.MarkFailure(c, u, ticket, code, giveUp, payload, now)
  }

  function ApplyCodex(root: string, op: CodexOp, u: Unit, payload: string, now: Time, written: Time): Tx {
    match op
    case CodexSweep => C.Sweep(u, payload, now)
    case CodexClaim(repo) => C.Claim(u, repo, root, payload, now)
    case CodexPreflight(body, repo) => C.AcceptPreflight(u, body, repo, root, payload, now, written)
    case CodexHeartbeat(generation) => C.Heartbeat(u, generation, payload, now, written)
    case CodexPhase(report, repo) => C.Phase(u, report, repo, root, payload, now, written)
  }

  function Apply(a: Action, u: Unit, payload: string, now: Time): Tx {
    match a
    case ByWorker(w, lease, op) => ApplyExecution(w, lease, op, u, payload, now)
    case ByManager(c, ticket, op) => ApplyWorkspace(c, ticket, op, u, payload, now)
    case ByCodex(attestedRoot, written, op) => ApplyCodex(attestedRoot, op, u, payload, now, written)
    case Abort => ControlApi.Abort(u, payload, now)
    case RequestCleanup(expectedVersion) => ControlApi.RequestCleanup(u, expectedVersion, now)
  }

  /** Deployment facts: execution workers never use the subscription worker's name, every workspace
      manager uses the workspace root of the API, and a result is reported for the operation claimed. */
  predicate Configured(a: Action, root: string) {
    match a
    case ByWorker(w, _, _) => w.id != C.CODEX_WORKER
    case ByManager(c, ticket, op) =>
      && c.root == root
      && (op.PrepareDone? ==> ticket.operation.Prepare?)
      && (op.InspectDone? ==> ticket.operation.Inspect?)
      && (op.CleanupDone? || op.CleanupBlocked? ==> ticket.operation.Cleanup?)
    case _ => true
  }

  lemma ExecutionIsSafe(w: E.Worker, lease: E.ExecutionLease, op: ExecutionOp, u: Unit, payload: string, root: string,
                        now: Time)
    requires UnitInv(u, root) && w.id != C.CODEX_WORKER
    ensures Safe(u, ApplyExecution(w, lease, op, u, payload, now), root, now)
  {
    match op
    case ClaimRun => ExecutionKeeps.ClaimRunIsSafe(w, u, payload, root, now);
    case HeartbeatRun(allowCancel) => ExecutionKeeps.RenewalIsSafe(w, u, lease, allowCancel, Stopped, root, now);
    case Observation(seen) => ExecutionKeeps.ApplyObservationIsSafe(w, u, lease, seen, payload, root, now);
    case AbortPending(stage) => ExecutionKeeps.RenewalIsSafe(w, u, lease, true, stage, root, now);
    case Continued(stage) => ExecutionKeeps.RenewalIsSafe(w, u, lease, true, stage, root, now);
    case PersistSession(_) => DispatchingIsSafe(w, lease, op, u, payload, root, now);
    case RuntimeVerified(_) => DispatchingIsSafe(w, lease, op, u, payload, root, now);
    case RuntimeRejected(_) => DispatchingIsSafe(w, lease, op, u, payload, root, now);
    case SafetyCancel => DispatchingIsSafe(w, lease, op, u, payload, root, now);
    case Dispatched(_) => DispatchingIsSafe(w, lease, op, u, payload, root, now);
    case _ => EndingIsSafe(w, lease, op, u, payload, root, now);
  }

  /** The operations of the dispatch. */
  lemma DispatchingIsSafe(w: E.Worker, lease: E.ExecutionLease, op: ExecutionOp, u: Unit, payload: string, root: string,
                          now: Time)
    requires UnitInv(u, root) && w.id != C.CODEX_WORKER
    requires op.PersistSession? || op.RuntimeVerified? || op.RuntimeRejected? || op.SafetyCancel? || op.Dispatched?
    ensures Safe(u, ApplyExecution(w, lease, op, u, payload, now), root, now)
  {
    match op
    case PersistSession(session) => ExecutionKeeps.PersistDispatchSessionIsSafe(w, u, lease, session, root, now);
    case RuntimeVerified(digest) => ExecutionKeeps.MarkRuntimeVerifiedIsSafe(w, u, lease, digest, root, now);
    case RuntimeRejected(code) => ExecutionKeeps.MarkRuntimeRejectedIsSafe(w, u, lease, code, payload, root, now);
    case SafetyCancel => ExecutionKeeps.RequestSafetyCancelIsSafe(w, u, lease, root, now);
    case Dispatched(session) => ExecutionKeeps.MarkDispatchedIsSafe(w, u, lease, session, root, now);
  }

  /** The operations that end a run or prepare its end. */
  lemma EndingIsSafe(w: E.Worker, lease: E.ExecutionLease, op: ExecutionOp, u: Unit, payload: string, root: string,
                     now: Time)
    requires UnitInv(u, root) && w.id != C.CODEX_WORKER
    requires op.TimedOutNow? || op.StalledNow? || op.CancelPending? || op.CancelDone? || op.GateFailed?
    ensures Safe(u, ApplyExecution(w, lease, op, u, payload, now), root, now)
  {
    match op
    case TimedOutNow => ExecutionKeeps.MarkAbortedIsSafe(w, u, lease, TimedOut, payload, EndedTimedOut, root, now);
    case StalledNow => ExecutionKeeps.MarkAbortedIsSafe(w, u, lease, StalledTool, payload, EndedStalled, root, now);
    case CancelPending => ExecutionKeeps.MarkCancelPendingIsSafe(w, u, lease, root, now);
    case CancelDone => ExecutionKeeps.MarkCancelledIsSafe(w, u, lease, payload, root, now);
    case GateFailed(code) => ExecutionKeeps.FailRunnerGateIsSafe(w, u, lease, code, payload, root, now);
  }

  lemma WorkspaceIsSafe(c: W.Config, ticket: W.Lease, op: WorkspaceOp, u: Unit, payload: string, root: string,
                        now: Time)
    requires UnitInv(u, root) && Configured(ByManager(c, ticket, op), root)
    ensures Safe(u, ApplyWorkspace(c, ticket, op, u, payload, now), root, now)
  {
    match op
    case ClaimWorkspace => WorkspaceKeeps.ClaimIsSafe(c, u, payload, root, now);
    case HeartbeatWorkspace => WorkspaceKeeps.HeartbeatIsSafe(c, u, ticket, root, now);
    case PrepareDone(prepared, trust) => WorkspaceKeeps.MarkPrepareSuccessIsSafe(c, u, ticket, prepared, trust, payload,
        root, now);
    case InspectDone(result) => WorkspaceKeeps.MarkInspectionSuccessIsSafe(c, u, ticket, result, payload, root, now);
    case CleanupDone => WorkspaceKeeps.MarkCleanupSuccessIsSafe(c, u, ticket, payload, root, now);
    case CleanupBlocked(result) => WorkspaceKeeps.MarkCleanupRetainedIsSafe(c, u, ticket, result, payload, root, now);
    case WorkspaceFailed(code, giveUp) => WorkspaceKeeps.MarkFailureIsSafe(c, u, ticket, code, giveUp, payload, root,
        now);
  }

  lemma CodexIsSafe(attestedRoot: string, op: CodexOp, u: Unit, payload: string, root: string, now: Time, written: Time)
    requires UnitInv(u, root)
    ensures Safe(u, ApplyCodex(attestedRoot, op, u, payload, now, written), root, now)
  {
    match op
    case CodexSweep => CodexKeeps.SweepIsSafe(u, payload, root, now);
    case CodexClaim(repo) => CodexKeeps.ClaimIsSafe(u, repo, attestedRoot, payload, root, now);
    case CodexPreflight(body, repo) => CodexKeeps.AcceptPreflightIsSafe(u, body, repo, attestedRoot, payload, root, now,
        written);
    case CodexHeartbeat(generation) => CodexKeeps.HeartbeatIsSafe(u, generation, payload, root, now, written);
    case CodexPhase(report, repo) => CodexKeeps.PhaseIsSafe(u, report, repo, attestedRoot, payload, root, now, written);
  }

  /** Every transaction of the machine keeps the invariant of the rows it touches. */
  lemma ActionIsSafe(a: Action, u: Unit, payload: string, root: string, now: Time)
    requires UnitInv(u, root) && Configured(a, root)
    ensures Safe(u, Apply(a, u, payload, now), root, now)
  {
    match a
    case ByWorker(w, lease, op) => ExecutionIsSafe(w, lease, op, u, payload, root, now);
    case ByManager(c, ticket, op) => WorkspaceIsSafe(c, ticket, op, u, payload, root, now);
    case ByCodex(attestedRoot, written, op) => CodexIsSafe(attestedRoot, op, u, payload, root, now, written);
    case Abort => CodexKeeps.AbortIsSafe(u, payload, root, now);
    case RequestCleanup(expectedVersion) => CodexKeeps.RequestCleanupIsSafe(u, expectedVersion, root, now);
  }

  // ---- The tables

  datatype Event =
    | Act(run: Uuid, action: Action, payload: string)
    | Start(task: Uuid, run: Uuid, workspace: Uuid, request: ControlApi.StartRequest, timeoutSeconds: nat)
    | SetTask(task: Uuid, status: TaskStatus)

  /** Foreign keys: every run has its task, its workspace and its report log. */
  ghost predicate Linked(t: Tables) {
    forall r :: r in t.runs ==> t.runs[r].workspaceId in t.workspaces && t.runs[r].taskId in t.tasks && r in t.reports
  }

  ghost function UnitOf(t: Tables, r: Uuid): Unit
    requires Linked(t) && r in t.runs
  {
    Unit(t.runs[r], t.workspaces[t.runs[r].workspaceId], t.tasks[t.runs[r].taskId],
         if r in t.packages then Some(t.packages[r]) else None, t.reports[r])
  }

  /** Write the rows of execution `r` back. */
  ghost function Put(t: Tables, r: Uuid, u: Unit): Tables {
    Tables(t.runs[r := u.run], t.workspaces[u.run.workspaceId := u.ws], t.tasks[u.run.taskId := u.task],
           if u.package.Some? then t.packages[r := u.package.value] else t.packages, t.reports[r := u.reports])
  }

  /** The task has a live run. */
  predicate Busy(t: Tables, task: Uuid) {
    exists r :: r in t.runs && t.runs[r].taskId == task && IsActive(t.runs[r].status)
  }

  /** Why `start_execution` refuses, if it does. */
  function Refusal(t: Tables, task: Uuid, request: ControlApi.StartRequest): Option<int> {
    ControlApi.StartRefusal(if task in t.tasks then Some(t.tasks[task]) else None, Busy(t, task), request)
  }

  /** `start_execution` accepts, with fresh identifiers. */
  ghost predicate MayStart(t: Tables, e: Event) {
    && e.Start? && Refusal(t, e.task, e.request).None?
    && e.run !in t.runs && e.run !in t.packages && e.workspace !in t.workspaces
  }

  ghost function Started(t: Tables, e: Event, root: string, now: Time): Unit
    requires MayStart(t, e)
  {
    ControlApi.StartRows(e.task, e.request.repositoryId.value, e.run, e.workspace, e.request.backend.value,
                         ControlApi.BaseCommit(e.request),
                         e.timeoutSeconds, root, t.tasks[e.task], now)
  }

  /** The tables after one event; an event that is refused changes nothing. */
  ghost function Next(t: Tables, e: Event, root: string, now: Time): Tables
    requires Linked(t)
  {
    match e
    case Act(r, action, payload) =>
      if r in t.runs then Put(t, r, Apply(action, UnitOf(t, r), payload, now).unit) else t
    case Start(_, r, _, _, _) =>
      if MayStart(t, e) then Put(t, r, Started(t, e, root, now)) else t
    case SetTask(task, status) =>
      if task in t.tasks && ControlApi.TaskTransition(t.tasks[task], status) then t.(tasks := t.tasks[task := status])
        else t
  }

  /** The tables as one transaction sees them. */
  class Database {
    var tables: Tables

    constructor (rows: Tables)
      ensures tables == rows
    {
      tables := rows;
    }
  }

  /** The checks of `start_execution`, in its order. */
  method CheckStart(t: Tables, task: Uuid, request: ControlApi.StartRequest) returns (refusal: Option<int>)
    ensures refusal == Refusal(t, task, request)
    ensures refusal.None? ==> task in t.tasks && ControlApi.StartRefusal(Some(Backlog), false, request).None?
  {
    if request.backend.None? {
      return Some(422);
    }
    if request.backend.value.OpenCode? && !request.paidAllowed {
      return Some(403);
    }
    if request.backend.value.CodexSubscription? && !request.codexConfigured {
      return Some(503);
    }
    if task !in t.tasks {
      return Some(404);
    }
    if !request.development || t.tasks[task].TaskDone? || request.repositoryId.None? {
      return Some(409);
    }
    if exists r :: r in t.runs && t.runs[r].taskId == task && IsActive(t.runs[r].status) {
      return Some(409);
    }
    if request.repository.None? || !ControlApi.RepositoryAdmits(request.repository.value) {
      return Some(409);
    }
    var baseCommit := NormalizeCommit(request.repository.value.lastKnownCommit.value);
    if baseCommit.None? || !ControlApi.IsBranch(request.repository.value.defaultBranch.value) {
      return Some(409);
    }
    return None;
  }

  /** `start_execution`: the HTTP status of its refusal, or None. The identifiers are freshly drawn. */
  method StartExecution(db: Database, task: Uuid, run: Uuid, workspace: Uuid, request: ControlApi.StartRequest,
                        timeoutSeconds: nat,
                        root: string, now: Time)
    returns (refusal: Option<int>)
    requires Linked(db.tables) && run !in db.tables.runs && run !in db.tables.packages
             && workspace !in db.tables.workspaces
    modifies db
    ensures refusal == Refusal(old(db.tables), task, request)
    ensures db.tables == Next(old(db.tables), Start(task, run, workspace, request, timeoutSeconds), root, now)
  {
    var t := db.tables;
    refusal := CheckStart(t, task, request);
    if refusal.Some? {
      return;
    }
    var repository, backend, commit, path := request.repositoryId.value, request.backend.value,
        ControlApi.BaseCommit(request), Path(root, workspace);
    t := t.(workspaces := t.workspaces[workspace :=
      Workspace(workspace, task, repository, commit, path, WsPending, None, None, None, None, None, None, None, None,
                0, 1, 0, None, None, None, None, None, None, Some(now), None, None, None)]);
    t := t.(runs := t.runs[run :=
      Run(run, task, repository, workspace, commit, path, backend, None, None, None, None, None,
          Preparing, WorkspacePending, None, "", None, 0, None, None, Some(now + timeoutSeconds * SECOND), None,
              None)]);
    if t.tasks[task].Backlog? || t.tasks[task].Planned? || t.tasks[task].TaskFailed? {
      t := t.(tasks := t.tasks[task := InProgress]);
    }
    t := t.(reports := t.reports[run := []]);
    SameTasks(db.tables.tasks, task);
    db.tables := t;
    return None;
  }

  lemma SameTasks(tasks: map<Uuid, TaskStatus>, task: Uuid)
    requires task in tasks
    ensures tasks[task := tasks[task]] == tasks
  {
  }

  ghost predicate Allowed(e: Event, root: string) {
    e.Act? ==> Configured(e.action, root)
  }

  /** Every run has a workspace of its own. */
  ghost predicate OwnWorkspaces(t: Tables) {
    forall r, s :: r in t.runs && s in t.runs && r != s ==> t.runs[r].workspaceId != t.runs[s].workspaceId
  }

  ghost predicate OneLiveRunPerTask(t: Tables) {
    forall r, s :: r in t.runs && s in t.runs && r != s && t.runs[r].taskId == t.runs[s].taskId ==>
      !(IsActive(t.runs[r].status) && IsActive(t.runs[s].status))
  }

  /** Keys, foreign keys and uniqueness. */
  ghost predicate Shape(t: Tables) {
    && Linked(t)
    && t.packages.Keys <= t.runs.Keys
    && (forall r :: r in t.runs ==> t.runs[r].id == r)
    && OwnWorkspaces(t)
    && OneLiveRunPerTask(t)
  }

  /** The invariant of the whole database. */
  ghost predicate TablesInv(t: Tables, root: string) {
    Shape(t) && forall r :: r in t.runs ==> UnitInv(UnitOf(t, r), root)
  }

  /** No row of any execution moved except as one transaction may move it. */
  ghost predicate AllEvolve(t: Tables, t': Tables, now: Time)
    requires Linked(t) && Linked(t')
  {
    forall r :: r in t.runs ==> r in t'.runs && Evolves(UnitOf(t, r), UnitOf(t', r), now)
  }

  /** The rows `v` may be written for execution `r`: its own rows, or fresh ones. */
  ghost predicate Writable(t: Tables, r: Uuid, v: Unit)
    requires Linked(t)
  {
    && v.run.taskId in t.tasks
    && (if r in t.runs
        then v.run.workspaceId == t.runs[r].workspaceId && v.run.taskId == t.runs[r].taskId
            && (r in t.packages ==> v.package.Some?)
        else v.run.workspaceId !in t.workspaces && r !in t.packages)
  }

  /** Writing the rows of one execution leaves every other one alone, but for a shared task status. */
  lemma PutFrames(t: Tables, r: Uuid, v: Unit)
    requires Linked(t) && OwnWorkspaces(t) && Writable(t, r, v)
    ensures var t' := Put(t, r, v);
            && Linked(t') && OwnWorkspaces(t') && UnitOf(t', r) == v
            && forall s :: s in t.runs && s != r ==> UnitOf(t', s) == UnitOf(t, s).(task := UnitOf(t', s).task)
  {
    var t' := Put(t, r, v);
    forall s | s in t'.runs
      ensures t'.runs[s].workspaceId in t'.workspaces && t'.runs[s].taskId in t'.tasks && s in t'.reports
    {
    }
  }

  function WithTask(u: Unit, task: TaskStatus): Unit {
    u.(task := task)
  }

  /** A rule that ignores the task status lifts from the rows of one execution to the whole database. */
  lemma PutLifts(t: Tables, r: Uuid, v: Unit, good: Unit -> bool, legal: (Unit, Unit) -> bool)
    requires Linked(t) && OwnWorkspaces(t) && Writable(t, r, v)
    requires good(v) && (r in t.runs ==> legal(UnitOf(t, r), v))
    requires forall s :: s in t.runs ==> good(UnitOf(t, s))
    requires forall u, task :: good(u) ==> good(WithTask(u, task)) && legal(u, WithTask(u, task))
    ensures Linked(Put(t, r, v))
    ensures forall s :: s in Put(t, r, v).runs ==> good(UnitOf(Put(t, r, v), s))
    ensures forall s :: s in t.runs ==> legal(UnitOf(t, s), UnitOf(Put(t, r, v), s))
  {
    PutFrames(t, r, v);
    var t' := Put(t, r, v);
    forall s | s in t.runs && s != r
      ensures good(UnitOf(t', s)) && legal(UnitOf(t, s), UnitOf(t', s))
    {
      assert UnitOf(t', s) == WithTask(UnitOf(t, s), UnitOf(t', s).task);
    }
  }

  lemma PutKeepsShape(t: Tables, r: Uuid, v: Unit)
    requires Shape(t) && Writable(t, r, v) && v.run.id == r
    requires forall s :: s in t.runs && s != r && t.runs[s].taskId == v.run.taskId && IsActive(t.runs[s].status)
                         ==> !IsActive(v.run.status)
    ensures Shape(Put(t, r, v))
  {
    PutFrames(t, r, v);
  }

  lemma PutKeepsTables(t: Tables, r: Uuid, v: Unit, root: string, now: Time)
    requires TablesInv(t, root) && Writable(t, r, v) && v.run.id == r && UnitInv(v, root)
    requires r in t.runs ==> Evolves(UnitOf(t, r), v, now)
    requires forall s :: s in t.runs && s != r && t.runs[s].taskId == v.run.taskId && IsActive(t.runs[s].status)
                         ==> !IsActive(v.run.status)
    ensures TablesInv(Put(t, r, v), root) && AllEvolve(t, Put(t, r, v), now)
  {
    PutKeepsShape(t, r, v);
    RulesIgnoreTasks(root, now);
    PutLifts(t, r, v, u => UnitInv(u, root), (u, w) => Evolves(u, w, now));
  }

  lemma RulesIgnoreTasks(root: string, now: Time)
    ensures forall u, task :: UnitInv(u, root) ==> UnitInv(WithTask(u, task), root)
                                                   && Evolves(u, WithTask(u, task), now)
  {
    forall u: Unit, task: TaskStatus {
      TaskIsFree(u, task, root, now);
    }
  }

  lemma RankKeepsActivity(u: Unit, v: Unit, now: Time)
    requires Evolves(u, v, now)
    ensures IsActive(v.run.status) ==> IsActive(u.run.status)
    ensures v.run.id == u.run.id && v.run.taskId == u.run.taskId && v.run.workspaceId == u.run.workspaceId
    ensures u.package.Some? ==> v.package.Some?
  {
  }

  lemma StartedIsSound(t: Tables, e: Event, root: string, now: Time)
    requires MayStart(t, e) && |root| <= 475
    ensures UnitInv(Started(t, e, root, now), root)
  {
    WorkspaceKeeps.NormalizedIsCanonical(e.request.repository.value.lastKnownCommit.value);
  }

  lemma SetTaskLifts(t: Tables, task: Uuid, status: TaskStatus, good: Unit -> bool, legal: (Unit, Unit) -> bool)
    requires Linked(t) && task in t.tasks
    requires forall s :: s in t.runs ==> good(UnitOf(t, s))
    requires forall u, task :: good(u) ==> good(WithTask(u, task)) && legal(u, WithTask(u, task))
    ensures var t' := t.(tasks := t.tasks[task := status]);
            Linked(t') && forall s :: s in t.runs ==> good(UnitOf(t', s)) && legal(UnitOf(t, s), UnitOf(t', s))
  {
    var t' := t.(tasks := t.tasks[task := status]);
    forall s | s in t.runs
      ensures good(UnitOf(t', s)) && legal(UnitOf(t, s), UnitOf(t', s))
    {
      assert UnitOf(t', s) == WithTask(UnitOf(t, s), UnitOf(t', s).task);
    }
  }

  lemma SetTaskKeepsTables(t: Tables, task: Uuid, status: TaskStatus, root: string, now: Time)
    requires TablesInv(t, root) && task in t.tasks
    ensures var t' := t.(tasks := t.tasks[task := status]); TablesInv(t', root) && AllEvolve(t, t', now)
  {
    RulesIgnoreTasks(root, now);
    SetTaskLifts(t, task, status, u => UnitInv(u, root), (u, w) => Evolves(u, w, now));
  }

  lemma UnchangedEvolves(t: Tables, now: Time)
    requires Linked(t)
    ensures AllEvolve(t, t, now)
  {
    forall s | s in t.runs ensures Evolves(UnitOf(t, s), UnitOf(t, s), now) {
      EvolvesReflexive(UnitOf(t, s), now);
    }
  }

  lemma ActKeepsTables(t: Tables, r: Uuid, a: Action, payload: string, root: string, now: Time)
    requires TablesInv(t, root) && r in t.runs && Configured(a, root)
    ensures var tx := Apply(a, UnitOf(t, r), payload, now);
            TablesInv(Put(t, r, tx.unit), root) && AllEvolve(t, Put(t, r, tx.unit), now)
                && tx.outcome != Raised(IMMUTABLE)
  {
    ActionIsSafe(a, UnitOf(t, r), payload, root, now);
    var v := Apply(a, UnitOf(t, r), payload, now).unit;
    RankKeepsActivity(UnitOf(t, r), v, now);
    PutKeepsTables(t, r, v, root, now);
  }

  /** One event keeps the database sound and moves every row legally; none meets an immutable package. */
  lemma StepKeepsTables(t: Tables, e: Event, root: string, now: Time)
    requires TablesInv(t, root) && Allowed(e, root) && |root| <= 475
    ensures TablesInv(Next(t, e, root, now), root)
    ensures AllEvolve(t, Next(t, e, root, now), now)
    ensures e.Act? && e.run in t.runs ==> Apply(e.action, UnitOf(t, e.run), e.payload, now).outcome != Raised(IMMUTABLE)
  {
    if Next(t, e, root, now) == t {
      UnchangedEvolves(t, now);
    }
    match e
    case Act(r, action, payload) =>
      if r in t.runs {
        ActKeepsTables(t, r, action, payload, root, now);
      }
    case Start(_, _, _, _, _) =>
      if MayStart(t, e) {
        StartedIsSound(t, e, root, now);
        PutKeepsTables(t, e.run, Started(t, e, root, now), root, now);
      }
    case SetTask(task, status) =>
      if task in t.tasks {
        SetTaskKeepsTables(t, task, status, root, now);
      }
  }
}
