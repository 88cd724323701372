/** The manager endpoints of `main.py` that change the rows of an execution. */
module ControlApi {
  import opened Prelude
  import opened Rows
  import opened Transactions
  import CodexBroker

  // ---- Starting an execution

  /** The repository row as `start_execution` reads it. */
  datatype StartRepository = StartRepository(enabled: bool, ready: bool, defaultBranch: Option<string>,
                                             lastKnownCommit: Option<string>)

  /** What `start_execution` reads besides the tables: the requested backend (None for an unknown name), the two
      settings, and the domain and repository of the task. */
  datatype StartRequest = StartRequest(backend: Option<Backend>, paidAllowed: bool, codexConfigured: bool,
                                       development: bool,
                                       repositoryId: Option<Uuid>, repository: Option<StartRepository>)

  predicate IsAlphanumeric(c: char) {
    'A' <= c <= 'Z' || 'a' <= c <= 'z' || '0' <= c <= '9'
  }

  predicate Contains(s: string, part: string) {
    exists i :: 0 <= i <= |s| && part <= s[i..]
  }

  predicate EndsWith(s: string, part: string) {
    |part| <= |s| && s[|s| - |part|..] == part
  }

  /** `validate_branch`. */
  predicate IsBranch(s: string) {
    && 1 <= |s| <= 255
    && IsAlphanumeric(s[0]) && IsAlphanumeric(s[|s| - 1])
    && (forall i :: 0 <= i < |s| ==> IsAlphanumeric(s[i]) || s[i] in "._/-")
    && !Contains(s, "..") && !Contains(s, "//") && !EndsWith(s, ".lock")
    && !Contains(s, "/.") && !Contains(s, ".lock/")
  }

  predicate RepositoryAdmits(r: StartRepository) {
    r.enabled && r.ready && r.defaultBranch.Some? && r.lastKnownCommit.Some?
  }

  /** The HTTP status with which `start_execution` refuses, in the order of its checks; `busy` says that the task
      has a live run. */
  function StartRefusal(status: Option<TaskStatus>, busy: bool, q: StartRequest): Option<int> {
    if q.backend.None? then Some(422)
    else if q.backend == Some(OpenCode) && !q.paidAllowed then Some(403)
    else if q.backend == Some(CodexSubscription) && !q.codexConfigured then Some(503)
    else if status.None? then Some(404)
    else if !q.development || status.value.TaskDone? || q.repositoryId.None? || busy then Some(409)
    else if q.repository.None? || !RepositoryAdmits(q.repository.value) then Some(409)
    else if NormalizeCommit(q.repository.value.lastKnownCommit.value).None?
           || !IsBranch(q.repository.value.defaultBranch.value) then Some(409)
    else None
  }

  /** The base commit of an admitted request. */
  function BaseCommit(q: StartRequest): string
    requires StartRefusal(Some(Backlog), false, q).None?
  {
    NormalizeCommit(q.repository.value.lastKnownCommit.value).value
  }

  /** The rows `start_execution` inserts for a task. */
  function StartRows(task: Uuid, repository: Uuid, run: Uuid, workspace: Uuid, backend: Backend, commit: string,
                     timeoutSeconds: nat, root: string, status: TaskStatus, now: Time): Unit {
    Unit(
      Run(run, task, repository, workspace, commit, Path(root, workspace), backend, None, None, None, None, None,
          Preparing, WorkspacePending, None, "", None, 0, None, None, Some(now + timeoutSeconds * SECOND), None, None),
      Workspace(workspace, task, repository, commit, Path(root, workspace), WsPending, None, None, None, None, None,
                None, None, None,
                0, 1, 0, None, None, None, None, None, None, Some(now), None, None, None),
      if status.Backlog? || status.Planned? || status.TaskFailed? then InProgress else status,
      None, [])
  }

  /** `abort_execution`. A preparing run ends at once and gets no package; a running subscription
      run is only fenced and its lease shortened; an OpenCode run is fenced and left to its worker. */
  function Abort(u: Unit, payload: string, now: Time): Tx {
    if !IsActive(u.run.status) || u.run.cancelRequestedAt.Some? then Tx(u, Accepted)
    else if u.run.status.Preparing? then
      Tx(u.(run := Ended(u.run, Cancelled, Stopped, now).(cancelRequestedAt := Some(now),
                                                          leaseGeneration := u.run.leaseGeneration + 1),
            ws := u.ws.(status := WsCleanupPending, cleanupRequestedAt := Some(now), nextAttemptAt := Some(now),
                        generation := u.ws.generation + 1, leaseOwner := None, leaseExpiresAt := None,
                            lastErrorCode := None,
                        version := u.ws.version + 1),
            task := FailedTask(u.task)), Accepted)
    else if u.run.backend.CodexSubscription? && u.run.status.Queued? then
      CodexBroker.OrRollback(u, CodexBroker.Terminal(u.(run := u.run.(cancelRequestedAt := Some(now))), Cancelled,
                                                     "codex_cancelled", payload, Accepted, now))
    else if u.run.backend.CodexSubscription? then
      if u.run.leaseOwner.None? || u.run.leaseExpiresAt.None? then Tx(u, Conflict(409))
      else Tx(u.(run := u.run.(cancelRequestedAt := Some(now), stage := CancelRequested,
                               leaseGeneration := u.run.leaseGeneration + 1,
                               leaseExpiresAt := Some(Min(u.run.leaseExpiresAt.value, now + 30 * SECOND)))), Accepted)
    else
      Tx(u.(run := u.run.(cancelRequestedAt := Some(now), stage := CancelRequested,
                          leaseGeneration := u.run.leaseGeneration + 1,
                          leaseOwner := None, leaseExpiresAt := None)), Accepted)
  }

  /** `request_workspace_cleanup`: only a retained, provably unchanged workspace of a terminal run. */
  function RequestCleanup(u: Unit, expectedVersion: int, now: Time): Tx {
    if u.ws.version != expectedVersion || !u.ws.status.WsRetained? || u.ws.hasChanges != Some(false)
       || u.ws.currentHead != Some(u.ws.baseCommit) || u.ws.currentTree != u.ws.initialTree || !IsTerminal(u.run.status)
    then Tx(u, Conflict(409))
    else Tx(u.(ws := u.ws.(status := WsCleanupPending, cleanupRequestedAt := Some(now), nextAttemptAt := Some(now),
                           lastErrorCode := None, version := u.ws.version + 1)), Accepted)
  }

  predicate TaskTransition(from: TaskStatus, to: TaskStatus) {
    match from
    case Backlog => to.Planned? || to.InProgress?
    case Planned => to.Backlog? || to.InProgress?
    case InProgress => to.WaitingApproval? || to.Qa? || to.TaskFailed?
    case WaitingApproval => to.InProgress? || to.Qa? || to.TaskFailed?
    case Qa => to.TaskDone? || to.InProgress? || to.TaskFailed?
    case TaskFailed => to.Planned? || to.InProgress?
    case TaskDone => false
  }

  /** `abort_execution`. */
  method AbortExecution(db: Session, broker: CodexBroker.Broker, payload: string, now: Time) returns (outcome: Outcome)
    modifies db
    ensures Tx(db.Rows(), outcome) == Abort(old(db.Rows()), payload, now)
  {
    if !IsActive(db.run.status) || db.run.cancelRequestedAt.Some? {
      return Accepted;
    }
    if db.run.status.Preparing? {
      db.run := db.run.(cancelRequestedAt := Some(now), status := Cancelled, stage := Stopped);
      db.run := db.run.(finishedAt := Some(now), heartbeatAt := Some(now));
      db.run := db.run.(leaseGeneration := db.run.leaseGeneration + 1, leaseOwner := None, leaseExpiresAt := None);
      db.workspace := db.workspace.(status := WsCleanupPending, cleanupRequestedAt := Some(now),
                                    nextAttemptAt := Some(now));
      db.workspace := db.workspace.(generation := db.workspace.generation + 1, leaseOwner := None,
                                    leaseExpiresAt := None);
      db.workspace := db.workspace.(lastErrorCode := None, version := db.workspace.version + 1);
      db.FailTask();
      return Accepted;
    }
    if db.run.backend.CodexSubscription? {
      if db.run.status.Queued? {
        var before := db.Rows();
        db.run := db.run.(cancelRequestedAt := Some(now));
        outcome := broker.Finish(db, Cancelled, "codex_cancelled", payload, Accepted, now);
        if outcome.Raised? {
          db.Rollback(before);
        }
        return;
      }
      if db.run.leaseOwner.None? || db.run.leaseExpiresAt.None? {
        return Conflict(409);
      }
      db.run := db.run.(cancelRequestedAt := Some(now), stage := CancelRequested);
      db.run := db.run.(leaseGeneration := db.run.leaseGeneration + 1);
      db.run := db.run.(leaseExpiresAt := Some(Min(db.run.leaseExpiresAt.value, now + 30 * SECOND)));
      return Accepted;
    }
    db.run := db.run.(cancelRequestedAt := Some(now), stage := CancelRequested);
    db.run := db.run.(leaseGeneration := db.run.leaseGeneration + 1, leaseOwner := None, leaseExpiresAt := None);
    return Accepted;
  }

  /** `request_workspace_cleanup`. */
  method CleanupRequested(db: Session, expectedVersion: int, now: Time) returns (outcome: Outcome)
    modifies db
    ensures Tx(db.Rows(), outcome) == RequestCleanup(old(db.Rows()), expectedVersion, now)
  {
    if db.workspace.version != expectedVersion || !db.workspace.status.WsRetained? {
      return Conflict(409);
    }
    if db.workspace.hasChanges != Some(false) || db.workspace.currentHead != Some(db.workspace.baseCommit)
       || db.workspace.currentTree != db.workspace.initialTree {
      return Conflict(409);
    }
    if !IsTerminal(db.run.status) {
      return Conflict(409);
    }
    db.workspace := db.workspace.(status := WsCleanupPending, cleanupRequestedAt := Some(now),
                                  nextAttemptAt := Some(now));
    db.workspace := db.workspace.(lastErrorCode := None, version := db.workspace.version + 1);
    return Accepted;
  }
}
