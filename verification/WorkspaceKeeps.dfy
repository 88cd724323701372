/** Every transaction of the workspace manager keeps the invariant, provided the manager that
    touches a workspace under inspection is configured with the workspace root of the API. */
module WorkspaceKeeps {
  import opened Prelude
  import opened Rows
  import opened Transactions
  import opened Fencing
  import opened WorkspaceLeases
  import opened Lifecycle

  /** The manager cannot meet a binding error on a workspace under inspection. */
  predicate RootAgrees(c: Config, ws: Workspace, root: string) {
    c.root == root || !IsInspection(ws.status)
  }

  lemma NoBindingError(run: Run, ws: Workspace, op: Operation, root: string)
    requires BindingInv(run, ws, root)
    requires op.Inspect? ==> run.preflightCompletedAt.Some?
    ensures BindingError(run, ws, op, root).None?
  {
  }

  /** A run that fails before it was prepared: its workspace is given up or queued for removal,
      and its package is final at once. */
  lemma PreparationEndedIsSafe(u: Unit, run: Run, ws: Workspace, task: TaskStatus, payload: string, outcome: Outcome,
                               root: string, now: Time)
    requires UnitInv(u, root) && u.run.status.Preparing? && outcome != Raised(IMMUTABLE)
    requires run == u.run.(status := Failed, stage := run.stage, finishedAt := Some(now),
                           heartbeatAt := run.heartbeatAt,
                           leaseGeneration := run.leaseGeneration, leaseOwner := None, leaseExpiresAt := None)
    requires u.run.leaseGeneration <= run.leaseGeneration
    requires ws == u.ws.(status := ws.status, nextAttemptAt := ws.nextAttemptAt,
                         cleanupRequestedAt := ws.cleanupRequestedAt,
                         failureCount := ws.failureCount, leaseOwner := None, leaseExpiresAt := None,
                         lastErrorCode := ws.lastErrorCode, version := u.ws.version + 1)
    requires (ws.status.WsInvalid? && ws.nextAttemptAt.None?) || (ws.status.WsCleanupPending? && ws.nextAttemptAt.Some?)
    ensures Safe(u, Sealed(u, u.(run := run, ws := ws, task := task), payload, outcome, now), root, now)
  {
  }

  lemma LiveInvalidatedIsSafe(u: Unit, code: string, payload: string, outcome: Outcome, root: string, now: Time)
    requires UnitInv(u, root) && u.run.status.Preparing? && outcome != Raised(IMMUTABLE)
    ensures Safe(u, Invalidated(u, code, payload, outcome, now), root, now)
  {
    var run := Ended(u.run, Failed, WorkspaceBindingRejected, now).(leaseGeneration := u.run.leaseGeneration + 1);
    var ws := u.ws.(status := WsInvalid, nextAttemptAt := None, leaseOwner := None, leaseExpiresAt := None,
                    lastErrorCode := Some(code), version := u.ws.version + 1);
    PreparationEndedIsSafe(u, run, ws, FailedTask(u.task), payload, outcome, root, now);
  }

  lemma InvalidatedIsSafe(u: Unit, code: string, payload: string, outcome: Outcome, root: string, now: Time)
    requires UnitInv(u, root) && !IsInspection(u.ws.status) && !u.ws.status.WsReady?
    requires outcome != Raised(IMMUTABLE)
    ensures Safe(u, Invalidated(u, code, payload, outcome, now), root, now)
  {
    if u.run.status.Preparing? {
      LiveInvalidatedIsSafe(u, code, payload, outcome, root, now);
    } else {
      assert IsTerminal(u.run.status);
      WorkspaceOnlyIsSafe(u, Invalidated(u, code, payload, outcome, now).unit.ws, root, now);
    }
  }

  lemma ExpiredIsSafe(u: Unit, payload: string, outcome: Outcome, root: string, now: Time)
    requires UnitInv(u, root) && u.run.status.Preparing? && outcome != Raised(IMMUTABLE)
    ensures Safe(u, Expired(u, payload, outcome, now), root, now)
  {
    var run := Ended(u.run, Failed, WorkspacePreflightTimedOut, now).(leaseGeneration := u.run.leaseGeneration + 1);
    var ws := u.ws.(status := WsCleanupPending, cleanupRequestedAt := Some(now), nextAttemptAt := Some(now),
                    leaseOwner := None, leaseExpiresAt := None, lastErrorCode := Some("execution_deadline_elapsed"),
                    version := u.ws.version + 1);
    PreparationEndedIsSafe(u, run, ws, FailedTask(u.task), payload, outcome, root, now);
  }

  /** Only the workspace row changes, and it stays on its side of the run. */
  lemma WorkspaceOnlyIsSafe(u: Unit, ws: Workspace, root: string, now: Time)
    requires UnitInv(u, root) && CkWorkspace(ws)
    requires ws.id == u.ws.id && ws.taskId == u.ws.taskId && ws.repositoryId == u.ws.repositoryId
    requires ws.baseCommit == u.ws.baseCommit && ws.opencodePath == u.ws.opencodePath
    requires ws.initialTree == u.ws.initialTree && ws.trackedEntries == u.ws.trackedEntries
             && ws.preflightDigest == u.ws.preflightDigest
    requires IsInspection(ws.status) <==> IsInspection(u.ws.status)
    requires Coupled(u.run.status, ws.status)
    requires FencedStep(WorkspaceLease(u.ws), WorkspaceLease(ws), now)
    ensures UnitInv(u.(ws := ws), root) && Evolves(u, u.(ws := ws), now)
  {
  }

  lemma ClaimIsSafe(c: Config, u: Unit, payload: string, root: string, now: Time)
    requires UnitInv(u, root) && RootAgrees(c, u.ws, root)
    ensures Safe(u, Claim(c, u, payload, now), root, now)
  {
    if !Claimable(u.ws, now) || OperationFor(u.ws.status).None? {
      EvolvesReflexive(u, now);
      return;
    }
    var op := OperationFor(u.ws.status).value;
    var fault := BindingError(u.run, u.ws, op, c.root);
    if op.Inspect? {
      NoBindingError(u.run, u.ws, op, root);
    }
    if fault.Some? {
      assert !IsInspection(u.ws.status);
      InvalidatedIsSafe(u, fault.value, payload, NotClaimed, root, now);
    } else if op.Prepare? && (u.run.deadlineAt.None? || u.run.deadlineAt.value <= now) {
      ExpiredIsSafe(u, payload, NotClaimed, root, now);
    } else {
      GrantedIsSafe(c, u, op, payload, root, now);
    }
  }

  lemma GrantedIsSafe(c: Config, u: Unit, op: Operation, payload: string, root: string, now: Time)
    requires UnitInv(u, root) && Claimable(u.ws, now) && OperationFor(u.ws.status) == Some(op)
    requires BindingError(u.run, u.ws, op, c.root).None?
    requires op.Prepare? ==> u.run.deadlineAt.Some? && u.run.deadlineAt.value > now
    ensures Safe(u, Claim(c, u, payload, now), root, now)
  {
    WorkspaceOnlyIsSafe(u, Claim(c, u, payload, now).unit.ws, root, now);
  }

  lemma HeartbeatIsSafe(c: Config, u: Unit, lease: Lease, root: string, now: Time)
    requires UnitInv(u, root)
    ensures Safe(u, Heartbeat(c, u, lease, now), root, now)
  {
    EvolvesReflexive(u, now);
    if Owned(c, u.ws, lease, now) {
      WorkspaceOnlyIsSafe(u, Heartbeat(c, u, lease, now).unit.ws, root, now);
    }
  }

  lemma {:induction false} LowerIsIdempotent(s: string)
    ensures Lower(Lower(s)) == Lower(s)
  {
    forall i | 0 <= i < |s| ensures Lower(Lower(s))[i] == Lower(s)[i] {
      assert Lower(Lower(s))[i] == LowerChar(LowerChar(s[i]));
    }
  }

  lemma NormalizedIsCanonical(s: string)
    requires NormalizeCommit(s).Some?
    ensures Canonical(NormalizeCommit(s).value)
  {
    LowerIsIdempotent(s);
  }

  lemma PreparedIsSafe(u: Unit, ws: Workspace, run: Run, tree: string, digest: string, entries: int, root: string,
                       now: Time)
    requires UnitInv(u, root) && u.ws.status.WsPreparing?
    requires Canonical(tree) && IsHex64(digest) && entries >= 0
    requires ws == u.ws.(status := WsReady, initialTree := Some(tree), preflightDigest := Some(digest),
                         trackedEntries := Some(entries),
                         currentHead := ws.currentHead, currentTree := Some(tree), hasChanges := Some(false),
                             changedFileCount := Some(0),
                         preparedAt := Some(now), nextAttemptAt := None, leaseOwner := None, leaseExpiresAt := None,
                         failureCount := 0, lastErrorCode := None, version := u.ws.version + 1)
    requires run == u.run.(status := Queued, stage := DispatchPending, workspaceTree := Some(tree),
                           preflightDigest := Some(digest), preflightCompletedAt := Some(now))
    ensures UnitInv(u.(ws := ws, run := run), root) && Evolves(u, u.(ws := ws, run := run), now)
  {
  }

  lemma MarkPrepareSuccessIsSafe(c: Config, u: Unit, lease: Lease, result: Prepared, trust: Trust, payload: string,
                                 root: string, now: Time)
    requires UnitInv(u, root) && lease.operation.Prepare?
    ensures Safe(u, MarkPrepareSuccess(c, u, lease, result, trust, payload, now), root, now)
  {
    var tx := MarkPrepareSuccess(c, u, lease, result, trust, payload, now);
    if tx.unit == u {
      EvolvesReflexive(u, now);
    } else {
      var fault := BindingError(u.run, u.ws, Prepare, c.root);
      if fault.Some? {
        assert u.ws.status.WsPreparing?;
        InvalidatedIsSafe(u, fault.value, payload, NowInvalid, root, now);
      } else if u.run.deadlineAt.value <= now {
        ExpiredIsSafe(u, payload, NowExpired, root, now);
      } else {
        NormalizedIsCanonical(result.tree);
        PreparedIsSafe(u, tx.unit.ws, tx.unit.run, NormalizeCommit(result.tree).value, result.preflightDigest,
                       result.trackedEntries, root, now);
      }
    }
  }

  lemma MarkInspectionSuccessIsSafe(c: Config, u: Unit, lease: Lease, result: Inspection, payload: string, root: string,
                                    now: Time)
    requires UnitInv(u, root) && RootAgrees(c, u.ws, root) && lease.operation.Inspect?
    ensures Safe(u, MarkInspectionSuccess(c, u, lease, result, payload, now), root, now)
  {
    EvolvesReflexive(u, now);
    if Owned(c, u.ws, lease, now) {
      NoBindingError(u.run, u.ws, Inspect, root);
    }
  }

  lemma MarkCleanupSuccessIsSafe(c: Config, u: Unit, lease: Lease, payload: string, root: string, now: Time)
    requires UnitInv(u, root) && lease.operation.Cleanup?
    ensures Safe(u, MarkCleanupSuccess(c, u, lease, payload, now), root, now)
  {
    if !Owned(c, u.ws, lease, now) {
      EvolvesReflexive(u, now);
    } else if BindingError(u.run, u.ws, Cleanup, c.root).Some? {
      InvalidatedIsSafe(u, BindingError(u.run, u.ws, Cleanup, c.root).value, payload, NowInvalid, root, now);
    } else {
      WorkspaceOnlyIsSafe(u, MarkCleanupSuccess(c, u, lease, payload, now).unit.ws, root, now);
    }
  }

  lemma MarkCleanupRetainedIsSafe(c: Config, u: Unit, lease: Lease, result: Inspection, payload: string, root: string,
                                  now: Time)
    requires UnitInv(u, root) && lease.operation.Cleanup?
    ensures Safe(u, MarkCleanupRetained(c, u, lease, result, payload, now), root, now)
  {
    if !Owned(c, u.ws, lease, now) {
      EvolvesReflexive(u, now);
    } else if BindingError(u.run, u.ws, Cleanup, c.root).Some? {
      InvalidatedIsSafe(u, BindingError(u.run, u.ws, Cleanup, c.root).value, payload, NowInvalid, root, now);
    } else {
      WorkspaceOnlyIsSafe(u, MarkCleanupRetained(c, u, lease, result, payload, now).unit.ws, root, now);
    }
  }

  lemma MarkFailureIsSafe(c: Config, u: Unit, lease: Lease, code: string, terminal: bool, payload: string, root: string,
                          now: Time)
    requires UnitInv(u, root) && RootAgrees(c, u.ws, root)
    ensures Safe(u, MarkFailure(c, u, lease, code, terminal, payload, now), root, now)
  {
    if !Owned(c, u.ws, lease, now) {
      EvolvesReflexive(u, now);
      return;
    }
    var fault := BindingError(u.run, u.ws, lease.operation, c.root);
    var tx := MarkFailure(c, u, lease, code, terminal, payload, now);
    match lease.operation
    case Inspect =>
      NoBindingError(u.run, u.ws, Inspect, root);
      InspectionFailedIsSafe(c, u, lease, code, terminal, payload, root, now);
    case Cleanup =>
      if fault.Some? {
        InvalidatedIsSafe(u, fault.value, payload, NowInvalid, root, now);
      } else {
        WorkspaceOnlyIsSafe(u, tx.unit.ws, root, now);
      }
    case Prepare =>
      if fault.Some? {
        InvalidatedIsSafe(u, fault.value, payload, NowInvalid, root, now);
      } else {
        PreparationFailedIsSafe(c, u, lease, code, terminal, payload, root, now);
      }
  }

  lemma InspectionFailedIsSafe(c: Config, u: Unit, lease: Lease, code: string, terminal: bool, payload: string,
                               root: string, now: Time)
    requires UnitInv(u, root) && Owned(c, u.ws, lease, now) && lease.operation.Inspect?
    requires BindingError(u.run, u.ws, Inspect, c.root).None?
    ensures Safe(u, MarkFailure(c, u, lease, code, terminal, payload, now), root, now)
  {
    if !terminal {
      WorkspaceOnlyIsSafe(u, MarkFailure(c, u, lease, code, terminal, payload, now).unit.ws, root, now);
    }
  }

  lemma PreparationFailedIsSafe(c: Config, u: Unit, lease: Lease, code: string, terminal: bool, payload: string,
                                root: string, now: Time)
    requires UnitInv(u, root) && Owned(c, u.ws, lease, now) && lease.operation.Prepare?
    requires BindingError(u.run, u.ws, Prepare, c.root).None?
    ensures Safe(u, MarkFailure(c, u, lease, code, terminal, payload, now), root, now)
  {
    var failures := u.ws.failureCount + 1;
    if terminal || failures >= c.maxPrepareFailures || u.run.deadlineAt.value <= now {
      var ws := u.ws.(failureCount := failures, leaseOwner := None, leaseExpiresAt := None, lastErrorCode := Some(code),
                      version := u.ws.version + 1, status := WsInvalid, nextAttemptAt := None);
      var run := u.run.(status := Failed, stage := WorkspacePreflightFailed, finishedAt := Some(now),
                        heartbeatAt := Some(now));
      PreparationEndedIsSafe(u, run, ws, FailedTask(u.task), payload, NowInvalid, root, now);
    }
  }

  /** With a foreign root, exactly the claim of a workspace under inspection breaks the package rule:
      the workspace becomes invalid while its package stays provisional. */
  lemma ForeignRootBreaksExactlyInspections(c: Config, u: Unit, payload: string, root: string, now: Time)
    requires UnitInv(u, root)
    ensures UnitInv(Claim(c, u, payload, now).unit, root) <==> c.root == root || !IsInspection(u.ws.status)
                                                               || !Claimable(u.ws, now)
    ensures c.root != root && IsInspection(u.ws.status) && Claimable(u.ws, now) ==>
              var v := Claim(c, u, payload, now).unit;
              v.ws.status.WsInvalid? && v.run == u.run && v.package == u.package && v.package.Some?
                  && v.package.value.state.Provisional?
  {
    if RootAgrees(c, u.ws, root) {
      ClaimIsSafe(c, u, payload, root, now);
    } else {
      assert u.ws.opencodePath == Path(root, u.ws.id);
    }
  }

  /** A failed run whose workspace waits for its inspection, under the root "/a". */
  function Waiting(): Unit {
    var commit, digest, path := Zeros(40), Zeros(64), Path("/a", 4);
    Unit(Run(1, 2, 3, 4, commit, path, OpenCode, Some(commit), Some(digest), Some(5), None, None, Failed, Stopped, None,
             "",
             None, 1, None, None, Some(100), None, Some(6)),
         Workspace(4, 2, 3, commit, path, WsInspectionPending, Some(commit), Some(digest), Some(0), None, None, None,
                   None, None,
                   1, 2, 0, None, Some(5), Some(6), None, None, None, Some(6), None, None, None),
         TaskFailed, Some(Package(Provisional, "", Sha256(""), None)), [])
  }

  function Zeros(n: nat): string {
    seq(n, _ => '0')
  }

  lemma ZerosAreCommits()
    ensures NormalizeCommit(Zeros(40)) == Some(Zeros(40)) && IsHex64(Zeros(64))
  {
    assert Lower(Zeros(40)) == Zeros(40);
  }

  /** The claim of a manager with another root leaves the provisional package of this unit beside an
      invalid workspace. */
  lemma ForeignRootExample(payload: string)
    ensures var c, u := Config("w", 60, 1, 1, 1, "/b"), Waiting();
            && UnitInv(u, "/a") && Claimable(u.ws, 7) && IsInspection(u.ws.status)
            && !UnitInv(Claim(c, u, payload, 7).unit, "/a")
            && Claim(c, u, payload, 7).unit.ws.status.WsInvalid?
            && Claim(c, u, payload, 7).unit.package.value.state.Provisional?
  {
    ZerosAreCommits();
    WaitingIsSound();
    ForeignRootBreaksExactlyInspections(Config("w", 60, 1, 1, 1, "/b"), Waiting(), payload, "/a", 7);
  }

  lemma WaitingIsSound()
    ensures UnitInv(Waiting(), "/a")
  {
    ZerosAreCommits();
  }
}
