/** Safety over whole histories of the control plane: what holds in every reachable state, and what
    an earlier state fixes for all later ones. */
module Histories {
  import opened Prelude
  import opened Rows
  import opened Transactions
  import opened Fencing
  import opened Lifecycle
  import opened ControlPlane
  import W = WorkspaceLeases
  import E = ExecutionLeases
  import C = CodexBroker

  /** `events[i]`, committed at `times[i]`, leads from `states[i]` to `states[i + 1]`. */
  datatype History = History(states: seq<Tables>, events: seq<Event>, times: seq<Time>)

  /** A history from empty tables (but for tasks), with a clock that does not run backwards. */
  ghost predicate Valid(h: History, root: string) {
    && |root| <= 475
    && |h.states| == |h.events| + 1 && |h.times| == |h.events|
    && h.states[0].runs == map[] && h.states[0].packages == map[]
    && (forall i :: 0 <= i < |h.events| ==>
          && Linked(h.states[i])
          && Allowed(h.events[i], root)
          && h.states[i + 1] == Next(h.states[i], h.events[i], root, h.times[i]))
    && (forall i, j :: 0 <= i <= j < |h.times| ==> h.times[i] <= h.times[j])
  }

  /** Every reachable database is sound. */
  lemma {:induction false} ReachableIsSound(h: History, root: string, i: nat)
    requires Valid(h, root) && i < |h.states|
    ensures TablesInv(h.states[i], root)
  {
    if i > 0 {
      ReachableIsSound(h, root, i - 1);
      EventKeepsSound(h, root, i - 1);
    }
  }

  lemma EventKeepsSound(h: History, root: string, k: nat)
    requires Valid(h, root) && k < |h.events| && TablesInv(h.states[k], root)
    ensures TablesInv(h.states[k + 1], root)
  {
    StepKeepsTables(h.states[k], h.events[k], root, h.times[k]);
  }

  /** Every workspace a history creates belongs to a run: no claim finds one without its execution. */
  lemma {:induction false} WorkspacesHaveRuns(h: History, root: string, i: nat, w: Uuid)
    requires Valid(h, root) && h.states[0].workspaces == map[] && i < |h.states| && w in h.states[i].workspaces
    ensures exists r :: r in h.states[i].runs && h.states[i].runs[r].workspaceId == w
  {
    assert i > 0;
    ReachableIsSound(h, root, i - 1);
    var t, e, now := h.states[i - 1], h.events[i - 1], h.times[i - 1];
    StepKeepsTables(t, e, root, now);
    if w in t.workspaces {
      WorkspacesHaveRuns(h, root, i - 1, w);
      var r :| r in t.runs && t.runs[r].workspaceId == w;
      RunKeepsWorkspace(t, h.states[i], r, now);
    } else {
      NewWorkspaceIsOfRun(t, e, root, now, w);
    }
  }

  lemma RunKeepsWorkspace(t: Tables, t': Tables, r: Uuid, now: Time)
    requires Linked(t) && Linked(t') && AllEvolve(t, t', now) && r in t.runs
    ensures r in t'.runs && t'.runs[r].workspaceId == t.runs[r].workspaceId
  {
    assert Evolves(UnitOf(t, r), UnitOf(t', r), now);
  }

  lemma NewWorkspaceIsOfRun(t: Tables, e: Event, root: string, now: Time, w: Uuid)
    requires Linked(t) && w !in t.workspaces && w in Next(t, e, root, now).workspaces
    ensures exists r :: r in Next(t, e, root, now).runs && Next(t, e, root, now).runs[r].workspaceId == w
  {
    var t' := Next(t, e, root, now);
    var r := e.run;
    assert r in t'.runs && t'.runs[r].workspaceId == w;
  }

  /** Statuses of run and workspace stay coupled, every CHECK constraint holds, and each task has at most
      one live run. */
  lemma StatusesAreCoupled(h: History, root: string, i: nat, r: Uuid)
    requires Valid(h, root) && i < |h.states| && r in h.states[i].runs
    ensures var t := h.states[i];
            t.runs[r].workspaceId in t.workspaces &&
            var run, ws := t.runs[r], t.workspaces[t.runs[r].workspaceId];
            && (run.status.Preparing? <==> ws.status.WsPending? || ws.status.WsPreparing? || ws.status.WsUnavailable?)
            && (run.status.Queued? || run.status.Running? <==> ws.status.WsReady?)
            && (IsTerminal(run.status) <==>
                  IsInspection(ws.status) || ws.status.WsRetained? || ws.status.WsCleanupPending?
                      || ws.status.WsCleaning?
                  || ws.status.WsRemoved? || ws.status.WsInvalid?)
            && CkRun(run) && CkWorkspace(ws)
    ensures forall s :: s in h.states[i].runs && s != r && h.states[i].runs[s].taskId == h.states[i].runs[r].taskId ==>
              !(IsActive(h.states[i].runs[s].status) && IsActive(h.states[i].runs[r].status))
  {
    ReachableIsSound(h, root, i);
    assert UnitInv(UnitOf(h.states[i], r), root);
  }

  /** A package is provisional exactly while its inspection is outstanding, and only a run cancelled before
      it was prepared ends without a package. */
  lemma PackagesFollowInspections(h: History, root: string, i: nat, r: Uuid)
    requires Valid(h, root) && i < |h.states| && r in h.states[i].runs
    ensures var t := h.states[i];
            t.runs[r].workspaceId in t.workspaces &&
            var run, ws := t.runs[r], t.workspaces[t.runs[r].workspaceId];
            && (r in t.packages && t.packages[r].state.Provisional? <==> IsInspection(ws.status))
            && (r in t.packages <==> IsTerminal(run.status)
                                     && !(run.status.Cancelled? && run.preflightCompletedAt.None?))
            && (r in t.packages ==> CkPackage(t.packages[r]))
  {
    ReachableIsSound(h, root, i);
    assert UnitInv(UnitOf(h.states[i], r), root);
  }

  /** No reachable transaction meets a final package it would have to change. */
  lemma NoTransactionMeetsAnImmutablePackage(h: History, root: string, i: nat)
    requires Valid(h, root) && i < |h.events| && h.events[i].Act? && h.events[i].run in h.states[i].runs
    ensures Apply(h.events[i].action, UnitOf(h.states[i], h.events[i].run), h.events[i].payload,
                  h.times[i]).outcome != Raised(IMMUTABLE)
  {
    ReachableIsSound(h, root, i);
    StepKeepsTables(h.states[i], h.events[i], root, h.times[i]);
  }

  /** A completed OpenCode run finished strictly before its deadline; a completed subscription run was
      reported exactly once by each role, in order, all under the one claimed generation. */
  lemma CompletionIsEarned(h: History, root: string, i: nat, r: Uuid)
    requires Valid(h, root) && i < |h.states| && r in h.states[i].runs && h.states[i].runs[r].status.Completed?
    ensures var t := h.states[i]; var run := t.runs[r];
            && r in t.reports && run.cancelRequestedAt.None? && run.finishedAt.Some? && run.deadlineAt.Some?
            && (run.backend.OpenCode? ==> run.finishedAt.value < run.deadlineAt.value)
            && (run.backend.CodexSubscription? ==> ReportedInOrder(t.reports[r], 3)
                                                   && run.result == t.reports[r][2].finalText)
  {
    ReachableIsSound(h, root, i);
    CompletedUnit(UnitOf(h.states[i], r), root);
  }

  lemma CompletedUnit(u: Unit, root: string)
    requires UnitInv(u, root) && u.run.status.Completed?
    ensures u.run.cancelRequestedAt.None? && u.run.finishedAt.Some? && u.run.deadlineAt.Some?
    ensures u.run.backend.OpenCode? ==> u.run.finishedAt.value < u.run.deadlineAt.value
    ensures u.run.backend.CodexSubscription? ==> ReportedInOrder(u.reports, 3) && u.run.result == u.reports[2].finalText
  {
  }

  /** A running subscription run always has an owner and an expiry, and nobody but the subscription worker holds it. */
  lemma RunningSubscriptionIsHeld(h: History, root: string, i: nat, r: Uuid)
    requires Valid(h, root) && i < |h.states| && r in h.states[i].runs
    requires h.states[i].runs[r].backend.CodexSubscription? && h.states[i].runs[r].status.Running?
    ensures h.states[i].runs[r].leaseOwner == Some(C.CODEX_WORKER) && h.states[i].runs[r].leaseExpiresAt.Some?
  {
    ReachableIsSound(h, root, i);
    assert UnitInv(UnitOf(h.states[i], r), root);
  }

  /** What a state fixes for every later state of the same run. */
  ghost predicate Fixed(u: Unit, v: Unit) {
    var fixed :=
    && v.run.id == u.run.id && v.run.taskId == u.run.taskId && v.run.workspaceId == u.run.workspaceId
    && v.run.backend == u.run.backend
    && StatusRank(u.run.status) <= StatusRank(v.run.status)
    && (IsTerminal(u.run.status) ==> v.run == u.run && v.reports == u.reports)
    && (u.package.Some? ==> v.package.Some?)
    && (u.package.Some? && u.package.value.state.Final? ==> v.package == u.package)
    && (u.run.cancelRequestedAt.Some? ==>
          && v.run.cancelRequestedAt == u.run.cancelRequestedAt
          && (v.run.status.Completed? ==> u.run.status.Completed?)
          && (u.run.status.Queued? ==> !v.run.status.Running?))
    && (u.run.sessionId.Some? ==> v.run.sessionId == u.run.sessionId)
    && (u.run.preflightDigest.Some? ==> v.run.preflightDigest == u.run.preflightDigest)
    && v.run.deadlineAt == u.run.deadlineAt
    && (u.run.backend.CodexSubscription? ==> CodexRank(u.run) <= CodexRank(v.run))
    && u.reports <= v.reports;
    fixed
  }

  lemma EvolvesFixes(u: Unit, v: Unit, now: Time)
    requires Evolves(u, v, now)
    ensures Fixed(u, v)
  {
  }

  lemma FixedIsTransitive(u: Unit, v: Unit, w: Unit)
    requires Fixed(u, v) && Fixed(v, w)
    ensures Fixed(u, w)
  {
  }

  /** Event `i` moves the rows of every run legally. */
  lemma EventEvolves(h: History, root: string, i: nat, r: Uuid)
    requires Valid(h, root) && i < |h.events| && r in h.states[i].runs
    ensures Linked(h.states[i]) && Linked(h.states[i + 1]) && r in h.states[i + 1].runs
    ensures Evolves(UnitOf(h.states[i], r), UnitOf(h.states[i + 1], r), h.times[i])
  {
    ReachableIsSound(h, root, i);
    StepKeepsTables(h.states[i], h.events[i], root, h.times[i]);
  }

  lemma StaysLinked(h: History, root: string, i: nat)
    requires Valid(h, root) && i < |h.states|
    ensures Linked(h.states[i])
  {
    ReachableIsSound(h, root, i);
  }

  /** Runs are never lost, and what was fixed stays fixed: terminal rows, final packages, a requested
      cancellation, the session, the preflight evidence and the deadline; a subscription run never steps back. */
  lemma {:induction false} HistoryFixes(h: History, root: string, i: nat, j: nat, r: Uuid)
    requires Valid(h, root) && i <= j < |h.states| && r in h.states[i].runs
    ensures Linked(h.states[i]) && Linked(h.states[j])
    ensures r in h.states[j].runs && Fixed(UnitOf(h.states[i], r), UnitOf(h.states[j], r))
  {
    StaysLinked(h, root, i);
    if i < j {
      HistoryFixes(h, root, i, j - 1, r);
      EventEvolves(h, root, j - 1, r);
      EvolvesFixes(UnitOf(h.states[j - 1], r), UnitOf(h.states[j], r), h.times[j - 1]);
      FixedIsTransitive(UnitOf(h.states[i], r), UnitOf(h.states[j - 1], r), UnitOf(h.states[j], r));
    }
  }

  /** A subscription run is claimed at most once: no claim hands it out again later. */
  lemma ClaimedAtMostOnce(h: History, root: string, i: nat, j: nat, r: Uuid)
    requires Valid(h, root) && i < j < |h.events| && CodexClaimed(h, i, r)
    ensures !CodexClaimed(h, j, r)
  {
    ClaimMovesOn(h, root, i, r);
    HistoryFixes(h, root, i + 1, j, r);
    if CodexClaimed(h, j, r) {
      ClaimComesFrom(h, j, r);
    }
  }

  /** Event `i` is a subscription claim that hands out execution `r`. */
  ghost predicate CodexClaimed(h: History, i: nat, r: Uuid)
    requires i < |h.events| && i < |h.states| && i < |h.times|
  {
    && Linked(h.states[i]) && r in h.states[i].runs
    && h.events[i].Act? && h.events[i].run == r
    && h.events[i].action.ByCodex? && h.events[i].action.codex.CodexClaim?
    && Apply(h.events[i].action, UnitOf(h.states[i], r), h.events[i].payload, h.times[i]).outcome.Claimed?
  }

  lemma ClaimComesFrom(h: History, i: nat, r: Uuid)
    requires i < |h.events| && i < |h.states| && i < |h.times| && CodexClaimed(h, i, r)
    ensures CodexRank(h.states[i].runs[r]) == 1 && h.states[i].runs[r].backend.CodexSubscription?
  {
    var a := h.events[i].action;
    ClaimRanks(UnitOf(h.states[i], r), a.codex.repo, a.attestedRoot, h.events[i].payload, h.times[i]);
  }

  /** A subscription claim takes a run from dispatch to preflight. */
  lemma ClaimRanks(u: Unit, repo: Option<C.Repo>, attestedRoot: string, payload: string, now: Time)
    requires C.Claim(u, repo, attestedRoot, payload, now).outcome.Claimed?
    ensures u.run.backend.CodexSubscription? && CodexRank(u.run) == 1
    ensures var v := C.Claim(u, repo, attestedRoot, payload, now).unit; v.run.backend == u.run.backend
                                                                        && CodexRank(v.run) == 2
  {
  }

  lemma ClaimMovesOn(h: History, root: string, i: nat, r: Uuid)
    requires Valid(h, root) && i < |h.events| && CodexClaimed(h, i, r)
    ensures r in h.states[i + 1].runs && CodexRank(h.states[i + 1].runs[r]) == 2
            && h.states[i + 1].runs[r].backend.CodexSubscription?
  {
    ActionCommits(h, root, i);
    var a := h.events[i].action;
    ClaimRanks(UnitOf(h.states[i], r), a.codex.repo, a.attestedRoot, h.events[i].payload, h.times[i]);
  }

  // ---- Fencing

  /** When state `i` was written. */
  ghost function At(h: History, i: nat): Time
    requires |h.times| + 1 == |h.states| && i < |h.states|
  {
    if i > 0 then h.times[i - 1] else if |h.times| == 0 then 0 else h.times[0]
  }

  function ExecutionTicket(w: E.Worker, lease: E.ExecutionLease): Ticket {
    Ticket(0, w.id, lease.generation, 0)
  }

  function WorkspaceTicket(c: W.Config, lease: W.Lease): Ticket {
    Ticket(OperationTag(W.ActiveStatus(lease.operation)), c.worker, lease.generation, lease.version)
  }

  /** The ownership checks of both managers are the ticket check of the fencing theory. */
  lemma OwnershipIsPassing(w: E.Worker, lease: E.ExecutionLease, run: Run, c: W.Config, ticket: W.Lease, ws: Workspace,
                           now: Time)
    ensures E.OwnedRun(w, run, lease.generation, now) <==> Passes(RunLease(run), ExecutionTicket(w, lease), now)
    ensures W.Owned(c, ws, ticket, now) <==> Passes(WorkspaceLease(ws), WorkspaceTicket(c, ticket), now)
  {
  }

  /** A leased row, seen through `view`, is fenced by every transaction. */
  ghost predicate FencedView(view: Unit -> Leased) {
    forall u, v, now :: Evolves(u, v, now) ==> FencedStep(view(u), view(v), now)
  }

  lemma {:induction false} DeadTicketsStayDead(h: History, root: string, i: nat, j: nat, r: Uuid, view: Unit -> Leased,
                                               t: Ticket, later: Time)
    requires Valid(h, root) && FencedView(view) && i <= j < |h.states| && At(h, j) <= later
    requires Linked(h.states[i]) && r in h.states[i].runs
    requires Issued(view(UnitOf(h.states[i], r)), t)
    requires !Passes(view(UnitOf(h.states[i], r)), t, At(h, i))
    ensures Linked(h.states[j]) && r in h.states[j].runs
    ensures Issued(view(UnitOf(h.states[j], r)), t)
    ensures !Passes(view(UnitOf(h.states[j], r)), t, later)
  {
    if i < j {
      DeadTicketsStayDead(h, root, i, j - 1, r, view, t, At(h, j));
      EventEvolves(h, root, j - 1, r);
      var u, v := UnitOf(h.states[j - 1], r), UnitOf(h.states[j], r);
      assert Evolves(u, v, At(h, j));
      DeadTicketStaysDead(view(u), view(v), t, At(h, j), At(h, j), later);
    }
  }

  /** An execution lease that has failed the ownership check fails it in every later state, and every
      transaction attempted with it then leaves the rows unchanged. */
  lemma DeadExecutionLeaseIsPowerless(h: History, root: string, i: nat, j: nat, r: Uuid, w: E.Worker,
                                      lease: E.ExecutionLease,
                                      op: ExecutionOp, payload: string, later: Time)
    requires Valid(h, root) && i <= j < |h.states| && At(h, j) <= later
    requires Linked(h.states[i]) && r in h.states[i].runs
    requires lease.generation <= h.states[i].runs[r].leaseGeneration
    requires !E.OwnedRun(w, h.states[i].runs[r], lease.generation, At(h, i)) && !op.ClaimRun?
    ensures Linked(h.states[j]) && r in h.states[j].runs
    ensures !E.OwnedRun(w, h.states[j].runs[r], lease.generation, later)
    ensures ApplyExecution(w, lease, op, UnitOf(h.states[j], r), payload, later).unit == UnitOf(h.states[j], r)
  {
    var view := (u: Unit) => RunLease(u.run);
    assert FencedView(view);
    DeadTicketsStayDead(h, root, i, j, r, view, ExecutionTicket(w, lease), later);
    LostExecutionLease(w, lease, op, UnitOf(h.states[j], r), payload, later);
  }

  lemma LostExecutionLease(w: E.Worker, lease: E.ExecutionLease, op: ExecutionOp, u: Unit, payload: string, now: Time)
    requires !E.OwnedRun(w, u.run, lease.generation, now) && !op.ClaimRun?
    ensures ApplyExecution(w, lease, op, u, payload, now).unit == u
  {
  }

  lemma LostWorkspaceLease(c: W.Config, ticket: W.Lease, op: WorkspaceOp, u: Unit, payload: string, now: Time)
    requires !W.Owned(c, u.ws, ticket, now) && !op.ClaimWorkspace?
    ensures ApplyWorkspace(c, ticket, op, u, payload, now).unit == u
  {
  }

  /** The same for a workspace lease. */
  lemma DeadWorkspaceLeaseIsPowerless(h: History, root: string, i: nat, j: nat, r: Uuid, c: W.Config, ticket: W.Lease,
                                      op: WorkspaceOp, payload: string, later: Time)
    requires Valid(h, root) && i <= j < |h.states| && At(h, j) <= later
    requires Linked(h.states[i]) && r in h.states[i].runs
    requires ticket.generation <= UnitOf(h.states[i], r).ws.generation
             && ticket.version <= UnitOf(h.states[i], r).ws.version
    requires !W.Owned(c, UnitOf(h.states[i], r).ws, ticket, At(h, i)) && !op.ClaimWorkspace?
    ensures Linked(h.states[j]) && r in h.states[j].runs
    ensures !W.Owned(c, UnitOf(h.states[j], r).ws, ticket, later)
    ensures ApplyWorkspace(c, ticket, op, UnitOf(h.states[j], r), payload, later).unit == UnitOf(h.states[j], r)
  {
    var view := (u: Unit) => WorkspaceLease(u.ws);
    assert FencedView(view);
    DeadTicketsStayDead(h, root, i, j, r, view, WorkspaceTicket(c, ticket), later);
    LostWorkspaceLease(c, ticket, op, UnitOf(h.states[j], r), payload, later);
  }

  lemma {:induction false} GenerationsGrow(h: History, root: string, i: nat, j: nat, r: Uuid, view: Unit -> Leased)
    requires Valid(h, root) && FencedView(view) && i <= j < |h.states|
    requires Linked(h.states[i]) && r in h.states[i].runs
    ensures Linked(h.states[j]) && r in h.states[j].runs
    ensures view(UnitOf(h.states[i], r)).generation <= view(UnitOf(h.states[j], r)).generation
  {
    if i < j {
      GenerationsGrow(h, root, i, j - 1, r, view);
      EventEvolves(h, root, j - 1, r);
      assert Evolves(UnitOf(h.states[j - 1], r), UnitOf(h.states[j], r), h.times[j - 1]);
    }
  }

  /** What event `i`, a claim of execution `r`, hands out. */
  ghost function ClaimOutcome(h: History, i: nat, r: Uuid): Outcome
    requires i < |h.events| && i < |h.states| && i < |h.times|
  {
    var e := h.events[i];
    if Linked(h.states[i]) && r in h.states[i].runs && e.Act? && e.run == r
       && ((e.action.ByWorker? && e.action.execution.ClaimRun?)
           || (e.action.ByManager? && e.action.workspace.ClaimWorkspace?))
    then Apply(e.action, UnitOf(h.states[i], r), e.payload, h.times[i]).outcome
    else NotClaimed
  }

  /** After an action, the rows of its execution are the ones its transaction committed. */
  lemma ActionCommits(h: History, root: string, i: nat)
    requires Valid(h, root) && i < |h.events| && h.events[i].Act? && h.events[i].run in h.states[i].runs
    ensures var r := h.events[i].run;
            && Linked(h.states[i]) && Linked(h.states[i + 1]) && r in h.states[i + 1].runs
            && UnitOf(h.states[i + 1], r) == Apply(h.events[i].action, UnitOf(h.states[i], r), h.events[i].payload,
                                                   h.times[i]).unit
  {
    var r := h.events[i].run;
    var v := Apply(h.events[i].action, UnitOf(h.states[i], r), h.events[i].payload, h.times[i]).unit;
    ReachableIsSound(h, root, i);
    ActionIsSafe(h.events[i].action, UnitOf(h.states[i], r), h.events[i].payload, root, h.times[i]);
    RankKeepsActivity(UnitOf(h.states[i], r), v, h.times[i]);
    PutFrames(h.states[i], r, v);
  }

  lemma RunClaimIsFresh(w: E.Worker, u: Unit, payload: string, now: Time)
    requires E.ClaimRun(w, u, payload, now).outcome.Claimed?
    ensures var tx := E.ClaimRun(w, u, payload, now); u.run.leaseGeneration + 1 == tx.outcome.generation
                                                      == tx.unit.run.leaseGeneration
  {
  }

  lemma WorkspaceClaimIsFresh(c: W.Config, u: Unit, payload: string, now: Time)
    requires W.Claim(c, u, payload, now).outcome.Claimed?
    ensures var tx := W.Claim(c, u, payload, now); u.ws.generation + 1 == tx.outcome.generation == tx.unit.ws.generation
  {
  }

  /** A lease just handed out passes the ownership check exactly until it expires. */
  lemma FreshExecutionLeasePasses(w: E.Worker, u: Unit, payload: string, now: Time, later: Time)
    requires E.ClaimRun(w, u, payload, now).outcome.Claimed?
    ensures var tx := E.ClaimRun(w, u, payload, now);
            E.OwnedRun(w, tx.unit.run, tx.outcome.generation, later) <==> later < now + w.leaseSeconds * SECOND
  {
  }

  lemma FreshWorkspaceLeasePasses(c: W.Config, u: Unit, payload: string, now: Time, later: Time)
    requires W.Claim(c, u, payload, now).outcome.Claimed?
    ensures W.OperationFor(u.ws.status).Some?
    ensures var tx := W.Claim(c, u, payload, now);
            var lease := W.Lease(W.OperationFor(u.ws.status).value, tx.outcome.generation, tx.outcome.version,
                                 u.ws.repositoryId,
                                 u.ws.baseCommit, u.ws.opencodePath);
            W.Owned(c, tx.unit.ws, lease, later) <==> later < now + c.leaseSeconds * SECOND
  {
  }

  lemma ClaimIssues(h: History, root: string, i: nat, r: Uuid)
    requires Valid(h, root) && i < |h.events| && ClaimOutcome(h, i, r).Claimed?
    ensures Linked(h.states[i]) && Linked(h.states[i + 1]) && r in h.states[i].runs && r in h.states[i + 1].runs
    ensures var g := ClaimOutcome(h, i, r).generation;
            if h.events[i].action.ByWorker?
            then UnitOf(h.states[i], r).run.leaseGeneration + 1 == g == UnitOf(h.states[i + 1], r).run.leaseGeneration
            else UnitOf(h.states[i], r).ws.generation + 1 == g == UnitOf(h.states[i + 1], r).ws.generation
  {
    ActionCommits(h, root, i);
    var e := h.events[i];
    match e.action
    case ByWorker(w, _, _) => RunClaimIsFresh(w, UnitOf(h.states[i], r), e.payload, h.times[i]);
    case ByManager(c, _, _) => WorkspaceClaimIsFresh(c, UnitOf(h.states[i], r), e.payload, h.times[i]);
    case _ =>
  }

  /** Two claims of the same row hand out leases of which at most one passes the ownership check, in any state. */
  lemma IssuedLeasesNeverOverlap(h: History, root: string, i: nat, j: nat, r: Uuid, row: Leased, s: Ticket, t: Ticket,
                                 now: Time)
    requires Valid(h, root) && i < j < |h.events|
    requires ClaimOutcome(h, i, r).Claimed? && ClaimOutcome(h, j, r).Claimed?
    requires h.events[i].action.ByWorker? <==> h.events[j].action.ByWorker?
    requires s.generation == ClaimOutcome(h, i, r).generation && t.generation == ClaimOutcome(h, j, r).generation
    ensures !(Passes(row, s, now) && Passes(row, t, now))
  {
    var view := if h.events[i].action.ByWorker? then (u: Unit) => RunLease(u.run)
                  else (u: Unit) => WorkspaceLease(u.ws);
    assert FencedView(view);
    ClaimIssues(h, root, i, r);
    ClaimIssues(h, root, j, r);
    GenerationsGrow(h, root, i + 1, j, r, view);
    AtMostOneTicketPasses(row, s, t, now);
  }
}
