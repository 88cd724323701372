/** At most one session and one dispatch prompt per execution, and no prompt before the workspace was
    verified, over every run of the dispatch machine. */
module DispatchSafety {
  import opened Prelude
  import opened Rows
  import opened Transactions
  import opened Lifecycle
  import opened ControlPlane
  import opened Dispatch
  import E = ExecutionLeases
  import C = CodexBroker
  import W = WorkspaceLeases

  /** The run can still be dispatched. */
  predicate Open(run: Run) {
    run.cancelRequestedAt.None? && !IsTerminal(run.status)
  }

  /** The runtime evidence is the attested evidence, or absent. */
  predicate RuntimeSound(run: Run) {
    run.runtimeDigest.None? || RowVerified(run)
  }

  /** What every transaction but `mark_dispatched` may do to the run row, as far as dispatch is concerned:
      a lease is only taken over once it has expired, and never shortened below the minimum. The session
      is fixed once it is known; only `named` may be written. */
  ghost predicate RowStep(r: Run, r': Run, named: Option<string>, now: Time) {
    && r.leaseGeneration <= r'.leaseGeneration
    && (r'.sessionId == r.sessionId || (r.sessionId.None? && r'.sessionId == named))
    && (RuntimeSound(r) ==> RuntimeSound(r'))
    && (RowVerified(r) ==> RowVerified(r'))
    && (Open(r') ==> Open(r))
    && (Open(r') && r'.leaseGeneration != r.leaseGeneration ==> r.leaseExpiresAt.None? || r.leaseExpiresAt.value <= now)
    && (Open(r') && r'.leaseGeneration == r.leaseGeneration && r.leaseExpiresAt.Some? ==>
          LeasedUntil(r', Min(r.leaseExpiresAt.value, now + MINIMUM_LEASE)))
  }

  /** A call in flight was made under the current lease, which outlives it; or the run is closed. */
  ghost predicate FlightInv(d: World, f: Flight) {
    && d.now < f.settleBy <= d.now + MINIMUM_LEASE
    && f.generation <= d.unit.run.leaseGeneration
    && (Open(d.unit.run) ==> f.generation == d.unit.run.leaseGeneration && LeasedUntil(d.unit.run, f.settleBy))
  }

  ghost predicate CreationsInv(d: World) {
    && |d.created| + |d.creations| <= 1
    && (forall i :: 0 <= i < |d.creations| ==>
          && FlightInv(d, d.creations[i])
          && (d.creations[i].generation in d.threads ==> d.threads[d.creations[i].generation].at.Creating?))
    && (Open(d.unit.run) ==> d.live == d.created && (d.unit.run.sessionId.Some?
                                                     ==> d.unit.run.sessionId.value in d.created))
  }

  /** A prompt in flight belongs to a vanished worker. */
  ghost predicate SendInv(d: World, f: Flight) {
    && f.generation !in d.threads && f.generation <= d.unit.run.leaseGeneration
    && d.unit.run.sessionId == Some(f.session)
    && (!d.late ==> FlightInv(d, f))
  }

  ghost predicate PromptsInv(d: World) {
    && (!d.late ==> |d.prompts| + |d.sends| <= 1)
    && (forall i :: 0 <= i < |d.sends| ==> SendInv(d, d.sends[i]))
    && (forall i :: 0 <= i < |d.prompts| ==> d.unit.run.sessionId == Some(d.prompts[i]))
    && RuntimeSound(d.unit.run)
    && (d.prompts != [] || d.sends != [] ==> RowVerified(d.unit.run))
  }

  /** Nothing has been prompted and nothing is on its way. */
  predicate Quiet(d: World) {
    d.prompts == [] && d.sends == []
  }

  /** What a thread may rely on while its generation is the current one of an open run. */
  ghost predicate PointInv(d: World, p: Point) {
    var holds :=
    match p
    case Begin => true
    case HasContext(session, verified) => (session.Some? ==> d.unit.run.sessionId == session)
        && (!verified ==> Quiet(d))
    case Verified(_, verified) => !verified ==> Quiet(d)
    case SawNoSession(verified) => d.created == [] && d.creations == [] && (!verified ==> Quiet(d))
    case Creating(made, verified) => (made.Some? ==> made.value in d.created) && (!verified ==> Quiet(d))
    case Persisting(id, verified) => id in d.created && (!verified ==> Quiet(d))
    case SessionReady(id, verified) => d.unit.run.sessionId == Some(id) && (!verified ==> Quiet(d))
    case SawNoMessage(id, _) => d.unit.run.sessionId == Some(id) && (!d.late ==> Quiet(d))
    case Reverified(id) => d.unit.run.sessionId == Some(id) && (!d.late ==> Quiet(d)) && RowVerified(d.unit.run)
    case Prompted(_) => true
    case Suspicious(_) => false;
    holds
  }

  predicate Current(run: Run, g: nat) {
    Open(run) && g == run.leaseGeneration
  }

  ghost predicate ThreadsInv(d: World) {
    forall g :: g in d.threads ==>
      && d.threads[g].lease.generation == g <= d.unit.run.leaseGeneration
      && d.threads[g].worker.id != C.CODEX_WORKER
      && d.threads[g].worker.leaseSeconds * SECOND >= MINIMUM_LEASE
      && (Current(d.unit.run, g) ==> PointInv(d, d.threads[g].at))
  }

  /** The invariant of the protocol, apart from that of the rows. */
  ghost predicate ProtocolInv(d: World) {
    var holds := CreationsInv(d) && PromptsInv(d) && ThreadsInv(d); holds
  }

  ghost predicate Inv(d: World, root: string) {
    var holds := d.unit.run.backend.OpenCode? && UnitInv(d.unit, root) && ProtocolInv(d); holds
  }

  /** Changing the row within `RowStep` disturbs nobody. */
  lemma RowStepKeeps(d: World, u: Unit, named: Option<string>)
    requires ProtocolInv(d) && RowStep(d.unit.run, u.run, named, d.now)
    requires Open(u.run) && d.unit.run.sessionId.None? && u.run.sessionId.Some? ==> u.run.sessionId.value in d.created
    ensures ProtocolInv(d.(unit := u))
  {
    var d' := d.(unit := u);
    forall g | g in d.threads && Current(u.run, g)
      ensures PointInv(d', d.threads[g].at)
    {
      assert Current(d.unit.run, g);
    }
  }

  lemma LeaveKeeps(d: World, g: nat)
    requires ProtocolInv(d)
    ensures ProtocolInv(Leave(d, g))
  {
  }

  /** A thread that is not waiting for a creation moves on. */
  lemma AtKeeps(d: World, g: nat, p: Point)
    requires ProtocolInv(d) && HasThread(d, g)
    requires Current(d.unit.run, g) ==> PointInv(d, p)
    requires d.threads[g].at.Creating? ==> p.Creating? || !InFlight(d.creations, g)
    ensures ProtocolInv(At(d, g, p))
  {
    var d' := At(d, g, p);
    forall i | 0 <= i < |d.creations| && d.creations[i].generation in d'.threads
      ensures d'.threads[d.creations[i].generation].at.Creating?
    {
      if d.creations[i].generation == g {
        assert InFlight(d.creations, g);
      }
    }
  }

  /** The current thread has no call of its own in flight unless it waits for a creation. */
  lemma CurrentIsAlone(d: World, g: nat)
    requires ProtocolInv(d) && HasThread(d, g) && Current(d.unit.run, g)
    ensures (!d.late ==> d.sends == []) && (d.threads[g].at.Creating? || d.creations == [])
  {
    assert |d.sends| > 0 ==> SendInv(d, d.sends[0]);
    assert |d.creations| > 0 ==> FlightInv(d, d.creations[0]);
  }

  // ---- Transactions and the row

  predicate RuntimeStep(r: Run, r': Run) {
    (r'.runtimeDigest == r.runtimeDigest && r'.runtimeVerifiedAt == r.runtimeVerifiedAt) || RowVerified(r')
  }

  predicate LeaseStep(r: Run, r': Run, now: Time) {
    Open(r') ==>
      if r'.leaseGeneration != r.leaseGeneration then r.leaseExpiresAt.None? || r.leaseExpiresAt.value <= now
      else r.leaseExpiresAt.Some? ==> LeasedUntil(r', Min(r.leaseExpiresAt.value, now + MINIMUM_LEASE))
  }

  predicate SessionStep(r: Run, r': Run, named: Option<string>) {
    r'.sessionId == r.sessionId || (r.sessionId.None? && r'.sessionId == named)
  }

  /** The three together, for the transaction `tx`. */
  predicate Steps(u: Unit, tx: Tx, named: Option<string>, now: Time) {
    RuntimeStep(u.run, tx.unit.run) && LeaseStep(u.run, tx.unit.run, now) && SessionStep(u.run, tx.unit.run, named)
  }

  function NamedBy(a: Action): Option<string> {
    if a.ByWorker? && a.execution.PersistSession? then Some(a.execution.session) else None
  }

  lemma ExecutionSteps(w: E.Worker, lease: E.ExecutionLease, op: ExecutionOp, u: Unit, payload: string, now: Time)
    requires w.leaseSeconds * SECOND >= MINIMUM_LEASE && !op.Dispatched?
    ensures Steps(u, ApplyExecution(w, lease, op, u, payload, now), NamedBy(ByWorker(w, lease, op)), now)
  {
    match op
    case ClaimRun =>
    case Observation(seen) => ObservationSteps(w, lease, seen, u, payload, now);
    case TimedOutNow => AbortedSteps(w, lease, TimedOut, EndedTimedOut, u, payload, now);
    case StalledNow => AbortedSteps(w, lease, StalledTool, EndedStalled, u, payload, now);
    case CancelDone => CancelledSteps(w, lease, u, payload, now);
    case _ =>
  }

  lemma ObservationSteps(w: E.Worker, lease: E.ExecutionLease, seen: E.Observed, u: Unit, payload: string, now: Time)
    requires w.leaseSeconds * SECOND >= MINIMUM_LEASE
    ensures Steps(u, E.ApplyObservation(w, u, lease, seen, payload, now), None, now)
  {
  }

  lemma AbortedSteps(w: E.Worker, lease: E.ExecutionLease, stage: Stage, outcome: Outcome, u: Unit, payload: string,
                     now: Time)
    ensures Steps(u, E.MarkAborted(w, u, lease, stage, payload, outcome, now), None, now)
  {
    EndedSteps(u, Ended(u.run, Failed, stage, now), FailedTask(u.task), payload, outcome, now);
  }

  lemma CancelledSteps(w: E.Worker, lease: E.ExecutionLease, u: Unit, payload: string, now: Time)
    ensures Steps(u, E.MarkCancelled(w, u, lease, payload, now), None, now)
  {
    EndedSteps(u, Ended(u.run, Cancelled, Stopped, now), FailedTask(u.task), payload, EndedCancelled, now);
  }

  lemma EndedSteps(u: Unit, run: Run, task: TaskStatus, payload: string, outcome: Outcome, now: Time)
    requires IsTerminal(run.status) && run.sessionId == u.run.sessionId
    requires run.runtimeDigest == u.run.runtimeDigest && run.runtimeVerifiedAt == u.run.runtimeVerifiedAt
    ensures Steps(u, W.Closed(u, run, task, payload, outcome, now), None, now)
  {
  }

  lemma InvalidatedSteps(u: Unit, code: string, payload: string, outcome: Outcome, now: Time)
    ensures Steps(u, W.Invalidated(u, code, payload, outcome, now), None, now)
  {
  }

  lemma ExpiredSteps(u: Unit, payload: string, outcome: Outcome, now: Time)
    ensures Steps(u, W.Expired(u, payload, outcome, now), None, now)
  {
  }

  lemma FailureSteps(c: W.Config, ticket: W.Lease, u: Unit, code: string, giveUp: bool, payload: string, now: Time)
    ensures Steps(u, W.MarkFailure(c, u, ticket, code, giveUp, payload, now), None, now)
  {
  }

  lemma ClaimSteps(c: W.Config, u: Unit, payload: string, now: Time)
    ensures Steps(u, W.Claim(c, u, payload, now), None, now)
  {
    var op := W.OperationFor(u.ws.status);
    if op.Some? && W.BindingError(u.run, u.ws, op.value, c.root).Some? {
      InvalidatedSteps(u, W.BindingError(u.run, u.ws, op.value, c.root).value, payload, NotClaimed, now);
    }
    InvalidatedSteps(u, "preparation_execution_state_invalid", payload, NotClaimed, now);
    InvalidatedSteps(u, "inspection_before_execution_terminal", payload, NotClaimed, now);
    InvalidatedSteps(u, "cleanup_before_execution_terminal", payload, NotClaimed, now);
    ExpiredSteps(u, payload, NotClaimed, now);
  }

  lemma PreparedSteps(c: W.Config, ticket: W.Lease, u: Unit, result: W.Prepared, trust: W.Trust, payload: string,
                      now: Time)
    ensures Steps(u, W.MarkPrepareSuccess(c, u, ticket, result, trust, payload, now), None, now)
  {
    var fault := W.BindingError(u.run, u.ws, W.Prepare, c.root);
    if fault.Some? {
      InvalidatedSteps(u, fault.value, payload, NowInvalid, now);
    } else {
      ExpiredSteps(u, payload, NowExpired, now);
    }
  }

  /** Unless it ends the run, a transaction of the workspace manager leaves the execution lease alone. */
  lemma WorkspaceSteps(c: W.Config, ticket: W.Lease, op: WorkspaceOp, u: Unit, payload: string, now: Time)
    ensures Steps(u, ApplyWorkspace(c, ticket, op, u, payload, now), None, now)
  {
    match op
    case ClaimWorkspace => ClaimSteps(c, u, payload, now);
    case HeartbeatWorkspace =>
    case PrepareDone(prepared, trust) => PreparedSteps(c, ticket, u, prepared, trust, payload, now);
    case WorkspaceFailed(code, giveUp) => FailureSteps(c, ticket, u, code, giveUp, payload, now);
    case InspectDone(result) =>
    case CleanupDone =>
    case CleanupBlocked(result) =>
  }

  lemma OtherSteps(a: Action, u: Unit, payload: string, now: Time)
    requires u.run.backend.OpenCode? && !a.ByWorker? && !a.ByManager?
    ensures Steps(u, Apply(a, u, payload, now), None, now)
  {
  }

  lemma EvolvesRowStep(u: Unit, tx: Tx, named: Option<string>, now: Time)
    requires Evolves(u, tx.unit, now) && Steps(u, tx, named, now)
    ensures RowStep(u.run, tx.unit.run, named, now) && tx.unit.run.backend == u.run.backend
  {
  }

  /** A transaction other than `mark_dispatched` keeps the whole invariant. */
  lemma ActionKeeps(d: World, a: Action, payload: string, root: string)
    requires Inv(d, root) && Configured(a, root)
    requires a.ByWorker? ==> a.worker.leaseSeconds * SECOND >= MINIMUM_LEASE && !a.execution.Dispatched?
    requires var tx := Apply(a, d.unit, payload, d.now); tx.unit.run.sessionId.Some? && Open(tx.unit.run)
                                                         && d.unit.run.sessionId.None? ==>
               tx.unit.run.sessionId.value in d.created
    ensures Inv(d.(unit := Apply(a, d.unit, payload, d.now).unit), root)
  {
    ActionIsSafe(a, d.unit, payload, root, d.now);
    match a {
      case ByWorker(w, lease, op) => ExecutionSteps(w, lease, op, d.unit, payload, d.now);
      case ByManager(c, ticket, op) => WorkspaceSteps(c, ticket, op, d.unit, payload, d.now);
      case _ => OtherSteps(a, d.unit, payload, d.now);
    }
    EvolvesRowStep(d.unit, Apply(a, d.unit, payload, d.now), NamedBy(a), d.now);
    RowStepKeeps(d, Apply(a, d.unit, payload, d.now).unit, NamedBy(a));
  }

  // ---- The steps of a thread

  /** The transaction `op` of thread `g`. */
  function ThreadTx(d: World, g: nat, op: ExecutionOp, payload: string): Tx
    requires HasThread(d, g)
  {
    ApplyExecution(d.threads[g].worker, d.threads[g].lease, op, d.unit, payload, d.now)
  }

  lemma ThreadTxKeeps(d: World, g: nat, op: ExecutionOp, payload: string, root: string)
    requires Inv(d, root) && HasThread(d, g) && !op.Dispatched?
    requires var run := ThreadTx(d, g, op, payload).unit.run;
             run.sessionId.Some? && Open(run) && d.unit.run.sessionId.None? ==> run.sessionId.value in d.created
    ensures Inv(d.(unit := ThreadTx(d, g, op, payload).unit), root)
  {
    ActionKeeps(d, ByWorker(d.threads[g].worker, d.threads[g].lease, op), payload, root);
  }

  lemma AfterTxKeeps(d: World, g: nat, op: ExecutionOp, payload: string, p: Point, root: string)
    requires Inv(d, root) && HasThread(d, g) && !op.Dispatched?
    requires var run := ThreadTx(d, g, op, payload).unit.run;
             run.sessionId.Some? && Open(run) && d.unit.run.sessionId.None? ==> run.sessionId.value in d.created
    requires d.threads[g].at.Creating? ==> !InFlight(d.creations, g)
    requires var tx := ThreadTx(d, g, op, payload);
             tx.outcome.Accepted? && Current(tx.unit.run, g) ==> PointInv(d.(unit := tx.unit), p)
    ensures Inv(AfterTx(d, g, ThreadTx(d, g, op, payload), p), root)
  {
    ThreadTxKeeps(d, g, op, payload, root);
    var tx := ThreadTx(d, g, op, payload);
    LeaveKeeps(d.(unit := tx.unit), g);
    if tx.outcome.Accepted? {
      AtKeeps(d.(unit := tx.unit), g, p);
    }
  }

  lemma FailKeeps(d: World, g: nat, root: string)
    requires Inv(d, root) && HasThread(d, g)
    requires d.threads[g].at.Creating? ==> !InFlight(d.creations, g)
    ensures Inv(Fail(d, g), root)
  {
    AfterTxKeeps(d, g, HeartbeatRun(false), "", Begin, root);
  }

  lemma ContextKeeps(d: World, g: nat, root: string)
    requires Inv(d, root) && HasThread(d, g) && d.threads[g].at.Begin?
    ensures Inv(ThreadStep(d, g, ReadContext(g)), root)
  {
    LeaveKeeps(d, g);
    AtKeeps(d, g, HasContext(d.unit.run.sessionId, RowVerified(d.unit.run)));
  }

  lemma VerifyKeeps(d: World, g: nat, root: string)
    requires Inv(d, root) && HasThread(d, g) && d.threads[g].at.HasContext?
    ensures Inv(ThreadStep(d, g, VerifyWorkspace(g)), root)
  {
    var t := d.threads[g];
    LeaveKeeps(d, g);
    if t.lease.boundDigest.Some? {
      var p := if t.at.session.Some? then SessionReady(t.at.session.value, t.at.verified)
                 else Verified(t.at.session, t.at.verified);
      AfterTxKeeps(d, g, RuntimeVerified(t.lease.boundDigest.value), "", p, root);
    }
  }

  lemma ListKeeps(d: World, g: nat, root: string)
    requires Inv(d, root) && HasThread(d, g) && d.threads[g].at.Verified?
    ensures Inv(ThreadStep(d, g, ListSessions(g)), root)
  {
    FailKeeps(d, g, root);
    if |d.live| <= 1 {
      if Current(d.unit.run, g) {
        CurrentIsAlone(d, g);
      }
      var verified := d.threads[g].at.verified;
      AtKeeps(d, g, if |d.live| == 1 then Persisting(d.live[0], verified) else SawNoSession(verified));
    }
  }

  lemma RenewKeeps(d: World, g: nat, root: string)
    requires Inv(d, root) && HasThread(d, g) && d.threads[g].at.SawNoSession?
    ensures Inv(ThreadStep(d, g, RenewAndCreate(g)), root)
  {
    var tx := ThreadTx(d, g, HeartbeatRun(false), "");
    var d' := AfterTx(d, g, tx, Creating(None, d.threads[g].at.verified));
    AfterTxKeeps(d, g, HeartbeatRun(false), "", Creating(None, d.threads[g].at.verified), root);
    if tx.outcome.Accepted? {
      HeartbeatRow(d.threads[g].worker, d.unit, d.threads[g].lease, d.now);
      CurrentIsAlone(d, g);
      CreationKeeps(d', g);
    }
  }

  lemma HeartbeatRow(w: E.Worker, u: Unit, lease: E.ExecutionLease, now: Time)
    requires w.leaseSeconds * SECOND >= MINIMUM_LEASE && u.run.backend.OpenCode?
    ensures var tx := E.HeartbeatRun(w, u, lease, false, now);
            tx.outcome.Accepted? ==>
              && Current(u.run, lease.generation) && Current(tx.unit.run, lease.generation)
              && LeasedUntil(tx.unit.run, now + MINIMUM_LEASE)
  {
  }

  /** A creation starts under a lease that outlives it. */
  lemma CreationKeeps(d: World, g: nat)
    requires ProtocolInv(d) && HasThread(d, g) && d.threads[g].at.Creating? && d.created == [] && d.creations == []
    requires Current(d.unit.run, g) && LeasedUntil(d.unit.run, d.now + MINIMUM_LEASE)
    ensures ProtocolInv(d.(creations := d.creations + [Flight(g, "", d.now + CALL_LIMIT)]))
  {
  }

  lemma ReturnKeeps(d: World, g: nat, ok: bool, root: string)
    requires Inv(d, root) && HasThread(d, g) && d.threads[g].at.Creating?
    ensures Inv(ThreadStep(d, g, CreationReturns(g, ok)), root)
  {
    if !InFlight(d.creations, g) {
      FailKeeps(d, g, root);
      if d.threads[g].at.made.Some? {
        AtKeeps(d, g, Persisting(d.threads[g].at.made.value, d.threads[g].at.verified));
      }
    }
  }

  lemma PersistKeeps(d: World, g: nat, root: string)
    requires Inv(d, root) && HasThread(d, g) && d.threads[g].at.Persisting?
    ensures Inv(ThreadStep(d, g, PersistSessionId(g)), root)
  {
    var at := d.threads[g].at;
    AfterTxKeeps(d, g, PersistSession(at.id), "", SessionReady(at.id, at.verified), root);
  }

  lemma LookUpKeeps(d: World, g: nat, root: string)
    requires Inv(d, root) && HasThread(d, g) && d.threads[g].at.SessionReady?
    ensures Inv(ThreadStep(d, g, LookUpMessage(g)), root)
  {
    var at := d.threads[g].at;
    if Elapsed(d.threads[g], d.now) {
      LeaveKeeps(d, g);
    } else {
      LookedUpKeeps(d, g, at.id, at.verified);
    }
  }

  lemma LookedUpKeeps(d: World, g: nat, id: string, verified: bool)
    requires ProtocolInv(d) && HasThread(d, g) && d.threads[g].at == SessionReady(id, verified)
    ensures var p := if id in d.live && id in d.prompts then if verified then Prompted(id) else Suspicious(id)
                     else SawNoMessage(id, verified);
            ProtocolInv(At(d, g, p))
  {
    if Current(d.unit.run, g) {
      CurrentIsAlone(d, g);
      assert |d.prompts| > 0 ==> d.prompts[0] == id;
    }
    AtKeeps(d, g, if id in d.live && id in d.prompts then if verified then Prompted(id) else Suspicious(id)
                  else SawNoMessage(id, verified));
  }

  /** Nobody ever cancels a run for safety: a worker that sees an unexplained message no longer owns the row. */
  lemma SafetyCancelIsPowerless(d: World, g: nat)
    requires ThreadsInv(d) && HasThread(d, g) && d.threads[g].at.Suspicious?
    ensures E.RequestSafetyCancel(d.threads[g].worker, d.unit, d.threads[g].lease, d.now).unit == d.unit
  {
  }

  lemma VerifiedRow(w: E.Worker, u: Unit, lease: E.ExecutionLease, digest: string, now: Time)
    requires w.leaseSeconds * SECOND >= MINIMUM_LEASE
    ensures var tx := E.MarkRuntimeVerified(w, u, lease, digest, now);
            && tx.unit.run.sessionId == u.run.sessionId
            && (tx.outcome.Accepted? ==>
                  RowVerified(tx.unit.run) && LeasedUntil(tx.unit.run, now + MINIMUM_LEASE)
                  && (Open(tx.unit.run) ==> Open(u.run)) && tx.unit.run.leaseGeneration == u.run.leaseGeneration)
  {
  }

  lemma VerifyAgainKeeps(d: World, g: nat, root: string)
    requires Inv(d, root) && HasThread(d, g) && d.threads[g].at.SawNoMessage?
    ensures Inv(ThreadStep(d, g, VerifyAgain(g)), root)
  {
    var t := d.threads[g];
    if t.lease.boundDigest.None? {
      LeaveKeeps(d, g);
    } else {
      RuntimeVerifiedKeeps(d, g, t.lease.boundDigest.value, t.at.id, root);
    }
  }

  lemma RuntimeVerifiedKeeps(d: World, g: nat, digest: string, id: string, root: string)
    requires Inv(d, root) && HasThread(d, g) && d.threads[g].at.SawNoMessage? && d.threads[g].at.id == id
    ensures Inv(AfterTx(d, g, ThreadTx(d, g, RuntimeVerified(digest), ""), Reverified(id)), root)
  {
    VerifiedRow(d.threads[g].worker, d.unit, d.threads[g].lease, digest, d.now);
    AfterTxKeeps(d, g, RuntimeVerified(digest), "", Reverified(id), root);
  }

  /** Only the current thread can prompt, and it is the first. */
  lemma PromptKeeps(d: World, g: nat, id: string, root: string)
    requires Inv(d, root) && HasThread(d, g) && Current(d.unit.run, g) && d.threads[g].at.Reverified?
             && d.threads[g].at.id == id
    ensures Inv(At(d, g, Begin).(prompts := d.prompts + [id]), root)
    ensures Inv(At(d, g, Prompted(id)).(prompts := d.prompts + [id]), root)
  {
    AtKeeps(d, g, Begin);
    AtKeeps(d, g, Prompted(id));
  }

  lemma CrashedSendKeeps(d: World, g: nat, root: string)
    requires Inv(d, root) && HasThread(d, g) && Current(d.unit.run, g) && d.threads[g].at.Reverified?
    ensures Inv(Leave(d.(sends := d.sends + [Flight(g, d.threads[g].at.id, d.now + CALL_LIMIT)],
                         late := d.late || !LeasedUntil(d.unit.run, d.now + CALL_LIMIT)), g), root)
  {
    LeaveKeeps(d, g);
  }

  lemma LandedKeeps(d: World, g: nat, id: string, root: string)
    requires Inv(d, root) && HasThread(d, g) && Current(d.unit.run, g) && d.threads[g].at.Reverified?
             && d.threads[g].at.id == id
    ensures Inv(Leave(d.(prompts := d.prompts + [id]), g), root)
  {
    PromptKeeps(d, g, id, root);
    LeaveKeeps(At(d, g, Begin).(prompts := d.prompts + [id]), g);
    assert At(d, g, Begin).threads - {g} == d.threads - {g};
  }

  lemma DistrustKeeps(d: World, g: nat, id: string, trust: W.Trust, delivery: Delivery, payload: string, root: string)
    requires Inv(d, root) && HasThread(d, g) && !d.threads[g].at.Creating? && !trust.Trusted?
    ensures Inv(Gate(d, g, id, trust, delivery, payload), root)
  {
    var code := if trust.TrustRevoked? then "repository_trust_revoked" else "repository_not_ready";
    ThreadTxKeeps(d, g, RuntimeRejected(code), payload, root);
    LeaveKeeps(d.(unit := ThreadTx(d, g, RuntimeRejected(code), payload).unit), g);
  }

  lemma GateKeeps(d: World, g: nat, trust: W.Trust, delivery: Delivery, payload: string, root: string)
    requires Inv(d, root) && HasThread(d, g) && d.threads[g].at.Reverified?
    ensures Inv(Gate(d, g, d.threads[g].at.id, trust, delivery, payload), root)
  {
    LeaveKeeps(d, g);
    var t := d.threads[g];
    if !trust.Trusted? {
      DistrustKeeps(d, g, t.at.id, trust, delivery, payload, root);
    } else if E.OwnedRun(t.worker, d.unit.run, g, d.now) && d.unit.run.status.Queued?
             && d.unit.run.cancelRequestedAt.None? {
      PromptedKeeps(d, g, t.at.id, delivery, payload, root);
    }
  }

  lemma PromptedKeeps(d: World, g: nat, id: string, delivery: Delivery, payload: string, root: string)
    requires Inv(d, root) && HasThread(d, g) && d.threads[g].at == Reverified(id)
    requires E.OwnedRun(d.threads[g].worker, d.unit.run, g, d.now) && d.unit.run.status.Queued?
             && d.unit.run.cancelRequestedAt.None?
    ensures Inv(Gate(d, g, id, W.Trusted, delivery, payload), root)
  {
    LeaveKeeps(d, g);
    assert Current(d.unit.run, g);
    match delivery
    case Delivered =>
      DeliveredKeeps(d, g, id, root);
    case ErrorReported(effective) =>
      ErrorKeeps(d, g, id, effective, root);
    case CrashedWhileSending(landed) =>
      if landed {
        LandedKeeps(d, g, id, root);
      } else {
        CrashedSendKeeps(d, g, root);
      }
  }

  lemma DeliveredKeeps(d: World, g: nat, id: string, root: string)
    requires Inv(d, root) && HasThread(d, g) && Current(d.unit.run, g) && d.threads[g].at.Reverified?
             && d.threads[g].at.id == id
    requires E.OwnedRun(d.threads[g].worker, d.unit.run, g, d.now)
    ensures Inv(At(d.(unit := d.unit.(run := E.Renewed(d.threads[g].worker, d.unit.run, d.now)),
                      prompts := d.prompts + [id]), g, Prompted(id)), root)
  {
    PromptKeeps(d, g, id, root);
    ThreadTxKeeps(At(d, g, Prompted(id)).(prompts := d.prompts + [id]), g, HeartbeatRun(false), "", root);
  }

  lemma ErrorKeeps(d: World, g: nat, id: string, effective: bool, root: string)
    requires Inv(d, root) && HasThread(d, g) && Current(d.unit.run, g) && d.threads[g].at.Reverified?
             && d.threads[g].at.id == id
    ensures Inv(Fail(At(d, g, Begin).(prompts := if effective then d.prompts + [id] else d.prompts), g), root)
  {
    PromptKeeps(d, g, id, root);
    AtKeeps(d, g, Begin);
    FailKeeps(At(d, g, Begin).(prompts := if effective then d.prompts + [id] else d.prompts), g, root);
  }

  /** `mark_dispatched` gives the lease up, with nothing in flight under it. */
  lemma DispatchedKeeps(d: World, g: nat, root: string)
    requires Inv(d, root) && HasThread(d, g) && d.threads[g].at.Prompted?
    ensures Inv(ThreadStep(d, g, MarkAsDispatched(g)), root)
  {
    if Elapsed(d.threads[g], d.now) {
      LeaveKeeps(d, g);
    } else {
      MarkedKeeps(d, g, d.threads[g].at.id, root);
    }
  }

  lemma MarkedKeeps(d: World, g: nat, id: string, root: string)
    requires Inv(d, root) && HasThread(d, g) && d.threads[g].at == Prompted(id)
    ensures Inv(Leave(d.(unit := ThreadTx(d, g, Dispatched(id), "").unit), g), root)
  {
    var t := d.threads[g];
    var tx := ThreadTx(d, g, Dispatched(id), "");
    ActionIsSafe(ByWorker(t.worker, t.lease, Dispatched(id)), d.unit, "", root, d.now);
    if tx.outcome.Accepted? {
      CurrentIsAlone(d, g);
      ClosedLeaseKeeps(d, g, tx.unit);
    } else {
      LeaveKeeps(d, g);
    }
  }

  lemma ClosedLeaseKeeps(d: World, g: nat, u: Unit)
    requires ProtocolInv(d) && HasThread(d, g) && Current(d.unit.run, g) && d.creations == []
             && (d.late || d.sends == [])
    requires u.run == d.unit.run.(status := u.run.status, stage := u.run.stage, heartbeatAt := u.run.heartbeatAt,
                                  leaseOwner := None, leaseExpiresAt := None)
    ensures ProtocolInv(Leave(d.(unit := u), g))
  {
  }

  lemma ThreadStepKeeps(d: World, g: nat, s: Step, root: string)
    requires Inv(d, root) && HasThread(d, g) && StepOwner(s) == Some(g)
    ensures Inv(ThreadStep(d, g, s), root)
  {
    match s
    case ReadContext(_) => if d.threads[g].at.Begin? { ContextKeeps(d, g, root); }
    case VerifyWorkspace(_) => if d.threads[g].at.HasContext? { VerifyKeeps(d, g, root); }
    case ListSessions(_) => if d.threads[g].at.Verified? { ListKeeps(d, g, root); }
    case RenewAndCreate(_) => if d.threads[g].at.SawNoSession? { RenewKeeps(d, g, root); }
    case CreationReturns(_, ok) => if d.threads[g].at.Creating? { ReturnKeeps(d, g, ok, root); }
    case PersistSessionId(_) => if d.threads[g].at.Persisting? { PersistKeeps(d, g, root); }
    case Retry(_) => if !d.threads[g].at.Creating? { FailKeeps(d, g, root); }
    case Crash(_) => LeaveKeeps(d, g);
    case _ => PromptStepKeeps(d, g, s, root);
  }

  /** The steps of a thread that has a session. */
  lemma PromptStepKeeps(d: World, g: nat, s: Step, root: string)
    requires Inv(d, root) && HasThread(d, g) && StepOwner(s) == Some(g) && !s.Retry? && !s.Crash?
    requires !s.ReadContext? && !s.VerifyWorkspace? && !s.ListSessions? && !s.RenewAndCreate? && !s.CreationReturns?
             && !s.PersistSessionId?
    ensures Inv(ThreadStep(d, g, s), root)
  {
    match (s, d.threads[g].at)
    case (LookUpMessage(_), SessionReady(_, _)) => LookUpKeeps(d, g, root);
    case (CancelForSafety(_), Suspicious(_)) => SafetyCancelIsPowerless(d, g); LeaveKeeps(d, g);
    case (VerifyAgain(_), SawNoMessage(_, _)) => VerifyAgainKeeps(d, g, root);
    case (SendPrompt(_, trust, delivery, payload), Reverified(_)) => GateKeeps(d, g, trust, delivery, payload, root);
    case (MarkAsDispatched(_), Prompted(_)) => DispatchedKeeps(d, g, root);
    case _ =>
  }

  // ---- The steps of the world

  lemma TickKeeps(d: World, to: Time, root: string)
    requires Inv(d, root) && d.now <= to && AllSettleAfter(d.creations, to) && AllSettleAfter(d.sends, to)
    ensures Inv(d.(now := to), root)
  {
  }

  /** A claim moves to a fresh generation: whatever was in flight under the old one has settled. */
  lemma ClaimKeeps(d: World, w: E.Worker, payload: string, root: string)
    requires Inv(d, root) && w.id != C.CODEX_WORKER && w.leaseSeconds * SECOND >= MINIMUM_LEASE
    ensures Inv(ClaimedBy(d, w, payload), root)
  {
    var lease := E.ExecutionLease(0, None);
    ActionKeeps(d, ByWorker(w, lease, ClaimRun), payload, root);
    var tx := E.ClaimRun(w, d.unit, payload, d.now);
    var run := tx.unit.run;
    if tx.outcome.Claimed? && run.status.Queued? && run.cancelRequestedAt.None? {
      var t := Thread(w, E.ExecutionLease(run.leaseGeneration, run.preflightDigest), run.deadlineAt, Begin);
      assert run.leaseGeneration == d.unit.run.leaseGeneration + 1;
      FreshThreadKeeps(d, tx.unit, t);
    }
  }

  lemma FreshThreadKeeps(d: World, u: Unit, t: Thread)
    requires ProtocolInv(d) && ProtocolInv(d.(unit := u)) && Open(u.run)
             && u.run.leaseGeneration == d.unit.run.leaseGeneration + 1
    requires t.lease.generation == u.run.leaseGeneration && t.at.Begin?
    requires t.worker.id != C.CODEX_WORKER && t.worker.leaseSeconds * SECOND >= MINIMUM_LEASE
    ensures ProtocolInv(d.(unit := u, threads := d.threads[t.lease.generation := t]))
  {
    assert |d.creations| > 0 ==> FlightInv(d, d.creations[0]);
    assert |d.sends| > 0 ==> SendInv(d, d.sends[0]);
  }

  lemma LandingKeeps(d: World, i: nat, id: string, root: string)
    requires Inv(d, root) && i < |d.creations| && id !in d.created
    ensures Inv(Landed(d, i, id), root)
  {
    SessionAppears(d, i, id);
    var g := d.creations[i].generation;
    if g in d.threads && d.threads[g].at.Creating? {
      AtKeeps(d.(creations := [], created := d.created + [id], live := d.live + [id]), g,
              Creating(Some(id), d.threads[g].at.verified));
    }
  }

  lemma SessionAppears(d: World, i: nat, id: string)
    requires ProtocolInv(d) && i < |d.creations|
    ensures Without(d.creations, i) == []
    ensures ProtocolInv(d.(creations := [], created := d.created + [id], live := d.live + [id]))
  {
    assert |d.creations| == 1;
    forall g | g in d.threads && Current(d.unit.run, g) ensures d.threads[g].at.Creating? {
      assert FlightInv(d, d.creations[i]);
    }
  }

  lemma SendSettlesKeeps(d: World, i: nat, root: string)
    requires Inv(d, root) && i < |d.sends|
    ensures Inv(d.(sends := Without(d.sends, i), prompts := d.prompts + [d.sends[i].session]), root)
    ensures Inv(d.(sends := Without(d.sends, i)), root)
  {
    assert SendInv(d, d.sends[i]);
    forall j | 0 <= j < |Without(d.sends, i)| ensures Without(d.sends, i)[j] in d.sends {
    }
  }

  lemma WorldStepKeeps(d: World, s: Step, root: string)
    requires Inv(d, root) && Sensible(s, root)
    ensures Inv(WorldStep(d, s), root)
  {
    match s
    case Tick(to) =>
      if d.now <= to && AllSettleAfter(d.creations, to) && AllSettleAfter(d.sends, to) {
        TickKeeps(d, to, root);
      }
    case Background(a, payload) => if IsBackground(a) { BackgroundKeeps(d, a, payload, root); }
    case Claim(w, payload) => if w.leaseSeconds * SECOND >= MINIMUM_LEASE { ClaimKeeps(d, w, payload, root); }
    case CreationLands(i, id) => if i < |d.creations| && id !in d.created { LandingKeeps(d, i, id, root); }
    case CreationIsLost(i) => if i < |d.creations| { LostKeeps(d, i, root); }
    case SendLands(i) => if i < |d.sends| { SendSettlesKeeps(d, i, root); }
    case SendIsLost(i) => if i < |d.sends| { SendSettlesKeeps(d, i, root); }
    case DeleteSession(i) => DeletionKeeps(d, i, root);
    case _ =>
  }

  lemma DeletionKeeps(d: World, i: nat, root: string)
    requires Inv(d, root)
    ensures Inv(WorldStep(d, DeleteSession(i)), root)
  {
  }

  /** Every step keeps the invariant. */
  lemma StepKeeps(d: World, s: Step, root: string)
    requires Inv(d, root) && Sensible(s, root)
    ensures Inv(Do(d, s), root)
  {
    match StepOwner(s)
    case Some(g) => if g in d.threads { ThreadStepKeeps(d, g, s, root); }
    case None => WorldStepKeeps(d, s, root);
  }

  lemma LostKeeps(d: World, i: nat, root: string)
    requires Inv(d, root) && i < |d.creations|
    ensures Inv(d.(creations := Without(d.creations, i)), root)
  {
    CreationGoes(d, i);
  }

  lemma CreationGoes(d: World, i: nat)
    requires ProtocolInv(d) && i < |d.creations|
    ensures Without(d.creations, i) == [] && ProtocolInv(d.(creations := []))
  {
  }

  lemma BackgroundKeeps(d: World, a: Action, payload: string, root: string)
    requires Inv(d, root) && IsBackground(a) && Configured(a, root)
    ensures Inv(d.(unit := Apply(a, d.unit, payload, d.now).unit), root)
  {
    BackgroundNamesNoSession(a, d.unit, payload, d.now);
    ActionKeeps(d, a, payload, root);
  }

  lemma BackgroundNamesNoSession(a: Action, u: Unit, payload: string, now: Time)
    requires IsBackground(a) && u.run.backend.OpenCode?
    ensures Apply(a, u, payload, now).unit.run.sessionId == u.run.sessionId
  {
    match a
    case ByWorker(w, lease, op) => ExecutionSteps(w, lease, op, u, payload, now);
    case ByManager(c, ticket, op) => WorkspaceSteps(c, ticket, op, u, payload, now);
    case _ => OtherSteps(a, u, payload, now);
  }

  // ---- Whole runs

  /** `steps[i]` leads from `worlds[i]` to `worlds[i + 1]`. */
  ghost predicate Trace(worlds: seq<World>, steps: seq<Step>, root: string) {
    && |worlds| == |steps| + 1
    && Initial(worlds[0], root)
    && forall i :: 0 <= i < |steps| ==> Sensible(steps[i], root) && worlds[i + 1] == Do(worlds[i], steps[i])
  }

  lemma InitialIsSound(d: World, root: string)
    requires Initial(d, root)
    ensures Inv(d, root)
  {
  }

  lemma {:induction false} ReachableKeeps(worlds: seq<World>, steps: seq<Step>, root: string, i: nat)
    requires Trace(worlds, steps, root) && i < |worlds|
    ensures Inv(worlds[i], root)
  {
    if i == 0 {
      InitialIsSound(worlds[0], root);
    } else {
      ReachableKeeps(worlds, steps, root, i - 1);
      StepKeeps(worlds[i - 1], steps[i - 1], root);
    }
  }

  /** Over any number of generations, crashes and reported-but-effective calls: at most one session is ever created,
      every dispatch prompt goes to the session the row names, and there is at most one prompt unless a worker vanished
      with a prompt in flight when its lease had less than the length of a call left. */
  lemma AtMostOneSessionAndPrompt(worlds: seq<World>, steps: seq<Step>, root: string, i: nat)
    requires Trace(worlds, steps, root) && i < |worlds|
    ensures |worlds[i].created| <= 1 && (!worlds[i].late ==> |worlds[i].prompts| <= 1)
    ensures forall k :: 0 <= k < |worlds[i].prompts| ==> worlds[i].unit.run.sessionId == Some(worlds[i].prompts[k])
  {
    ReachableKeeps(worlds, steps, root, i);
  }

  /** Whenever the prompt exists, or may still come to exist, the row already holds the attested digest. */
  lemma PromptedMeansVerified(worlds: seq<World>, steps: seq<Step>, root: string, i: nat)
    requires Trace(worlds, steps, root) && i < |worlds| && (worlds[i].prompts != [] || worlds[i].sends != [])
    ensures var run := worlds[i].unit.run;
            run.preflightDigest.Some? && run.runtimeDigest == run.preflightDigest && run.runtimeVerifiedAt.Some?
  {
    ReachableKeeps(worlds, steps, root, i);
  }

  /** The safety cancellation of `dispatch_execution` never changes a row. */
  lemma SafetyCancelNeverActs(worlds: seq<World>, steps: seq<Step>, root: string, i: nat)
    requires Trace(worlds, steps, root) && i < |steps| && steps[i].CancelForSafety?
    ensures worlds[i + 1].unit == worlds[i].unit
  {
    ReachableKeeps(worlds, steps, root, i);
    var g := steps[i].g;
    if g in worlds[i].threads && worlds[i].threads[g].at.Suspicious? {
      SafetyCancelIsPowerless(worlds[i], g);
    }
  }
}
