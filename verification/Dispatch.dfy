/** The dispatch protocol: execution workers, the locked row and OpenCode as one machine. Workers
    of any number of generations take one step at a time; a call may take effect and still report
    an error, and a worker may vanish between any two steps, even with a call in flight. */
module Dispatch {
  import opened Prelude
  import opened Rows
  import opened Transactions
  import E = ExecutionLeases
  import C = CodexBroker
  import W = WorkspaceLeases
  import opened ControlPlane

  /** The shortest lease an execution worker may be configured with. */
  const MINIMUM_LEASE: Time := 60 * SECOND

  /** The timeout of an OpenCode request: a call has settled this long after it was made. */
  const CALL_LIMIT: Time := 30 * SECOND

  /** Where a worker stands inside `dispatch_execution`. `verified` is what it read of the row before
      it first verified the workspace itself. */
  datatype Point =
    | Begin
    | HasContext(session: Option<string>, verified: bool)
    | Verified(session: Option<string>, verified: bool)
    | SawNoSession(verified: bool)
    | Creating(made: Option<string>, verified: bool)
    | Persisting(id: string, verified: bool)
    | SessionReady(id: string, verified: bool)
    | SawNoMessage(id: string, verified: bool)
    | Reverified(id: string)
    | Prompted(id: string)
    | Suspicious(id: string)

  datatype Thread = Thread(worker: E.Worker, lease: E.ExecutionLease, deadline: Option<Time>, at: Point)

  /** A POST on its way to OpenCode; it settles, one way or the other, before `settleBy`. */
  datatype Flight = Flight(generation: nat, session: string, settleBy: Time)

  /** `created` and `prompts` record every session creation and dispatch prompt that ever took effect;
      `live` are the sessions OpenCode still has. `late` says that some worker vanished with a prompt in flight
      when the lease on the row had less left than such a call may take. */
  datatype World = World(unit: Unit, now: Time, threads: map<nat, Thread>, created: seq<string>, live: seq<string>,
                         prompts: seq<string>, creations: seq<Flight>, sends: seq<Flight>, late: bool)

  datatype Delivery = Delivered | ErrorReported(effective: bool) | CrashedWhileSending(landed: bool)

  datatype Step =
    | Tick(to: Time)
    | Background(action: Action, payload: string)
    | Claim(worker: E.Worker, payload: string)
    | ReadContext(g: nat)
    | VerifyWorkspace(g: nat)
    | ListSessions(g: nat)
    | RenewAndCreate(g: nat)
    | CreationLands(flight: nat, id: string)
    | CreationIsLost(flight: nat)
    | CreationReturns(g: nat, ok: bool)
    | PersistSessionId(g: nat)
    | LookUpMessage(g: nat)
    | CancelForSafety(g: nat)
    | VerifyAgain(g: nat)
    | SendPrompt(g: nat, trust: W.Trust, delivery: Delivery, payload: string)
    | SendLands(flight: nat)
    | SendIsLost(flight: nat)
    | MarkAsDispatched(g: nat)
    | Retry(g: nat)
    | Crash(g: nat)
    | DeleteSession(index: nat)

  function Without<T>(s: seq<T>, i: nat): seq<T>
    requires i < |s|
  {
    s[..i] + s[i + 1..]
  }

  /** Transactions outside the dispatch path. The writes that `dispatch_execution` itself makes, and
      claims, are steps of their own. */
  predicate IsBackground(a: Action) {
    match a
    case ByWorker(w, _, op) =>
      && w.leaseSeconds * SECOND >= MINIMUM_LEASE
      && !op.ClaimRun? && !op.PersistSession? && !op.RuntimeVerified? && !op.SafetyCancel? && !op.Dispatched?
    case _ => true
  }

  predicate RowVerified(run: Run) {
    run.preflightDigest.Some? && run.runtimeDigest == run.preflightDigest && run.runtimeVerifiedAt.Some?
  }

  predicate Elapsed(t: Thread, now: Time) {
    t.deadline.Some? && t.deadline.value <= now
  }

  predicate LeasedUntil(run: Run, t: Time) {
    run.leaseExpiresAt.Some? && t <= run.leaseExpiresAt.value
  }

  predicate HasThread(d: World, g: nat) {
    g in d.threads
  }

  function At(d: World, g: nat, p: Point): World
    requires HasThread(d, g)
  {
    d.(threads := d.threads[g := d.threads[g].(at := p)])
  }

  /** The worker gives the execution up; whatever it still does are background transactions. */
  function Leave(d: World, g: nat): World {
    d.(threads := d.threads - {g})
  }

  /** Apply a transaction; go on if it was accepted, else leave. */
  function AfterTx(d: World, g: nat, tx: Tx, p: Point): World
    requires HasThread(d, g)
  {
    if tx.outcome.Accepted? then At(d.(unit := tx.unit), g, p) else Leave(d.(unit := tx.unit), g)
  }

  /** `_prompt_with_repository_trust_gate`: the row stays locked during the call, so the check, the call
      and the commit are one step. A crash releases the lock, when the call has landed or with the call in flight;
      the renewal of the gate is then lost. */
  function Gate(d: World, g: nat, id: string, trust: W.Trust, delivery: Delivery, payload: string): World
    requires HasThread(d, g)
  {
    var t := d.threads[g];
    if !trust.Trusted? then
      var code := if trust.TrustRevoked? then "repository_trust_revoked" else "repository_not_ready";
      Leave(d.(unit := E.MarkRuntimeRejected(t.worker, d.unit, t.lease, code, payload, d.now).unit), g)
    else if !E.OwnedRun(t.worker, d.unit.run, t.lease.generation, d.now) || !d.unit.run.status.Queued?
           || d.unit.run.cancelRequestedAt.Some? then Leave(d, g)
    else if d.unit.run.deadlineAt.Some? && d.unit.run.deadlineAt.value <= d.now then Leave(d, g)
    else
      match delivery
      case Delivered =>
        At(d.(unit := d.unit.(run := E.Renewed(t.worker, d.unit.run, d.now)), prompts := d.prompts + [id]), g,
           Prompted(id))
      case ErrorReported(effective) =>
        Fail(At(d, g, Begin).(prompts := if effective then d.prompts + [id] else d.prompts), g)
      case CrashedWhileSending(landed) =>
        if landed then Leave(d.(prompts := d.prompts + [id]), g)
        else Leave(d.(sends := d.sends + [Flight(g, id, d.now + CALL_LIMIT)],
                      late := d.late || !LeasedUntil(d.unit.run, d.now + CALL_LIMIT)), g)
  }

  /** An OpenCode error: heartbeat, and start over in the next poll with the same lease. */
  function Fail(d: World, g: nat): World
    requires HasThread(d, g)
  {
    AfterTx(d, g, E.HeartbeatRun(d.threads[g].worker, d.unit, d.threads[g].lease, false, d.now), Begin)
  }

  function ClaimedBy(d: World, w: E.Worker, payload: string): World {
    var tx := E.ClaimRun(w, d.unit, payload, d.now);
    var run := tx.unit.run;
    if tx.outcome.Claimed? && run.status.Queued? && run.cancelRequestedAt.None? then
      var t := Thread(w, E.ExecutionLease(run.leaseGeneration, run.preflightDigest), run.deadlineAt, Begin);
      d.(unit := tx.unit, threads := d.threads[run.leaseGeneration := t])
    else d.(unit := tx.unit)
  }

  predicate InFlight(flights: seq<Flight>, g: nat) {
    exists i :: 0 <= i < |flights| && flights[i].generation == g
  }

  /** One step of the thread of generation `g`. */
  function ThreadStep(d: World, g: nat, s: Step): World
    requires HasThread(d, g)
  {
    var t := d.threads[g];
    var w, lease := t.worker, t.lease;
    match (s, t.at)
    case (ReadContext(_), Begin) =>
      if !Elapsed(t, d.now) && E.OwnedRun(w, d.unit.run, lease.generation, d.now) && d.unit.run.status.Queued?
      then At(d, g, HasContext(d.unit.run.sessionId, RowVerified(d.unit.run))) else Leave(d, g)
    case (VerifyWorkspace(_), HasContext(session, verified)) =>
      if lease.boundDigest.None? then Leave(d, g) else
      AfterTx(d, g, E.MarkRuntimeVerified(w, d.unit, lease, lease.boundDigest.value, d.now),
              if session.Some? then SessionReady(session.value, verified) else Verified(session, verified))
    case (ListSessions(_), Verified(_, verified)) =>
      if |d.live| > 1 then Fail(d, g)
      else At(d, g, if |d.live| == 1 then Persisting(d.live[0], verified) else SawNoSession(verified))
    case (RenewAndCreate(_), SawNoSession(verified)) =>
      var tx := E.HeartbeatRun(w, d.unit, lease, false, d.now);
      var d' := AfterTx(d, g, tx, Creating(None, verified));
      if tx.outcome.Accepted? then d'.(creations := d.creations + [Flight(g, "", d.now + CALL_LIMIT)]) else d'
    case (CreationReturns(_, ok), Creating(made, verified)) =>
      if InFlight(d.creations, g) then d
      else if ok && made.Some? then At(d, g, Persisting(made.value, verified))
      else Fail(d, g)
    case (PersistSessionId(_), Persisting(id, verified)) =>
      AfterTx(d, g, E.PersistDispatchSession(w, d.unit, lease, id, d.now), SessionReady(id, verified))
    case (LookUpMessage(_), SessionReady(id, verified)) =>
      if Elapsed(t, d.now) then Leave(d, g)
      else if id in d.live && id in d.prompts then At(d, g, if verified then Prompted(id) else Suspicious(id))
      else At(d, g, SawNoMessage(id, verified))
    case (CancelForSafety(_), Suspicious(_)) =>
      Leave(d.(unit := E.RequestSafetyCancel(w, d.unit, lease, d.now).unit), g)
    case (VerifyAgain(_), SawNoMessage(id, _)) =>
      if lease.boundDigest.None? then Leave(d, g) else
      AfterTx(d, g, E.MarkRuntimeVerified(w, d.unit, lease, lease.boundDigest.value, d.now), Reverified(id))
    case (SendPrompt(_, trust, delivery, payload), Reverified(id)) => Gate(d, g, id, trust, delivery, payload)
    case (MarkAsDispatched(_), Prompted(id)) =>
      if Elapsed(t, d.now) then Leave(d, g)
      else Leave(d.(unit := E.MarkDispatched(w, d.unit, lease, id, d.now).unit), g)
    case (Retry(_), _) => if t.at.Creating? then d else Fail(d, g)
    case (Crash(_), _) => Leave(d, g)
    case _ => d
  }

  /** The worker of the thread a step belongs to. */
  function StepOwner(s: Step): Option<nat> {
    match s
    case ReadContext(g) => Some(g)
    case VerifyWorkspace(g) => Some(g)
    case ListSessions(g) => Some(g)
    case RenewAndCreate(g) => Some(g)
    case CreationReturns(g, _) => Some(g)
    case PersistSessionId(g) => Some(g)
    case LookUpMessage(g) => Some(g)
    case CancelForSafety(g) => Some(g)
    case VerifyAgain(g) => Some(g)
    case SendPrompt(g, _, _, _) => Some(g)
    case MarkAsDispatched(g) => Some(g)
    case Retry(g) => Some(g)
    case Crash(g) => Some(g)
    case _ => None
  }

  predicate AllSettleAfter(flights: seq<Flight>, t: Time) {
    forall i :: 0 <= i < |flights| ==> t < flights[i].settleBy
  }

  /** A creation takes effect: the session appears, and a worker still waiting for it will learn its id. */
  function Landed(d: World, i: nat, id: string): World
    requires i < |d.creations|
  {
    var g := d.creations[i].generation;
    var d' := d.(creations := Without(d.creations, i), created := d.created + [id], live := d.live + [id]);
    if g in d.threads && d.threads[g].at.Creating? then At(d', g, Creating(Some(id), d.threads[g].at.verified)) else d'
  }

  /** A step that belongs to no thread. */
  function WorldStep(d: World, s: Step): World {
    match s
    case Tick(to) => if d.now <= to && AllSettleAfter(d.creations, to) && AllSettleAfter(d.sends, to) then d.(now := to)
                       else d
    case Background(a, payload) => if IsBackground(a) then d.(unit := Apply(a, d.unit, payload, d.now).unit) else d
    case Claim(w, payload) => if w.leaseSeconds * SECOND >= MINIMUM_LEASE then ClaimedBy(d, w, payload) else d
    case CreationLands(i, id) => if i < |d.creations| && id !in d.created then Landed(d, i, id) else d
    case CreationIsLost(i) => if i < |d.creations| then d.(creations := Without(d.creations, i)) else d
    case SendLands(i) => if i < |d.sends|
                           then d.(sends := Without(d.sends, i), prompts := d.prompts + [d.sends[i].session]) else d
    case SendIsLost(i) => if i < |d.sends| then d.(sends := Without(d.sends, i)) else d
    case DeleteSession(i) => if i < |d.live| && d.unit.run.cancelRequestedAt.Some? then d.(live := Without(d.live, i))
                               else d
    case _ => d
  }

  /** The world after a step; a step that is not enabled changes nothing. */
  function Do(d: World, s: Step): World {
    match StepOwner(s)
    case Some(g) => if g in d.threads then ThreadStep(d, g, s) else d
    case None => WorldStep(d, s)
  }

  /** Nothing has happened yet: the rows are those `start_execution` inserted for an OpenCode execution. */
  ghost predicate Initial(d: World, root: string) {
    && |root| <= 475
    && d.threads == map[] && d.created == [] && d.live == [] && d.prompts == [] && d.creations == [] && d.sends == []
    && !d.late
    && exists task, repository, run, workspace, commit, timeout, status, at ::
         NormalizeCommit(commit) == Some(commit)
         && d.unit == StartedUnit(task, repository, run, workspace, commit, timeout, root, status, at)
  }

  function StartedUnit(task: Uuid, repository: Uuid, run: Uuid, workspace: Uuid, commit: string, timeout: nat,
                       root: string,
                       status: TaskStatus, at: Time): Unit {
    ControlApi.StartRows(task, repository, run, workspace, OpenCode, commit, timeout, root, status, at)
  }

  /** Deployment facts about a step, as in the control plane machine. */
  predicate Sensible(s: Step, root: string) {
    match s
    case Background(a, _) => Configured(a, root)
    case Claim(w, _) => w.id != C.CODEX_WORKER
    case _ => true
  }
}
