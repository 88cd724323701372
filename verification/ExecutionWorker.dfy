/** The observation half of `execution_worker.py`: several transactions and OpenCode calls in a row,
    with other transactions in between. */
module ExecutionWorker {
  import opened Prelude
  import opened Rows
  import opened Transactions
  import opened Json
  import C = Checkpoint
  import E = ExecutionLeases
  import G = RunnerGate
  import R = RunnerJobs
  import S = RunnerGateSafety
  import P = ControlPlane
  import D = DispatchSafety
  import Lifecycle

  /** `utc_now`, on a machine whose clock is not set back. */
  class Clock {
    var now: Time

    constructor (start: Time)
      ensures now == start
    {
      now := start;
    }

    method Read() returns (t: Time)
      modifies this
      ensures old(now) <= now == t
    {
      var elapsed: int := *;
      if elapsed > 0 {
        now := now + elapsed;
      }
      t := now;
    }
  }

  datatype Call = Done | Missing | Failed

  datatype CallKind = AbortCall | DeleteCall

  /** A session as OpenCode lists it: its id, if it has one, and the execution its metadata names. */
  datatype SessionInfo = SessionInfo(id: Option<string>, execution: Option<Uuid>)

  /** What went over the wire: a listing OpenCode answered, or a call, with the row and the instant it was made at. */
  datatype Contact = Listed(sessions: seq<SessionInfo>)
    | Called(kind: CallKind, id: string, result: Call, row: Run, at: Time)

  /** OpenCode; `log` records every answered listing and every call, in order. A failed call may have taken
      effect or not. */
  class OpenCode {
    ghost var log: seq<Contact>

    constructor ()
      ensures log == []
    {
      log := [];
    }

    /** `list_sessions`; None when the call fails. */
    method ListSessions() returns (r: Option<seq<SessionInfo>>)
      modifies this
      ensures log == old(log) + if r.Some? then [Listed(r.value)] else []
    {
      r := *;
      if r.Some? {
        log := log + [Listed(r.value)];
      }
    }

    /** `sessions_for_execution`: the sessions whose metadata names the execution. */
    method SessionsForExecution(execution: Uuid) returns (r: Option<seq<SessionInfo>>)
      modifies this
      ensures r.None? ==> log == old(log)
      ensures r.Some? ==>
                && |log| == |old(log)| + 1 && log[..|old(log)|] == old(log) && log[|old(log)|].Listed?
                && forall s :: s in r.value <==> s in log[|old(log)|].sessions && s.execution == Some(execution)
    {
      var all := ListSessions();
      if all.None? {
        return None;
      }
      var matches: seq<SessionInfo> := [];
      for k := 0 to |all.value|
        invariant log == old(log) + [Listed(all.value)]
        invariant forall s :: s in matches <==> s in all.value[..k] && s.execution == Some(execution)
      {
        assert all.value[..k + 1] == all.value[..k] + [all.value[k]];
        if all.value[k].execution == Some(execution) {
          matches := matches + [all.value[k]];
        }
      }
      assert all.value[..|all.value|] == all.value;
      return Some(matches);
    }

    method Abort(id: string, ghost db: Session, ghost clock: Clock) returns (r: Call)
      modifies this
      ensures log == old(log) + [Called(AbortCall, id, r, db.run, clock.now)]
    {
      r := *;
      log := log + [Called(AbortCall, id, r, db.run, clock.now)];
    }

    method DeleteSession(id: string, ghost db: Session, ghost clock: Clock) returns (r: Call)
      modifies this
      ensures log == old(log) + [Called(DeleteCall, id, r, db.run, clock.now)]
    {
      r := *;
      log := log + [Called(DeleteCall, id, r, db.run, clock.now)];
    }
  }

  /** The call was made right behind a committed renewal of the lease. */
  predicate BehindRenewal(w: E.Worker, lease: E.ExecutionLease, c: Contact) {
    c.Called? ==>
      && c.row.leaseOwner == Some(w.id) && c.row.leaseGeneration == lease.generation
      && c.row.heartbeatAt == Some(c.at) && c.row.leaseExpiresAt == Some(c.at + w.leaseSeconds * SECOND)
  }

  predicate AllBehindRenewals(w: E.Worker, lease: E.ExecutionLease, contacts: seq<Contact>) {
    forall i :: 0 <= i < |contacts| ==> BehindRenewal(w, lease, contacts[i])
  }

  /** The session cannot go on: an abort was confirmed, or OpenCode no longer has it. */
  predicate StopsSession(c: Contact, id: string) {
    c.Called? && c.id == id && (c.result.Missing? || (c.kind.AbortCall? && c.result.Done?))
  }

  /** OpenCode no longer has the session. */
  predicate RemovesSession(c: Contact, id: string) {
    c.Called? && c.id == id && (c.result.Missing? || (c.kind.DeleteCall? && c.result.Done?))
  }

  predicate Stopped(contacts: seq<Contact>, id: string) {
    exists i :: 0 <= i < |contacts| && StopsSession(contacts[i], id)
  }

  predicate Removed(contacts: seq<Contact>, id: string) {
    exists i :: 0 <= i < |contacts| && RemovesSession(contacts[i], id)
  }

  lemma StoppedGrows(a: seq<Contact>, b: seq<Contact>, id: string)
    ensures Stopped(a + b, id) <==> Stopped(a, id) || Stopped(b, id)
    ensures Removed(a + b, id) <==> Removed(a, id) || Removed(b, id)
  {
    forall i | 0 <= i < |a| ensures (a + b)[i] == a[i] {
    }
    forall i | 0 <= i < |b| ensures (a + b)[|a| + i] == b[i] {
    }
    if i :| 0 <= i < |a| && StopsSession(a[i], id) {
      assert StopsSession((a + b)[i], id);
    }
    if i :| 0 <= i < |b| && StopsSession(b[i], id) {
      assert StopsSession((a + b)[|a| + i], id);
    }
    if i :| 0 <= i < |a| && RemovesSession(a[i], id) {
      assert RemovesSession((a + b)[i], id);
    }
    if i :| 0 <= i < |b| && RemovesSession(b[i], id) {
      assert RemovesSession((a + b)[|a| + i], id);
    }
  }

  lemma RenewalsJoin(w: E.Worker, lease: E.ExecutionLease, a: seq<Contact>, b: seq<Contact>)
    requires AllBehindRenewals(w, lease, a) && AllBehindRenewals(w, lease, b)
    ensures AllBehindRenewals(w, lease, a + b)
  {
  }

  /** `ids` are exactly the ids of the listed sessions of the execution, all of which have one. */
  predicate Reconciled(sessions: seq<SessionInfo>, execution: Uuid, ids: seq<string>) {
    && (forall s :: s in sessions && s.execution == Some(execution) ==> s.id.Some? && s.id.value in ids)
    && (forall id :: id in ids ==> SessionInfo(Some(id), Some(execution)) in sessions)
  }

  /** The sessions a clean-up has to stop: the one the row names, else every one OpenCode listed first thing. */
  predicate Covers(run: Run, ids: seq<string>, contacts: seq<Contact>) {
    if run.sessionId.Some? then ids == [run.sessionId.value]
    else contacts != [] && contacts[0].Listed? && Reconciled(contacts[0].sessions, run.id, ids)
  }

  /** What transactions of others may do to the rows between two of ours: the session is fixed once it is
      known, and only the holder of the current generation names it. */
  predicate OthersMay(u: Unit, v: Unit) {
    && (u.run.sessionId.Some? ==> v.run.sessionId == u.run.sessionId)
    && (v.run.leaseGeneration == u.run.leaseGeneration ==> v.run.sessionId == u.run.sessionId)
    && u.run.leaseGeneration <= v.run.leaseGeneration
  }

  /** Every transaction of the control plane machine but the naming of the session is of this kind. */
  lemma OthersDoNoMore(a: P.Action, u: Unit, payload: string, root: string, now: Time)
    requires Lifecycle.UnitInv(u, root) && u.run.backend.OpenCode? && P.Configured(a, root)
    requires a.ByWorker? ==> a.worker.leaseSeconds * SECOND >= 60 * SECOND && !a.execution.PersistSession?
    ensures OthersMay(u, P.Apply(a, u, payload, now).unit)
  {
    P.ActionIsSafe(a, u, payload, root, now);
    match a {
      case ByWorker(w, lease, op) => if !op.Dispatched? { D.ExecutionSteps(w, lease, op, u, payload, now); }
      case ByManager(c, ticket, op) => D.WorkspaceSteps(c, ticket, op, u, payload, now);
      case _ => D.OtherSteps(a, u, payload, now);
    }
    EvolvesAllows(u, P.Apply(a, u, payload, now).unit, now);
  }

  lemma EvolvesAllows(u: Unit, v: Unit, now: Time)
    requires Lifecycle.Evolves(u, v, now) && v.run.sessionId == u.run.sessionId
    ensures OthersMay(u, v)
  {
  }

  method OthersCommit(db: Session)
    modifies db
    ensures OthersMay(old(db.Rows()), db.Rows())
  {
    var rows: Unit := *;
    if OthersMay(db.Rows(), rows) {
      db.Rollback(rows);
    }
  }

  /** The sessions a clean-up has to stop. None on an OpenCode error, or when a listed session has no id. */
  method Reconcile(client: OpenCode, run: Run) returns (ids: Option<seq<string>>, ghost contacts: seq<Contact>)
    modifies client
    ensures client.log == old(client.log) + contacts
    ensures forall i :: 0 <= i < |contacts| ==> contacts[i].Listed?
    ensures ids.Some? ==> Covers(run, ids.value, contacts)
    ensures ids.None? ==>
              run.sessionId.None? &&
              (contacts == [] || exists s :: s in contacts[0].sessions && s.execution == Some(run.id) && s.id.None?)
  {
    contacts := [];
    if run.sessionId.Some? {
      return Some([run.sessionId.value]), contacts;
    }
    var listed := client.SessionsForExecution(run.id);
    if listed.None? {
      return None, contacts;
    }
    contacts := client.log[|old(client.log)|..];
    var found: seq<string> := [];
    for k := 0 to |listed.value|
      invariant forall i :: 0 <= i < k ==> listed.value[i].id.Some? && listed.value[i].id.value in found
      invariant forall id :: id in found ==> SessionInfo(Some(id), Some(run.id)) in listed.value
    {
      assert listed.value[k] in listed.value;
      if listed.value[k].id.None? {
        return None, contacts;
      }
      if listed.value[k].id.value !in found {
        found := found + [listed.value[k].id.value];
      }
    }
    return Some(found), contacts;
  }

  datatype Progress = AllStopped | LeaseLost | CallFailed

  /** Renew the lease, then abort, for each session in turn. */
  method AbortAll(manager: E.ExecutionLeaseManager, client: OpenCode, lease: E.ExecutionLease, ids: seq<string>,
                  db: Session, clock: Clock)
    returns (progress: Progress, ghost calls: seq<Contact>)
    modifies client, db, clock
    ensures client.log == old(client.log) + calls && AllBehindRenewals(manager.w, lease, calls)
    ensures progress.AllStopped? ==> forall id :: id in ids ==> Stopped(calls, id)
    ensures OthersMay(old(db.Rows()), db.Rows())
  {
    calls := [];
    for k := 0 to |ids|
      invariant client.log == old(client.log) + calls && AllBehindRenewals(manager.w, lease, calls)
      invariant forall i :: 0 <= i < k ==> Stopped(calls, ids[i])
      invariant OthersMay(old(db.Rows()), db.Rows())
    {
      var renewed, call, made := RenewAndAbort(manager, client, lease, ids[k], false, db, clock);
      forall i | 0 <= i < k ensures Stopped(calls + made, ids[i]) {
        StoppedGrows(calls, made, ids[i]);
      }
      RenewalsJoin(manager.w, lease, calls, made);
      StoppedGrows(calls, made, ids[k]);
      calls := calls + made;
      if !renewed {
        return LeaseLost, calls;
      }
      if call.Failed? {
        return CallFailed, calls;
      }
    }
    return AllStopped, calls;
  }

  /** One renewal in its own transaction, and the abort behind it. */
  method RenewAndAbort(manager: E.ExecutionLeaseManager, client: OpenCode, lease: E.ExecutionLease, id: string,
                       allowCancel: bool,
                       db: Session, clock: Clock)
    returns (renewed: bool, call: Call, ghost made: seq<Contact>)
    modifies client, db, clock
    ensures client.log == old(client.log) + made && AllBehindRenewals(manager.w, lease, made)
    ensures made == if renewed then [Called(AbortCall, id, call, db.run, clock.now)] else []
    ensures renewed && !call.Failed? ==> Stopped(made, id)
    ensures OthersMay(old(db.Rows()), db.Rows())
  {
    made, call := [], Call.Failed;
    OthersCommit(db);
    var now := clock.Read();
    var outcome := manager.Heartbeat(db, lease, allowCancel, now);
    renewed := outcome.Accepted?;
    if renewed {
      call := client.Abort(id, db, clock);
      made := [Called(AbortCall, id, call, db.run, clock.now)];
      assert !call.Failed? ==> StopsSession(made[0], id);
    }
  }

  /** `timeout_execution`. */
  method TimeoutExecution(manager: E.ExecutionLeaseManager, client: OpenCode, lease: E.ExecutionLease, db: Session,
                          clock: Clock, payload: string)
    returns (outcome: Outcome, aborted: seq<string>, ghost contacts: seq<Contact>)
    modifies client, db, clock
    ensures client.log == old(client.log) + contacts && AllBehindRenewals(manager.w, lease, contacts)
    ensures outcome.EndedTimedOut? ==>
              && db.run.status.Failed? && db.run.stage.TimedOut? && db.run.finishedAt == Some(clock.now)
              && Covers(old(db.run), aborted, contacts) && (forall id :: id in aborted ==> Stopped(contacts, id))
              && db.run.sessionId == old(db.run).sessionId
    ensures !outcome.EndedTimedOut? ==> outcome.Lost? || outcome.Continuing? || outcome.Raised?
  {
    aborted, contacts := [], [];
    var now := clock.Read();
    if !E.OwnedRun(manager.w, db.run, lease.generation, now) {
      return Lost, aborted, contacts;
    }
    ghost var read := db.Rows();
    var ids, listing := Reconcile(client, db.run);
    contacts := listing;
    var progress := CallFailed;
    if ids.Some? {
      ghost var calls;
      progress, calls := AbortAll(manager, client, lease, ids.value, db, clock);
      ContactsJoin(manager.w, lease, read.run, ids.value, listing, calls);
      contacts := listing + calls;
      if progress.LeaseLost? {
        return Lost, aborted, contacts;
      }
    }
    OthersCommit(db);
    assert OthersMay(read, db.Rows());
    now := clock.Read();
    if progress.CallFailed? {
      outcome := manager.AbortPending(db, lease, TimeoutAbortPending, now);
      return;
    }
    aborted := ids.value;
    ghost var before := db.Rows();
    outcome := manager.Aborted(db, lease, TimedOut, payload, EndedTimedOut, now);
    AbortedOnlyWhenOwned(manager.w, before, lease, TimedOut, payload, EndedTimedOut, now);
  }

  /** A listing and the calls behind it. */
  lemma ContactsJoin(w: E.Worker, lease: E.ExecutionLease, run: Run, ids: seq<string>, listing: seq<Contact>,
                     calls: seq<Contact>)
    requires Covers(run, ids, listing) && AllBehindRenewals(w, lease, calls) && forall i ::
             0 <= i < |listing| ==> listing[i].Listed?
    ensures Covers(run, ids, listing + calls) && AllBehindRenewals(w, lease, listing + calls)
    ensures forall id :: id in ids && Stopped(calls, id) ==> Stopped(listing + calls, id)
    ensures forall id :: id in ids && Removed(calls, id) ==> Removed(listing + calls, id)
  {
    forall id | id in ids
      ensures (Stopped(calls, id) ==> Stopped(listing + calls, id))
              && (Removed(calls, id) ==> Removed(listing + calls, id))
    {
      StoppedGrows(listing, calls, id);
    }
  }

  /** A run that `mark_timed_out` ends was still held under the same generation, and keeps its session. */
  lemma AbortedOnlyWhenOwned(w: E.Worker, u: Unit, lease: E.ExecutionLease, stage: Stage, payload: string,
                             reported: Outcome, now: Time)
    requires reported.EndedTimedOut? || reported.EndedStalled?
    ensures var tx := E.MarkAborted(w, u, lease, stage, payload, reported, now);
            if tx.outcome == reported then
              && E.OwnedRun(w, u.run, lease.generation, now) && tx.unit.run.sessionId == u.run.sessionId
              && tx.unit.run.status.Failed? && tx.unit.run.stage == stage && tx.unit.run.finishedAt == Some(now)
            else tx.outcome.Lost? || tx.outcome.Raised?
  {
  }

  /** Calls for the session `id` that begin like abort, delete, abort; each but the last was done, and none failed. */
  predicate InOrder(calls: seq<Contact>, id: string) {
    && 1 <= |calls| <= 3
    && (forall i :: 0 <= i < |calls| ==>
          && calls[i].Called? && calls[i].id == id && !calls[i].result.Failed?
          && calls[i].kind == if i == 1 then DeleteCall else AbortCall)
    && forall i :: 0 <= i < |calls| - 1 ==> calls[i].result.Done?
  }

  /** What stopping one session takes: one abort, or for a queued run all three calls unless one finds it missing. */
  predicate CleanedUp(calls: seq<Contact>, id: string, queued: bool) {
    && InOrder(calls, id)
    && (if queued then |calls| == 3 || calls[|calls| - 1].result.Missing? else |calls| == 1)
  }

  lemma CleanedUpStops(calls: seq<Contact>, id: string, queued: bool)
    requires CleanedUp(calls, id, queued)
    ensures Stopped(calls, id) && (queued ==> Removed(calls, id))
  {
    assert StopsSession(calls[0], id);
    if queued {
      assert RemovesSession(calls[if |calls| == 1 then 0 else 1], id);
    }
  }

  /** The clean-up of one session of a cancelled execution; a queued one may have an accepted prompt in
      flight, so it is aborted, deleted and aborted again. */
  method StopForCancel(manager: E.ExecutionLeaseManager, client: OpenCode, lease: E.ExecutionLease, id: string,
                       queued: bool, db: Session, clock: Clock)
    returns (progress: Progress, ghost calls: seq<Contact>)
    modifies client, db, clock
    ensures client.log == old(client.log) + calls && AllBehindRenewals(manager.w, lease, calls)
    ensures progress.AllStopped? ==> CleanedUp(calls, id, queued)
    ensures OthersMay(old(db.Rows()), db.Rows())
  {
    var renewed, call, made := RenewAndAbort(manager, client, lease, id, true, db, clock);
    calls := made;
    if !renewed {
      return LeaseLost, calls;
    }
    if call.Failed? {
      return CallFailed, calls;
    }
    if !queued || call.Missing? {
      return AllStopped, calls;
    }
    renewed, call, made := RenewAndDelete(manager, client, lease, id, db, clock);
    RenewalsJoin(manager.w, lease, calls, made);
    calls := calls + made;
    if !renewed {
      return LeaseLost, calls;
    }
    if call.Failed? {
      return CallFailed, calls;
    }
    if call.Missing? {
      return AllStopped, calls;
    }
    renewed, call, made := RenewAndAbort(manager, client, lease, id, true, db, clock);
    RenewalsJoin(manager.w, lease, calls, made);
    calls := calls + made;
    progress := if !renewed then LeaseLost else if call.Failed? then CallFailed else AllStopped;
  }

  method RenewAndDelete(manager: E.ExecutionLeaseManager, client: OpenCode, lease: E.ExecutionLease, id: string,
                        db: Session, clock: Clock)
    returns (renewed: bool, call: Call, ghost made: seq<Contact>)
    modifies client, db, clock
    ensures client.log == old(client.log) + made && AllBehindRenewals(manager.w, lease, made)
    ensures made == if renewed then [Called(DeleteCall, id, call, db.run, clock.now)] else []
    ensures OthersMay(old(db.Rows()), db.Rows())
  {
    made, call := [], Call.Failed;
    OthersCommit(db);
    var now := clock.Read();
    var outcome := manager.Heartbeat(db, lease, true, now);
    renewed := outcome.Accepted?;
    if renewed {
      call := client.DeleteSession(id, db, clock);
      made := [Called(DeleteCall, id, call, db.run, clock.now)];
    }
  }

  /** Stop each session in turn. */
  method StopAllForCancel(manager: E.ExecutionLeaseManager, client: OpenCode, lease: E.ExecutionLease, ids: seq<string>,
                          queued: bool,
                          db: Session, clock: Clock)
    returns (progress: Progress, ghost calls: seq<Contact>)
    modifies client, db, clock
    ensures client.log == old(client.log) + calls && AllBehindRenewals(manager.w, lease, calls)
    ensures progress.AllStopped? ==> forall id :: id in ids ==> Stopped(calls, id) && (queued ==> Removed(calls, id))
    ensures OthersMay(old(db.Rows()), db.Rows())
  {
    calls := [];
    for k := 0 to |ids|
      invariant client.log == old(client.log) + calls && AllBehindRenewals(manager.w, lease, calls)
      invariant forall i :: 0 <= i < k ==> Stopped(calls, ids[i]) && (queued ==> Removed(calls, ids[i]))
      invariant OthersMay(old(db.Rows()), db.Rows())
    {
      ghost var made;
      progress, made := StopForCancel(manager, client, lease, ids[k], queued, db, clock);
      forall i | 0 <= i < k ensures Stopped(calls + made, ids[i]) && (queued ==> Removed(calls + made, ids[i])) {
        StoppedGrows(calls, made, ids[i]);
      }
      RenewalsJoin(manager.w, lease, calls, made);
      if progress.AllStopped? {
        CleanedUpStops(made, ids[k], queued);
        StoppedGrows(calls, made, ids[k]);
      }
      calls := calls + made;
      if !progress.AllStopped? {
        return;
      }
    }
    return AllStopped, calls;
  }

  /** `cancel_execution`. */
  method CancelExecution(manager: E.ExecutionLeaseManager, client: OpenCode, lease: E.ExecutionLease, db: Session,
                         clock: Clock, payload: string)
    returns (outcome: Outcome, cleaned: seq<string>, ghost contacts: seq<Contact>)
    modifies client, db, clock
    ensures client.log == old(client.log) + contacts && AllBehindRenewals(manager.w, lease, contacts)
    ensures outcome.EndedCancelled? ==>
              && db.run.status.Cancelled? && Covers(old(db.run), cleaned, contacts)
              && (forall id :: id in cleaned ==> Stopped(contacts, id)
                                                 && (old(db.run).status.Queued? ==> Removed(contacts, id)))
              && db.run.sessionId == old(db.run).sessionId
    ensures !outcome.EndedCancelled? ==> outcome.Lost? || outcome.Continuing? || outcome.Raised?
  {
    cleaned, contacts := [], [];
    var now := clock.Read();
    if !E.OwnedRun(manager.w, db.run, lease.generation, now) || db.run.cancelRequestedAt.None? {
      return Lost, cleaned, contacts;
    }
    ghost var read := db.Rows();
    var queued := db.run.status.Queued?;
    var ids, listing := Reconcile(client, db.run);
    contacts := listing;
    var progress := CallFailed;
    if ids.Some? {
      ghost var calls;
      progress, calls := StopAllForCancel(manager, client, lease, ids.value, queued, db, clock);
      ContactsJoin(manager.w, lease, read.run, ids.value, listing, calls);
      contacts := listing + calls;
      if progress.LeaseLost? {
        return Lost, cleaned, contacts;
      }
    }
    OthersCommit(db);
    assert OthersMay(read, db.Rows());
    now := clock.Read();
    if progress.CallFailed? {
      outcome := manager.CancelPending(db, lease, now);
      return;
    }
    cleaned := ids.value;
    ghost var before := db.Rows();
    outcome := manager.CancelConfirmed(db, lease, payload, now);
    CancelledOnlyWhenOwned(manager.w, before, lease, payload, now);
  }

  lemma CancelledOnlyWhenOwned(w: E.Worker, u: Unit, lease: E.ExecutionLease, payload: string, now: Time)
    ensures var tx := E.MarkCancelled(w, u, lease, payload, now);
            if tx.outcome.EndedCancelled? then
              E.OwnedRun(w, u.run, lease.generation, now) && tx.unit.run.sessionId == u.run.sessionId
                  && tx.unit.run.status.Cancelled?
            else tx.outcome.Lost? || tx.outcome.Raised?
  {
  }

  // ---- Polling a running execution

  /** What one poll reads of OpenCode and of the workspace. A snapshot is None when the workspace fails
      its identity check. */
  datatype Reading = Reading(error: bool, idle: bool, result: string, message: Option<Text>, stalled: bool,
                             snapshot: Option<Text>, changed: bool)

  /** What the completion gate saw. */
  datatype Evidence = NoEvidence | CleanWorkspace(snapshot: Text)
    | SuccessfulCheckpoint(snapshot: Text, rows: seq<R.Job>)

  function Seen(reading: Reading): E.Observed {
    if reading.error then E.SessionError else if reading.idle then E.SessionIdle(reading.result) else E.SessionBusy
  }

  /** The outcome of `_prompt_running_with_repository_trust_gate` that lets the poll go on. */
  method PromptRunning(manager: E.ExecutionLeaseManager, lease: E.ExecutionLease, trusted: bool, delivered: bool,
                       stage: Stage,
                       db: Session, clock: Clock, payload: string)
    returns (outcome: Outcome)
    modifies db, clock
    ensures outcome.Accepted? || outcome.SawDeadline? || outcome.Lost? || outcome.Continuing? || outcome.EndedFailed?
            || outcome.Raised?
  {
    var now := clock.Read();
    if !E.OwnedRun(manager.w, db.run, lease.generation, now) || !db.run.status.Running?
        || db.run.cancelRequestedAt.Some? {
      return Lost;
    }
    if db.run.deadlineAt.Some? && db.run.deadlineAt.value <= now {
      return SawDeadline;
    }
    if !trusted {
      OthersCommit(db);
      now := clock.Read();
      outcome := manager.RunnerGateFailed(db, lease, "runner_trust_rejected", payload, now);
      return;
    }
    if !delivered {
      // The prompt raised: nothing is committed, and the poll ends in a heartbeat.
      now := clock.Read();
      outcome := manager.Heartbeat(db, lease, false, now);
      return if outcome.Accepted? then Continuing else Lost;
    }
    outcome := manager.RunContinued(db, lease, stage, now);
  }

  /** `_require_runner_validation_before_completion`: Accepted lets the run complete. `rows` are what the evidence
      query returns for the snapshot just computed, `prompted` whether the required-validation prompt exists. */
  method RequireRunnerValidation(manager: E.ExecutionLeaseManager, client: OpenCode, lease: E.ExecutionLease,
                                 reading: Reading, rows: seq<R.Job>,
                                 prompted: bool, answered: bool, trusted: bool, delivered: bool, db: Session,
                                     clock: Clock, payload: string)
    returns (outcome: Outcome, evidence: Evidence)
    modifies client, db, clock
    ensures outcome.Accepted? ==> reading.snapshot.Some? && db.Rows() == old(db.Rows())
    ensures outcome.Accepted? && reading.changed ==>
              evidence == SuccessfulCheckpoint(reading.snapshot.value, rows) && G.HasSuccess(rows)
    ensures outcome.Accepted? && !reading.changed ==> evidence == CleanWorkspace(reading.snapshot.value)
    ensures !outcome.EndedCompleted?
  {
    evidence := NoEvidence;
    if reading.snapshot.None? {
      var now := clock.Read();
      outcome := manager.RunnerGateFailed(db, lease, "runner_completion_rejected", payload, now);
      FailureNeverCompletes(manager.w, old(db.Rows()), lease, "runner_completion_rejected", payload, now);
      return;
    }
    if !reading.changed {
      return Accepted, CleanWorkspace(reading.snapshot.value);
    }
    var found := G.SnapshotHasSuccessfulCheckpoint(rows);
    if found {
      return Accepted, SuccessfulCheckpoint(reading.snapshot.value, rows);
    }
    var now := clock.Read();
    if reading.message.None? {
      outcome := manager.RunnerGateFailed(db, lease, "runner_completion_rejected", payload, now);
      FailureNeverCompletes(manager.w, old(db.Rows()), lease, "runner_completion_rejected", payload, now);
      return;
    }
    if prompted {
      if answered {
        outcome := manager.RunnerGateFailed(db, lease, "runner_validation_missing", payload, now);
        FailureNeverCompletes(manager.w, old(db.Rows()), lease, "runner_validation_missing", payload, now);
        return;
      }
      outcome := manager.Heartbeat(db, lease, false, now);
      outcome := if outcome.Accepted? then Continuing else Lost;
      return;
    }
    outcome := PromptRunning(manager, lease, trusted, delivered, Named("runner_required"), db, clock, payload);
    if outcome.SawDeadline? {
      var _, _, _ := TimeoutExecution(manager, client, lease, db, clock, payload);
    }
    outcome := if outcome.Accepted? then Continuing else outcome;
  }

  lemma FailureNeverCompletes(w: E.Worker, u: Unit, lease: E.ExecutionLease, code: string, payload: string, now: Time)
    ensures var outcome := E.FailRunnerGate(w, u, lease, code, payload, now).outcome;
            outcome.Lost? || outcome.EndedFailed? || outcome.Raised?
  {
  }

  /** The gate of this poll was passed for good reason: nothing changed, or for the snapshot just computed one
      checkpoint has all of its commands finished `completed` with exit code 0 and confirmed cleanup. */
  ghost predicate Backed(evidence: Evidence, reading: Reading, jobs: seq<R.Job>, execution: Text) {
    && reading.snapshot.Some?
    && if reading.changed then
         evidence.SuccessfulCheckpoint? && evidence.snapshot == reading.snapshot.value
         && exists g, message, commands :: S.FullySuccessful(jobs, execution, g, message, reading.snapshot.value,
                                                             commands)
       else evidence == CleanWorkspace(reading.snapshot.value)
  }

  /** `poll_execution` for a running contract-v2 execution, from what it read to the transaction it ends in. A poll
      that finds a checkpoint hands it to the gate and never completes the run. `jobs` is the job table as the
      evidence query saw it. */
  method PollRunning(manager: E.ExecutionLeaseManager, client: OpenCode, lease: E.ExecutionLease, cancelled: bool,
                     deadline: Option<Time>,
                     reading: Reading, rows: seq<R.Job>, prompted: bool, answered: bool, trusted: bool, delivered: bool,
                     ghost jobs: seq<R.Job>, ghost execution: Text, db: Session, clock: Clock, payload: string)
    returns (outcome: Outcome, evidence: Evidence)
    requires S.TableInv(jobs, execution) && (reading.snapshot.Some? ==> S.IsQuery(rows, jobs, reading.snapshot.value))
    modifies client, db, clock
    ensures outcome.EndedCompleted? ==>
              && db.run.status.Completed? && reading.idle && !IsBlank(reading.result)
              && C.Parse(T(reading.result)).Absent?
              && Backed(evidence, reading, jobs, execution)
              && (db.run.deadlineAt.Some? ==> db.run.finishedAt == Some(clock.now)
                                              && clock.now < db.run.deadlineAt.value)
  {
    evidence := NoEvidence;
    if cancelled {
      var stopped, _, _ := CancelExecution(manager, client, lease, db, clock, payload);
      return stopped, evidence;
    }
    var now := clock.Read();
    if deadline.Some? && deadline.value <= now {
      var late, _, _ := TimeoutExecution(manager, client, lease, db, clock, payload);
      return late, evidence;
    }
    if reading.stalled {
      var stalled, _ := StallExecution(manager, client, lease, db, clock, payload);
      return stalled, evidence;
    }
    OthersCommit(db);
    now := clock.Read();
    if deadline.Some? && deadline.value <= now {
      var late, _, _ := TimeoutExecution(manager, client, lease, db, clock, payload);
      return late, evidence;
    }
    if reading.idle && !IsBlank(reading.result) {
      var checkpoint := C.ParseRunnerCheckpoint(T(reading.result));
      if !checkpoint.Absent? {
        outcome := CheckpointTurn(manager, lease, checkpoint, db, clock, payload);
        return;
      }
      var gate;
      gate, evidence := RequireRunnerValidation(manager, client, lease, reading, rows, prompted, answered, trusted,
                                                delivered, db, clock, payload);
      if !gate.Accepted? {
        return gate, evidence;
      }
      S.EvidenceIsReal(jobs, rows, execution, reading.snapshot.value);
      assert Backed(evidence, reading, jobs, execution);
    }
    OthersCommit(db);
    now := clock.Read();
    ghost var before := db.Rows();
    outcome := manager.Observe(db, lease, Seen(reading), payload, now);
    CompletedOnlyBeforeDeadline(manager.w, before, lease, Seen(reading), payload, now);
    if outcome.SawCancel? {
      var stopped, _, _ := CancelExecution(manager, client, lease, db, clock, payload);
      return stopped, evidence;
    }
    if outcome.SawDeadline? {
      var late, _, _ := TimeoutExecution(manager, client, lease, db, clock, payload);
      return late, evidence;
    }
  }

  lemma CompletedOnlyBeforeDeadline(w: E.Worker, u: Unit, lease: E.ExecutionLease, seen: E.Observed, payload: string,
                                    now: Time)
    ensures var tx := E.ApplyObservation(w, u, lease, seen, payload, now);
            tx.outcome.EndedCompleted? ==>
              && tx.unit.run.status.Completed? && seen.SessionIdle? && !IsBlank(seen.result)
              && tx.unit.run.finishedAt == Some(now)
              && (tx.unit.run.deadlineAt.Some? ==> now < tx.unit.run.deadlineAt.value)
  {
  }

  /** `stall_execution`. */
  method StallExecution(manager: E.ExecutionLeaseManager, client: OpenCode, lease: E.ExecutionLease, db: Session,
                        clock: Clock, payload: string)
    returns (outcome: Outcome, ghost calls: seq<Contact>)
    modifies client, db, clock
    ensures client.log == old(client.log) + calls && AllBehindRenewals(manager.w, lease, calls)
    ensures outcome.EndedStalled? ==> old(db.run).sessionId.Some? && Stopped(calls, old(db.run).sessionId.value)
    ensures !outcome.EndedStalled? ==> outcome.Lost? || outcome.Continuing? || outcome.Raised?
  {
    var session := db.run.sessionId;
    calls := [];
    if session.None? {
      return Lost, calls;
    }
    var progress;
    progress, calls := AbortAll(manager, client, lease, [session.value], db, clock);
    if progress.LeaseLost? {
      return Lost, calls;
    }
    OthersCommit(db);
    var now := clock.Read();
    if progress.CallFailed? {
      outcome := manager.AbortPending(db, lease, StalledToolAbortPending, now);
      return;
    }
    assert session.value in [session.value];
    ghost var before := db.Rows();
    outcome := manager.Aborted(db, lease, StalledTool, payload, EndedStalled, now);
    AbortedOnlyWhenOwned(manager.w, before, lease, StalledTool, payload, EndedStalled, now);
  }

  /** A result that is, or tries to be, a checkpoint: the gate takes it, or the run fails. */
  method CheckpointTurn(manager: E.ExecutionLeaseManager, lease: E.ExecutionLease,
                        checkpoint: C.Outcome<seq<C.Command>>, db: Session, clock: Clock, payload: string)
    returns (outcome: Outcome)
    modifies db, clock
    ensures !outcome.EndedCompleted?
  {
    var now := clock.Read();
    match checkpoint
    case Uncaught(error) =>
      // The poll dies; the lease runs out.
      return Raised(error);
    case Refused(_) =>
      ghost var before := db.Rows();
      outcome := manager.RunnerGateFailed(db, lease, "runner_checkpoint_rejected", payload, now);
      FailureNeverCompletes(manager.w, before, lease, "runner_checkpoint_rejected", payload, now);
    case _ =>
      outcome := manager.RunContinued(db, lease, RunnerValidation, now);
      return if outcome.Accepted? then Continuing else Lost;
  }
}
