/** Fencing and constraints of repository rows over any interleaving of claims, heartbeats, expiries,
    manager edits and mirror reconciliations. */
module RepositorySafety {
  import opened Prelude
  import opened Fencing
  import opened Repositories

  /** Every `ck_repositories_*` constraint on the modelled columns. */
  ghost predicate CkRepository(r: Repository) {
    && r.version >= 1
    && AssuranceFits(r.tier, r.profile)
    && (r.owner.Some? <==> r.expiresAt.Some?)
    && (r.status.RepoReady? ==>
          && r.enabled && r.defaultBranch.Some? && 1 <= |r.defaultBranch.value| <= 255
          && r.lastKnownCommit.Some? && IsCommit(r.lastKnownCommit.value)
          && r.lastFetchedAt.Some? && r.finishedAt.Some? && r.nextAt.Some? && r.owner.None? && r.lastError.None?
          && r.failureCount == 0)
    && (r.status.Validating? ==> r.enabled && r.startedAt.Some? && r.owner.Some?)
  }

  function RepoLease(r: Repository): Leased {
    Leased(r.enabled && r.status.Validating?, 0, r.owner, r.generation, r.version, r.expiresAt)
  }

  function RepoTicket(s: Syncer, lease: SyncLease): Ticket {
    Ticket(0, s.id, lease.generation, lease.version)
  }

  lemma OwnershipIsPassing(s: Syncer, r: Repository, lease: SyncLease, now: Time)
    ensures Owned(s, r, lease, now) <==> Passes(RepoLease(r), RepoTicket(s, lease), now)
  {
  }

  datatype RepoEvent =
    | ClaimedBy(syncer: Syncer)
    | RenewedBy(syncer: Syncer, lease: SyncLease)
    | SucceededFor(syncer: Syncer, lease: SyncLease, result: SyncResult)
    | FailedFor(syncer: Syncer, lease: SyncLease, code: string, terminal: bool)
    | Reconciled(mirror: Mirror)
    | EditedBy(expectedVersion: int, update: Update)
    | ValidationAsked(expectedVersion: int)

  /** A reported success carries what the synchronization guarantees. */
  predicate Honest(e: RepoEvent) {
    e.SucceededFor? ==> WellFormed(e.result)
  }

  function ApplyRepo(e: RepoEvent, r: Repository, now: Time): RepoTx {
    match e
    case ClaimedBy(s) => Claim(s, r, now)
    case RenewedBy(s, lease) => Heartbeat(s, r, lease, now)
    case SucceededFor(s, lease, result) => MarkSuccess(s, r, lease, result, now)
    case FailedFor(s, lease, code, terminal) => MarkFailure(s, r, lease, code, terminal, now)
    case Reconciled(mirror) => Reconcile(r, mirror, now)
    case EditedBy(expectedVersion, update) => Edit(r, expectedVersion, update, now)
    case ValidationAsked(expectedVersion) => RequestValidation(r, expectedVersion, now)
  }

  /** One transaction: constraints and fencing are kept, only a heartbeat leaves the version of a changed row alone, and
      only a synchronization under a live lease makes a repository ready. */
  lemma RepoEventKeeps(e: RepoEvent, r: Repository, now: Time)
    requires CkRepository(r) && Honest(e)
    ensures var r' := ApplyRepo(e, r, now).repo;
            && CkRepository(r') && FencedStep(RepoLease(r), RepoLease(r'), now)
            && (r' != r && !e.RenewedBy? ==> r'.version == r.version + 1)
            && (r'.status.RepoReady? && !r.status.RepoReady? ==> e.SucceededFor? && Owned(e.syncer, r, e.lease, now))
  {
  }

  ghost predicate RepoHistory(rows: seq<Repository>, events: seq<RepoEvent>, times: seq<Time>) {
    && |rows| == |events| + 1 == |times| + 1
    && (exists enabled, auth, tier, profile, at :: AssuranceFits(tier, profile)
                                                   && rows[0] == Registered(enabled, auth, tier, profile, at))
    && (forall i :: 0 <= i < |events| ==> Honest(events[i])
                                          && rows[i + 1] == ApplyRepo(events[i], rows[i], times[i]).repo)
    && (forall i, j :: 0 <= i <= j < |times| ==> times[i] <= times[j])
  }

  lemma {:induction false} ReachableRepositories(rows: seq<Repository>, events: seq<RepoEvent>, times: seq<Time>,
                                                 i: nat)
    requires RepoHistory(rows, events, times) && i < |rows|
    ensures CkRepository(rows[i])
  {
    if i > 0 {
      ReachableRepositories(rows, events, times, i - 1);
      RepoEventKeeps(events[i - 1], rows[i - 1], times[i - 1]);
    }
  }

  lemma EventIsFenced(rows: seq<Repository>, events: seq<RepoEvent>, times: seq<Time>, k: nat)
    requires RepoHistory(rows, events, times) && k < |events|
    ensures FencedStep(RepoLease(rows[k]), RepoLease(rows[k + 1]), times[k])
  {
    ReachableRepositories(rows, events, times, k);
    RepoEventKeeps(events[k], rows[k], times[k]);
  }

  lemma {:induction false} RowsMoveForward(rows: seq<Repository>, events: seq<RepoEvent>, times: seq<Time>, i: nat,
                                           j: nat)
    requires RepoHistory(rows, events, times) && i <= j < |rows|
    ensures rows[i].generation <= rows[j].generation && rows[i].version <= rows[j].version
  {
    if i < j {
      RowsMoveForward(rows, events, times, i, j - 1);
      EventIsFenced(rows, events, times, j - 1);
    }
  }

  /** A synchronization lease that has failed the ownership check fails it ever after, and whatever its holder still
      reports leaves the row as it is. */
  lemma {:induction false} DeadSyncLeaseIsPowerless(rows: seq<Repository>, events: seq<RepoEvent>, times: seq<Time>,
                                                    i: nat, j: nat, s: Syncer,
                                                    lease: SyncLease, before: Time, later: Time, result: SyncResult,
                                                        code: string, terminal: bool)
    requires RepoHistory(rows, events, times) && i <= j < |rows|
    requires lease.generation <= rows[i].generation && lease.version <= rows[i].version
             && !Owned(s, rows[i], lease, before)
    requires before <= later && forall k :: i <= k < j ==> before <= times[k] <= later
    ensures lease.generation <= rows[j].generation && lease.version <= rows[j].version
            && !Owned(s, rows[j], lease, later)
    ensures Heartbeat(s, rows[j], lease, later).repo == rows[j]
            && MarkSuccess(s, rows[j], lease, result, later).repo == rows[j]
    ensures MarkFailure(s, rows[j], lease, code, terminal, later).repo == rows[j]
    decreases j
  {
    if i < j {
      DeadSyncLeaseIsPowerless(rows, events, times, i, j - 1, s, lease, before, times[j - 1], result, code, terminal);
      ReachableRepositories(rows, events, times, j - 1);
      RepoEventKeeps(events[j - 1], rows[j - 1], times[j - 1]);
      DeadTicketStaysDead(RepoLease(rows[j - 1]), RepoLease(rows[j]), RepoTicket(s, lease), times[j - 1], times[j - 1],
                          later);
    }
  }

  /** A manager edit or validation request that changes the row kills every lease handed out before it, at once. */
  lemma EditsKillLeases(rows: seq<Repository>, events: seq<RepoEvent>, times: seq<Time>, i: nat, s: Syncer,
                        lease: SyncLease, later: Time)
    requires RepoHistory(rows, events, times) && i < |events| && (events[i].EditedBy? || events[i].ValidationAsked?)
    requires rows[i + 1] != rows[i] && lease.version <= rows[i].version
    ensures !Owned(s, rows[i + 1], lease, later)
  {
    ReachableRepositories(rows, events, times, i);
    RepoEventKeeps(events[i], rows[i], times[i]);
  }

  /** A synchronization lease just handed out passes the ownership check exactly until it expires. */
  lemma FreshSyncLeasePasses(s: Syncer, r: Repository, now: Time, later: Time)
    requires Claim(s, r, now).outcome.RepoClaimed?
    ensures Owned(s, Claim(s, r, now).repo, Claim(s, r, now).outcome.lease, later)
            <==> later < now + s.leaseSeconds * SECOND
  {
  }

  lemma RepoClaimIsFresh(e: RepoEvent, r: Repository, now: Time)
    requires ApplyRepo(e, r, now).outcome.RepoClaimed?
    ensures ApplyRepo(e, r, now).outcome.lease.generation == r.generation + 1 == ApplyRepo(e, r, now).repo.generation
  {
  }

  /** Two claims of one repository hand out leases of which at most one passes the ownership check, in any state. */
  lemma SyncLeasesNeverOverlap(rows: seq<Repository>, events: seq<RepoEvent>, times: seq<Time>, i: nat, j: nat,
                               s: Syncer, t: Syncer, row: Repository, now: Time)
    requires RepoHistory(rows, events, times) && i < j < |events|
    requires ApplyRepo(events[i], rows[i], times[i]).outcome.RepoClaimed?
             && ApplyRepo(events[j], rows[j], times[j]).outcome.RepoClaimed?
    ensures var a, b := ApplyRepo(events[i], rows[i], times[i]).outcome.lease,
            ApplyRepo(events[j], rows[j], times[j]).outcome.lease;
            !(Owned(s, row, a, now) && Owned(t, row, b, now))
  {
    RepoClaimIsFresh(events[i], rows[i], times[i]);
    RepoClaimIsFresh(events[j], rows[j], times[j]);
    RowsMoveForward(rows, events, times, i + 1, j);
  }
}
