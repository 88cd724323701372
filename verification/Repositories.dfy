/** `repository_manager.py` and the repository endpoints of `main.py`: the leased synchronization of a repository. */
module Repositories {
  import opened Prelude

  datatype RepoStatus = PendingValidation | Validating | RepoReady | RepoUnavailable | RepoInvalid

  datatype Tier = GeneralStandard | GeneralHighAssurance | RegulatedCritical

  /** A `repositories` row. */
  datatype Repository = Repository(
    enabled: bool, status: RepoStatus, defaultBranch: Option<string>, lastKnownCommit: Option<string>,
        authProfile: Option<string>,
    tier: Tier, profile: Option<string>, lastFetchedAt: Option<Time>, generation: nat, failureCount: nat, version: nat,
    requestedAt: Option<Time>, startedAt: Option<Time>, finishedAt: Option<Time>, nextAt: Option<Time>,
    owner: Option<string>, expiresAt: Option<Time>, lastError: Option<string>)

  datatype Syncer = Syncer(id: string, leaseSeconds: nat, refreshSeconds: nat, retryBase: nat, retryMax: nat)

  datatype SyncLease = SyncLease(generation: nat, version: nat)

  datatype SyncResult = SyncResult(branch: string, commit: string)

  /** What the synchronization guarantees of its result. */
  predicate WellFormed(r: SyncResult) {
    1 <= |r.branch| <= 255 && IsCommit(r.commit)
  }

  /** The fields a manager update sets; None leaves a field alone. */
  datatype Update = Update(auth: Option<Option<string>>, enabled: Option<bool>, tier: Option<Tier>,
                           profile: Option<Option<string>>)

  /** What is found where the mirror of a ready repository should be. */
  datatype Mirror = Present | MirrorMissing(code: string) | MirrorBroken(code: string)

  datatype RepoOutcome = RepoClaimed(lease: SyncLease) | NotDue | RepoLost | RepoAccepted | Unchanged
    | RepoConflict(code: int)

  datatype RepoTx = RepoTx(repo: Repository, outcome: RepoOutcome)

  function LeaseEnd(s: Syncer, now: Time): Time {
    now + s.leaseSeconds * SECOND
  }

  predicate Due(r: Repository, now: Time) {
    r.enabled && r.nextAt.Some? && r.nextAt.value <= now && (r.expiresAt.None? || r.expiresAt.value <= now)
  }

  /** `claim_available`, for one row. */
  function Claim(s: Syncer, r: Repository, now: Time): RepoTx {
    if !Due(r, now) then RepoTx(r, NotDue)
    else RepoTx(r.(generation := r.generation + 1, owner := Some(s.id), expiresAt := Some(LeaseEnd(s, now)),
                   startedAt := Some(now),
                   status := Validating, version := r.version + 1),
                RepoClaimed(SyncLease(r.generation + 1, r.version + 1)))
  }

  /** `_locked_owned_repository`. */
  predicate Owned(s: Syncer, r: Repository, lease: SyncLease, now: Time) {
    && r.enabled && r.status.Validating? && r.version == lease.version && r.owner == Some(s.id)
    && r.generation == lease.generation
    && r.expiresAt.Some? && r.expiresAt.value > now
  }

  function Heartbeat(s: Syncer, r: Repository, lease: SyncLease, now: Time): RepoTx {
    if !Owned(s, r, lease, now) then RepoTx(r, RepoLost)
      else RepoTx(r.(expiresAt := Some(LeaseEnd(s, now))), RepoAccepted)
  }

  function MarkSuccess(s: Syncer, r: Repository, lease: SyncLease, result: SyncResult, now: Time): RepoTx {
    if !Owned(s, r, lease, now) then RepoTx(r, RepoLost)
    else RepoTx(r.(status := RepoReady, defaultBranch := Some(result.branch), lastKnownCommit := Some(result.commit),
                   lastFetchedAt := Some(now),
                   finishedAt := Some(now), nextAt := Some(now + s.refreshSeconds * SECOND), owner := None,
                       expiresAt := None,
                   failureCount := 0, lastError := None, version := r.version + 1), RepoAccepted)
  }

  function MarkFailure(s: Syncer, r: Repository, lease: SyncLease, code: string, terminal: bool, now: Time): RepoTx {
    if !Owned(s, r, lease, now) then RepoTx(r, RepoLost)
    else
      var retry := now + Backoff(s.retryBase, s.retryMax, r.failureCount, 20) * SECOND;
      RepoTx(r.(failureCount := r.failureCount + 1, status := if terminal then RepoInvalid
                                                                else RepoUnavailable, finishedAt := Some(now),
                owner := None, expiresAt := None, lastError := Some(code), nextAt :=
                    if terminal then None else Some(retry),
                version := r.version + 1), RepoAccepted)
  }

  /** `reconcile_mirror_cache`, for one row. */
  function Reconcile(r: Repository, mirror: Mirror, now: Time): RepoTx {
    if !r.enabled || !r.status.RepoReady? || mirror.Present? then RepoTx(r, Unchanged)
    else RepoTx(r.(status := if mirror.MirrorMissing? then PendingValidation else RepoInvalid, requestedAt := Some(now),
                   nextAt := if mirror.MirrorMissing? then Some(now) else None, owner := None, expiresAt := None,
                   lastError := Some(mirror.code), version := r.version + 1), RepoAccepted)
  }

  /** `validate_assurance_configuration`, with the length `normalize_profile_reference` allows. */
  predicate AssuranceFits(tier: Tier, profile: Option<string>) {
    if tier.RegulatedCritical? then profile.Some? && 1 <= |profile.value| <= 80 else profile.None?
  }

  function Edited(r: Repository, u: Update): Repository {
    r.(authProfile := if u.auth.Some? then u.auth.value else r.authProfile, enabled :=
         if u.enabled.Some? then u.enabled.value else r.enabled,
       tier := if u.tier.Some? then u.tier.value else r.tier, profile := if u.profile.Some? then u.profile.value
                                                                           else r.profile)
  }

  /** `update_repository`, for a row that exists. */
  function Edit(r: Repository, expectedVersion: int, u: Update, now: Time): RepoTx {
    if r.version != expectedVersion then RepoTx(r, RepoConflict(409))
    else if !AssuranceFits(Edited(r, u).tier, Edited(r, u).profile) then RepoTx(r, RepoConflict(422))
    else if Edited(r, u) == r then RepoTx(r, Unchanged)
    else
      var e := Edited(r, u).(version := r.version + 1);
      RepoTx(if e.authProfile == r.authProfile && e.enabled == r.enabled then e
             else e.(status := PendingValidation, requestedAt := Some(now), nextAt :=
                       if e.enabled then Some(now) else None, lastError := None),
             RepoAccepted)
  }

  /** `request_repository_validation`, for a row that exists. */
  function RequestValidation(r: Repository, expectedVersion: int, now: Time): RepoTx {
    if r.version != expectedVersion || !r.enabled then RepoTx(r, RepoConflict(409))
    else RepoTx(r.(status := PendingValidation, requestedAt := Some(now), nextAt := Some(now), lastError := None,
                   version := r.version + 1), RepoAccepted)
  }

  /** The row `create_repository` inserts. */
  function Registered(enabled: bool, auth: Option<string>, tier: Tier, profile: Option<string>, now: Time): Repository {
    Repository(enabled, PendingValidation, None, None, auth, tier, profile, None, 0, 0, 1, Some(now), None, None,
               if enabled then Some(now) else None, None, None, None)
  }

  /** The transaction of one locked repository row. */
  class RepositorySession {
    var repo: Repository

    constructor (row: Repository)
      ensures repo == row
    {
      repo := row;
    }
  }

  class RepositoryLeaseManager {
    const s: Syncer

    constructor (syncer: Syncer)
      ensures s == syncer
    {
      s := syncer;
    }

    method ClaimRow(db: RepositorySession, now: Time) returns (outcome: RepoOutcome)
      modifies db
      ensures RepoTx(db.repo, outcome) == Claim(s, old(db.repo), now)
    {
      if !Due(db.repo, now) {
        return NotDue;
      }
      var previousGeneration := db.repo.generation;
      db.repo := db.repo.(generation := previousGeneration + 1, owner := Some(s.id),
                          expiresAt := Some(LeaseEnd(s, now)));
      db.repo := db.repo.(startedAt := Some(now), status := Validating, version := db.repo.version + 1);
      return RepoClaimed(SyncLease(db.repo.generation, db.repo.version));
    }

    /** `claim_available` over the rows the query locked. */
    method ClaimAvailable(rows: seq<RepositorySession>, now: Time) returns (outcomes: seq<RepoOutcome>)
      requires forall i, j :: 0 <= i < j < |rows| ==> rows[i] != rows[j]
      modifies rows
      ensures |outcomes| == |rows|
      ensures forall i :: 0 <= i < |rows| ==> RepoTx(rows[i].repo, outcomes[i]) == Claim(s, old(rows[i].repo), now)
    {
      outcomes := [];
      ghost var before := seq(|rows|, i requires 0 <= i < |rows| reads rows => rows[i].repo);
      for k := 0 to |rows|
        invariant |outcomes| == k
        invariant forall i :: 0 <= i < k ==> RepoTx(rows[i].repo, outcomes[i]) == Claim(s, before[i], now)
        invariant forall i :: k <= i < |rows| ==> rows[i].repo == before[i]
      {
        var outcome := ClaimRow(rows[k], now);
        outcomes := outcomes + [outcome];
      }
    }

    method Renew(db: RepositorySession, lease: SyncLease, now: Time) returns (outcome: RepoOutcome)
      modifies db
      ensures RepoTx(db.repo, outcome) == Heartbeat(s, old(db.repo), lease, now)
    {
      if !Owned(s, db.repo, lease, now) {
        return RepoLost;
      }
      db.repo := db.repo.(expiresAt := Some(LeaseEnd(s, now)));
      return RepoAccepted;
    }

    method Succeeded(db: RepositorySession, lease: SyncLease, result: SyncResult, now: Time)
        returns (outcome: RepoOutcome)
      modifies db
      ensures RepoTx(db.repo, outcome) == MarkSuccess(s, old(db.repo), lease, result, now)
    {
      if !Owned(s, db.repo, lease, now) {
        return RepoLost;
      }
      db.repo := db.repo.(status := RepoReady, defaultBranch := Some(result.branch),
                          lastKnownCommit := Some(result.commit));
      db.repo := db.repo.(lastFetchedAt := Some(now), finishedAt := Some(now),
                          nextAt := Some(now + s.refreshSeconds * SECOND));
      db.repo := db.repo.(owner := None, expiresAt := None, failureCount := 0, lastError := None,
                          version := db.repo.version + 1);
      return RepoAccepted;
    }

    method FailedSync(db: RepositorySession, lease: SyncLease, code: string, terminal: bool, now: Time)
        returns (outcome: RepoOutcome)
      modifies db
      ensures RepoTx(db.repo, outcome) == MarkFailure(s, old(db.repo), lease, code, terminal, now)
    {
      if !Owned(s, db.repo, lease, now) {
        return RepoLost;
      }
      db.repo := db.repo.(failureCount := db.repo.failureCount + 1, status := if terminal then RepoInvalid
                                                                                else RepoUnavailable);
      db.repo := db.repo.(finishedAt := Some(now), owner := None, expiresAt := None, lastError := Some(code));
      if terminal {
        db.repo := db.repo.(nextAt := None);
      } else {
        var delay := Backoff(s.retryBase, s.retryMax, db.repo.failureCount - 1, 20);
        db.repo := db.repo.(nextAt := Some(now + delay * SECOND));
      }
      db.repo := db.repo.(version := db.repo.version + 1);
      return RepoAccepted;
    }
  }

  /** How many of the first `n` rows lose their readiness. */
  function Revoked(before: seq<Repository>, mirrors: seq<Mirror>, n: nat, now: Time): nat
    requires n <= |before| == |mirrors|
  {
    if n == 0 then 0
    else Revoked(before, mirrors, n - 1, now) + if Reconcile(before[n - 1], mirrors[n - 1], now).outcome.RepoAccepted?
                                                  then 1 else 0
  }

  /** `reconcile_mirror_cache` over the locked rows `before`; `mirrors[i]` is what is found for `rows[i]`. */
  method ReconcileMirrorCache(rows: seq<RepositorySession>, mirrors: seq<Mirror>, now: Time,
                              ghost before: seq<Repository>)
    returns (changed: nat)
    requires |mirrors| == |rows| == |before| && forall i :: 0 <= i < |rows| ==> rows[i].repo == before[i]
    requires forall i, j :: 0 <= i < j < |rows| ==> rows[i] != rows[j]
    modifies rows
    ensures forall i :: 0 <= i < |rows| ==> rows[i].repo == Reconcile(before[i], mirrors[i], now).repo
    ensures changed == Revoked(before, mirrors, |rows|, now)
  {
    changed := 0;
    for k := 0 to |rows|
      invariant changed == Revoked(before, mirrors, k, now)
      invariant forall i :: 0 <= i < k ==> rows[i].repo == Reconcile(before[i], mirrors[i], now).repo
      invariant forall i :: k <= i < |rows| ==> rows[i].repo == before[i]
    {
      var db := rows[k];
      if db.repo.enabled && db.repo.status.RepoReady? && !mirrors[k].Present? {
        var missing := mirrors[k].MirrorMissing?;
        db.repo := db.repo.(status := if missing then PendingValidation else RepoInvalid, requestedAt := Some(now));
        db.repo := db.repo.(nextAt := if missing then Some(now) else None, owner := None, expiresAt := None);
        db.repo := db.repo.(lastError := Some(mirrors[k].code), version := db.repo.version + 1);
        changed := changed + 1;
      }
    }
  }

  /** `update_repository`. */
  method UpdateRepository(db: RepositorySession, expectedVersion: int, u: Update, now: Time)
      returns (outcome: RepoOutcome)
    modifies db
    ensures RepoTx(db.repo, outcome) == Edit(old(db.repo), expectedVersion, u, now)
  {
    if db.repo.version != expectedVersion {
      return RepoConflict(409);
    }
    var nextTier := if u.tier.Some? then u.tier.value else db.repo.tier;
    var nextProfile := if u.profile.Some? then u.profile.value else db.repo.profile;
    if !AssuranceFits(nextTier, nextProfile) {
      return RepoConflict(422);
    }
    var before := db.repo;
    if u.auth.Some? {
      db.repo := db.repo.(authProfile := u.auth.value);
    }
    if u.enabled.Some? {
      db.repo := db.repo.(enabled := u.enabled.value);
    }
    db.repo := db.repo.(tier := nextTier, profile := nextProfile);
    if db.repo == before {
      return Unchanged;
    }
    db.repo := db.repo.(version := db.repo.version + 1);
    if db.repo.authProfile != before.authProfile || db.repo.enabled != before.enabled {
      db.repo := db.repo.(status := PendingValidation, requestedAt := Some(now));
      db.repo := db.repo.(nextAt := if db.repo.enabled then Some(now) else None, lastError := None);
    }
    return RepoAccepted;
  }

  /** `request_repository_validation`. */
  method RequestRepositoryValidation(db: RepositorySession, expectedVersion: int, now: Time)
      returns (outcome: RepoOutcome)
    modifies db
    ensures RepoTx(db.repo, outcome) == RequestValidation(old(db.repo), expectedVersion, now)
  {
    if db.repo.version != expectedVersion {
      return RepoConflict(409);
    }
    if !db.repo.enabled {
      return RepoConflict(409);
    }
    db.repo := db.repo.(status := PendingValidation, requestedAt := Some(now));
    db.repo := db.repo.(nextAt := Some(now), lastError := None, version := db.repo.version + 1);
    return RepoAccepted;
  }
}
