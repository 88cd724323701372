/** What every transaction on a runner job keeps, for arbitrary broker responses, and what a job can
    never do again once it is over. */
module RunnerJobSafety {
  import opened Prelude
  import opened Json
  import opened Fencing
  import opened RunnerJobs

  ghost predicate CkImage(job: Job) {
    job.imageId.Some? ==> |job.imageId.value| == 71
  }

  /** The `ck_runner_jobs_*` constraints on the columns the queue writes, apart from `ck_runner_jobs_image_id`. */
  ghost predicate CkJob(job: Job) {
    && (job.owner.Some? <==> job.expiresAt.Some?)
    && (job.status.JobRunning? <==> job.owner.Some?)
    && (job.status.JobQueued? <==> job.nextAttemptAt.Some?)
    && (Over(job.status) <==> job.finishedAt.Some?)
    && (job.status.JobCompleted? || job.status.JobFailed? || job.status.JobTimedOut?
        ==> job.cleanup == Some(true) && job.imageId.Some?)
    && (job.status.JobUncertain? ==> job.cleanup == Some(false))
    && (job.status.JobRejected? ==> job.cleanup == Some(true))
    && (!Over(job.status) ==> job.cleanup.None?)
    && (job.status.JobCompleted? || job.status.JobFailed? ==> job.exitCode.Some?)
    && (!Over(job.status) || job.status.JobTimedOut? || job.status.JobRejected? ==> job.exitCode.None?)
  }

  /** The invariant of a job row: a job that is not over carries no result yet, and a completed one is proven so. */
  ghost predicate JobInv(job: Job) {
    && CkJob(job)
    && (!Over(job.status) ==> job.imageId.None?)
    && (job.status.JobCompleted? ==> job.exitCode == Some(0) && IsImageId(job.imageId.value))
    && (job.status.JobFailed? ==> job.exitCode != Some(0) && IsImageId(job.imageId.value))
    && (job.status.JobTimedOut? ==> IsImageId(job.imageId.value))
  }

  function JobLease(job: Job): Leased {
    Leased(job.status.JobRunning?, 0, job.owner, job.generation, 0, job.expiresAt)
  }

  /** What one transaction at `now` may do to a job: a job that is over stays as it is. */
  ghost predicate JobStep(job: Job, job': Job, now: Time) {
    && (Over(job.status) ==> job' == job)
    && FencedStep(JobLease(job), JobLease(job'), now)
    && job' == job.(status := job'.status, imageId := job'.imageId, exitCode := job'.exitCode, stdout := job'.stdout,
                    stderr := job'.stderr,
                    truncated := job'.truncated, cleanup := job'.cleanup, owner := job'.owner,
                        generation := job'.generation,
                    heartbeatAt := job'.heartbeatAt, expiresAt := job'.expiresAt, nextAttemptAt := job'.nextAttemptAt,
                    failureCount := job'.failureCount, lastError := job'.lastError, startedAt := job'.startedAt,
                        finishedAt := job'.finishedAt)
  }

  ghost predicate Keeps(job: Job, tx: JobTx, now: Time) {
    JobInv(tx.job) && JobStep(job, tx.job, now)
  }

  lemma ClaimKeeps(m: Manager, job: Job, now: Time)
    requires JobInv(job)
    ensures Keeps(job, Claim(m, job, now), now)
    ensures var tx := Claim(m, job, now); tx.outcome.JobClaimed?
                                          ==> tx.outcome.generation == job.generation + 1 == tx.job.generation
  {
  }

  lemma AuthorizeKeeps(m: Manager, job: Job, generation: nat, facts: Facts, now: Time)
    requires JobInv(job)
    ensures Keeps(job, Authorize(m, job, generation, facts, now), now)
  {
  }

  lemma MarksKeep(m: Manager, job: Job, generation: nat, code: string, now: Time)
    requires JobInv(job)
    ensures Keeps(job, MarkRetry(m, job, generation, code, now), now)
    ensures Keeps(job, MarkRejected(m, job, generation, now), now)
    ensures Keeps(job, MarkUncertain(m, job, generation, code, now), now)
  {
  }

  lemma TerminalKeeps(m: Manager, job: Job, generation: nat, status: JobStatus, r: seq<Member>, now: Time)
    requires JobInv(job) && (status.JobCompleted? || status.JobFailed? || status.JobTimedOut? || status.JobUncertain?)
    ensures Keeps(job, MarkTerminal(m, job, generation, status, r, now), now)
  {
    var fault := EvidenceFault(job, status, r);
    if fault.Some? {
      MarksKeep(m, job, generation, fault.value, now);
    }
  }

  /** Whatever the broker answers, the row keeps its constraints. */
  lemma ConcludeKeeps(m: Manager, job: Job, generation: nat, reply: Reply, now: Time)
    requires JobInv(job)
    ensures Keeps(job, Conclude(m, job, generation, reply, now), now)
  {
    match reply
    case Unavailable => MarksKeep(m, job, generation, "runnerd_unavailable", now);
    case OutcomeUnknown =>
    case Response(r) =>
      MarksKeep(m, job, generation, "runner_busy_identity_mismatch", now);
      MarksKeep(m, job, generation, "runnerd_busy", now);
      MarksKeep(m, job, generation, "runnerd_internal_error", now);
      MarksKeep(m, job, generation, "runner_protocol_status_invalid", now);
      if TerminalStatus(StatusText(r)).Some? {
        TerminalKeeps(m, job, generation, TerminalStatus(StatusText(r)).value, r, now);
      }
  }

  /** The one response that `ck_runner_jobs_image_id` refuses: an otherwise well-formed report of uncertain
      cleanup, to its owner, with an image id of the wrong length. */
  predicate UncheckedImage(m: Manager, job: Job, generation: nat, reply: Reply, now: Time) {
    && Owned(m, job, generation, now) && reply.Response?
    && TerminalStatus(StatusText(reply.members)) == Some(JobUncertain)
    && EvidenceFault(job, JobUncertain, reply.members).None?
    && IsText(Get(reply.members, T("runner_image_id"))) && |Get(reply.members, T("runner_image_id")).value.text| != 71
  }

  lemma TextsDiffer()
    ensures T("cleanup_uncertain")[0] != T("busy")[0] && T("cleanup_uncertain")[0] != T("rejected")[0]
            && T("cleanup_uncertain")[0] != T("error")[0]
    ensures T("completed")[1] != T("cleanup_uncertain")[1] && T("failed")[0] != T("cleanup_uncertain")[0]
            && T("timed_out")[0] != T("cleanup_uncertain")[0]
  {
  }

  lemma ImageConstraintFailsExactly(m: Manager, job: Job, generation: nat, reply: Reply, now: Time)
    requires JobInv(job) && CkImage(job)
    ensures CkImage(Conclude(m, job, generation, reply, now).job) <==> !UncheckedImage(m, job, generation, reply, now)
  {
    TextsDiffer();
  }

  /** A member whose key occurs nowhere behind it is the one that is looked up. */
  lemma {:induction false} GetsLast(members: seq<Member>, i: nat)
    requires i < |members| && forall j :: i < j < |members| ==> members[j].key != members[i].key
    ensures Get(members, members[i].key) == Some(members[i].value)
  {
    if i < |members| - 1 {
      var front := members[..|members| - 1];
      assert forall j :: 0 <= j < |front| ==> front[j] == members[j];
      GetsLast(front, i);
    }
  }

  /** A running job, held by the manager "m". */
  function HeldJob(): Job {
    Job([49], [50], [51], [52], ClientKey([53]), JobRunning, [[97]], 1, "", "", None, None, None, None, None, None, [],
        [], false, None,
        Some("m"), 1, Some(0), Some(100), None, 0, None, Some(0), None)
  }

  /** A report of uncertain cleanup, complete but for an image id of one character. */
  function ShortImageReply(): seq<Member> {
    [Member(T("version"), JInt(1)), Member(T("stdout"), JString([])), Member(T("stderr"), JString([])),
     Member(T("output_truncated"), JBool(false)), Member(T("request_id"), JString([49])),
         Member(T("execution_id"), JString([50])),
     Member(T("workspace_id"), JString([52])), Member(T("runner_image_id"), JString([120])),
     Member(T("cleanup_confirmed"), JBool(false)), Member(T("status"), JString(T("cleanup_uncertain")))]
  }

  lemma KeysDiffer()
    ensures var r := ShortImageReply(); forall i, j :: 0 <= i < j < |r| ==> r[i].key != r[j].key
  {
    assert T("stdout")[3] == 111 && T("stderr")[3] == 101 && T("status")[3] == 116;
    assert T("execution_id")[0] == 101 && T("workspace_id")[0] == 119;
  }

  lemma ShortImageGets()
    ensures var r := ShortImageReply(); forall i :: 0 <= i < |r| ==> Get(r, r[i].key) == Some(r[i].value)
  {
    KeysDiffer();
    var r := ShortImageReply();
    forall i | 0 <= i < |r| ensures Get(r, r[i].key) == Some(r[i].value) {
      GetsLast(r, i);
    }
  }

  lemma ShortImageHasNoFault()
    ensures EvidenceFault(HeldJob(), JobUncertain, ShortImageReply()).None?
            && StatusText(ShortImageReply()) == T("cleanup_uncertain")
    ensures Get(ShortImageReply(), T("runner_image_id")) == Some(JString([120]))
  {
    ShortImageGets();
    var r := ShortImageReply();
    assert Get(r, r[0].key) == Some(JInt(1)) && Get(r, r[1].key) == Some(JString([]))
           && Get(r, r[2].key) == Some(JString([]));
    assert Get(r, r[3].key) == Some(JBool(false)) && Get(r, r[4].key) == Some(JString([49]))
           && Get(r, r[5].key) == Some(JString([50]));
    assert Get(r, r[6].key) == Some(JString([52])) && Get(r, r[7].key) == Some(JString([120]));
    assert Get(r, r[8].key) == Some(JBool(false)) && Get(r, r[9].key) == Some(JString(T("cleanup_uncertain")));
  }

  lemma UncertainIsTerminal()
    ensures TerminalStatus(T("cleanup_uncertain")) == Some(JobUncertain)
  {
    TextsDiffer();
  }

  /** Before this reply the job satisfies every constraint; the row it asks for violates `ck_runner_jobs_image_id`. */
  lemma ImageConstraintFailsHere()
    ensures var m := Manager("m", 0, 1, 1);
            && JobInv(HeldJob()) && CkImage(HeldJob())
            && UncheckedImage(m, HeldJob(), 1, Response(ShortImageReply()), 50)
            && !CkImage(Conclude(m, HeldJob(), 1, Response(ShortImageReply()), 50).job)
  {
    ShortImageHasNoFault();
    UncertainIsTerminal();
    ImageConstraintFailsExactly(Manager("m", 0, 1, 1), HeldJob(), 1, Response(ShortImageReply()), 50);
  }

  // ---- Histories of one job

  datatype JobEvent =
    | ClaimedBy(manager: Manager)
    | AuthorizedBy(manager: Manager, generation: nat, facts: Facts)
    | ConcludedBy(manager: Manager, generation: nat, reply: Reply)

  function ApplyJob(e: JobEvent, job: Job, now: Time): JobTx {
    match e
    case ClaimedBy(m) => Claim(m, job, now)
    case AuthorizedBy(m, generation, facts) => Authorize(m, job, generation, facts, now)
    case ConcludedBy(m, generation, reply) => Conclude(m, job, generation, reply, now)
  }

  /** The database refuses a commit that violates the image constraint; the row then stays as it was. */
  ghost function Committed(e: JobEvent, job: Job, now: Time): JobTx {
    var tx := ApplyJob(e, job, now);
    if CkImage(tx.job) then tx else JobTx(job, Untouched)
  }

  ghost predicate JobHistory(jobs: seq<Job>, events: seq<JobEvent>, times: seq<Time>) {
    && |jobs| == |events| + 1 == |times| + 1
    && JobInv(jobs[0]) && CkImage(jobs[0])
    && (forall i :: 0 <= i < |events| ==> jobs[i + 1] == Committed(events[i], jobs[i], times[i]).job)
    && (forall i, j :: 0 <= i <= j < |times| ==> times[i] <= times[j])
  }

  lemma EventKeeps(e: JobEvent, job: Job, now: Time)
    requires JobInv(job) && CkImage(job)
    ensures var tx := Committed(e, job, now); Keeps(job, tx, now) && CkImage(tx.job)
  {
    match e
    case ClaimedBy(m) => ClaimKeeps(m, job, now);
    case AuthorizedBy(m, generation, facts) => AuthorizeKeeps(m, job, generation, facts, now);
    case ConcludedBy(m, generation, reply) => ConcludeKeeps(m, job, generation, reply, now);
  }

  /** Every reachable job satisfies every constraint, and `completed` means exit code 0, confirmed cleanup
      and a well-formed image id. */
  lemma {:induction false} ReachableJobs(jobs: seq<Job>, events: seq<JobEvent>, times: seq<Time>, i: nat)
    requires JobHistory(jobs, events, times) && i < |jobs|
    ensures JobInv(jobs[i]) && CkImage(jobs[i])
    ensures jobs[i].status.JobCompleted? ==>
              jobs[i].exitCode == Some(0) && jobs[i].cleanup == Some(true) && jobs[i].imageId.Some?
                  && IsImageId(jobs[i].imageId.value)
  {
    if i > 0 {
      ReachableJobs(jobs, events, times, i - 1);
      EventKeeps(events[i - 1], jobs[i - 1], times[i - 1]);
    }
  }

  /** Every event of a history is fenced and leaves a job that is over alone. */
  lemma EventSteps(jobs: seq<Job>, events: seq<JobEvent>, times: seq<Time>, k: nat)
    requires JobHistory(jobs, events, times) && k < |events|
    ensures Over(jobs[k].status) ==> jobs[k + 1] == jobs[k]
    ensures FencedStep(JobLease(jobs[k]), JobLease(jobs[k + 1]), times[k])
  {
    ReachableJobs(jobs, events, times, k);
    EventKeeps(events[k], jobs[k], times[k]);
  }

  /** A job that is over is never changed again, by any worker, whatever the broker answers. */
  lemma {:induction false} OverIsForever(jobs: seq<Job>, events: seq<JobEvent>, times: seq<Time>, i: nat, j: nat)
    requires JobHistory(jobs, events, times) && i <= j < |jobs| && Over(jobs[i].status)
    ensures jobs[j] == jobs[i]
  {
    if i < j {
      OverIsForever(jobs, events, times, i, j - 1);
      EventSteps(jobs, events, times, j - 1);
    }
  }

  function JobTicket(m: Manager, generation: nat): Ticket {
    Ticket(0, m.id, generation, 0)
  }

  lemma LostJobLease(m: Manager, job: Job, generation: nat, facts: Facts, reply: Reply, now: Time)
    requires !Owned(m, job, generation, now)
    ensures Authorize(m, job, generation, facts, now).job == job && Conclude(m, job, generation, reply, now).job == job
  {
  }

  lemma {:induction false} DeadJobLeaseStaysDead(jobs: seq<Job>, events: seq<JobEvent>, times: seq<Time>, i: nat,
                                                 j: nat,
                                                 m: Manager, generation: nat, before: Time, later: Time)
    requires JobHistory(jobs, events, times) && i <= j < |jobs| && before <= later
    requires generation <= jobs[i].generation && !Owned(m, jobs[i], generation, before)
    requires forall k :: i <= k < j ==> before <= times[k] <= later
    ensures generation <= jobs[j].generation && !Owned(m, jobs[j], generation, later)
    decreases j
  {
    if i < j {
      DeadJobLeaseStaysDead(jobs, events, times, i, j - 1, m, generation, before, times[j - 1]);
      EventSteps(jobs, events, times, j - 1);
      StepKeepsDead(m, jobs[j - 1], jobs[j], generation, times[j - 1], later);
    }
  }

  lemma StepKeepsDead(m: Manager, job: Job, job': Job, generation: nat, now: Time, later: Time)
    requires FencedStep(JobLease(job), JobLease(job'), now) && now <= later
    requires generation <= job.generation && !Owned(m, job, generation, now)
    ensures generation <= job'.generation && !Owned(m, job', generation, later)
  {
    DeadTicketStaysDead(JobLease(job), JobLease(job'), JobTicket(m, generation), now, now, later);
  }

  /** A job lease that has failed the ownership check fails it ever after, and whatever its holder still
      does leaves the row as it is. */
  lemma DeadJobLeaseIsPowerless(jobs: seq<Job>, events: seq<JobEvent>, times: seq<Time>, i: nat, j: nat,
                                                   m: Manager, generation: nat, before: Time, later: Time, facts: Facts,
                                                       reply: Reply)
    requires JobHistory(jobs, events, times) && i <= j < |jobs|
    requires generation <= jobs[i].generation && !Owned(m, jobs[i], generation, before)
    requires forall k :: i <= k < j ==> before <= times[k] <= later
    requires before <= later
    ensures generation <= jobs[j].generation && !Owned(m, jobs[j], generation, later)
    ensures Authorize(m, jobs[j], generation, facts, later).job == jobs[j]
            && Conclude(m, jobs[j], generation, reply, later).job == jobs[j]
  {
    DeadJobLeaseStaysDead(jobs, events, times, i, j, m, generation, before, later);
    LostJobLease(m, jobs[j], generation, facts, reply, later);
  }

  /** Two claims of one job hand out different generations, so at most one of the leases passes the check. */
  lemma JobLeasesNeverOverlap(jobs: seq<Job>, events: seq<JobEvent>, times: seq<Time>, i: nat, j: nat, m: Manager,
                              n: Manager, job: Job, now: Time)
    requires JobHistory(jobs, events, times) && i < j < |events|
    requires Committed(events[i], jobs[i], times[i]).outcome.JobClaimed?
             && Committed(events[j], jobs[j], times[j]).outcome.JobClaimed?
    ensures var g, h := Committed(events[i], jobs[i], times[i]).outcome.generation,
            Committed(events[j], jobs[j], times[j]).outcome.generation;
            !(Owned(m, job, g, now) && Owned(n, job, h, now))
  {
    ReachableJobs(jobs, events, times, i);
    ReachableJobs(jobs, events, times, j);
    ClaimIsFresh(events[i], jobs[i], times[i]);
    ClaimIsFresh(events[j], jobs[j], times[j]);
    JobGenerationsGrow(jobs, events, times, i + 1, j);
  }

  /** A job lease just handed out passes the ownership check exactly until it expires. */
  lemma FreshJobLeasePasses(m: Manager, job: Job, now: Time, later: Time)
    requires Claim(m, job, now).outcome.JobClaimed?
    ensures Owned(m, Claim(m, job, now).job, job.generation + 1, later)
            <==> later < now + (job.timeoutSeconds + m.padding) * SECOND
  {
  }

  lemma ClaimIsFresh(e: JobEvent, job: Job, now: Time)
    requires JobInv(job) && Committed(e, job, now).outcome.JobClaimed?
    ensures Committed(e, job, now).outcome.generation == job.generation + 1 == Committed(e, job, now).job.generation
  {
  }

  lemma {:induction false} JobGenerationsGrow(jobs: seq<Job>, events: seq<JobEvent>, times: seq<Time>, i: nat, j: nat)
    requires JobHistory(jobs, events, times) && i <= j < |jobs|
    ensures jobs[i].generation <= jobs[j].generation
  {
    if i < j {
      JobGenerationsGrow(jobs, events, times, i, j - 1);
      EventSteps(jobs, events, times, j - 1);
    }
  }

  // ---- Retry delays

  /** Doubling without a cap on the exponent. */
  function Uncapped(base: nat, max: nat, failures: nat): nat {
    Min(max, base * Pow2(failures)) as nat
  }

  lemma Grows(base: nat, m: nat, n: nat)
    requires m <= n
    ensures base * Pow2(m) <= base * Pow2(n)
  {
    Pow2Monotone(m, n);
    MulMonotone(base, Pow2(m), Pow2(n));
  }

  lemma MulMonotone(base: nat, x: nat, y: nat)
    requires x <= y
    ensures base * x <= base * y
  {
  }

  lemma WithinReach(base: nat, max: nat, cap: nat, n: nat)
    requires max <= base * Pow2(cap)
    ensures Backoff(base, max, n, cap) == Uncapped(base, max, n)
  {
    if n > cap {
      Grows(base, cap, n);
    }
  }

  lemma OutOfReach(base: nat, max: nat, cap: nat)
    requires 1 <= base && max > base * Pow2(cap)
    ensures Backoff(base, max, cap + 1, cap) < Uncapped(base, max, cap + 1)
  {
    var once := base * Pow2(cap);
    Doubles(base, Pow2(cap));
    assert Pow2(cap + 1) == 2 * Pow2(cap);
    assert Uncapped(base, max, cap + 1) == Min(max, 2 * once);
    MulMonotone(Pow2(cap), 1, base);
    assert once >= 1;
  }

  lemma Doubles(base: nat, x: nat)
    ensures base * (2 * x) == 2 * (base * x)
  {
  }

  /** Capping the exponent changes some delay exactly when the maximum is out of reach of the capped doubling. */
  lemma CapIsHarmlessExactly(base: nat, max: nat, cap: nat)
    requires base >= 1
    ensures (forall n: nat :: Backoff(base, max, n, cap) == Uncapped(base, max, n)) <==> max <= base * Pow2(cap)
  {
    if max <= base * Pow2(cap) {
      forall n: nat ensures Backoff(base, max, n, cap) == Uncapped(base, max, n) {
        WithinReach(base, max, cap, n);
      }
    } else {
      OutOfReach(base, max, cap);
    }
  }

  /** The caps in use: 16 for runner jobs needs `max <= base * 65536`; 20 covers every configurable maximum. */
  lemma CapsInUse(base: nat, max: nat)
    requires 1 <= base
    ensures (forall n: nat :: Backoff(base, max, n, 16) == Uncapped(base, max, n)) <==> max <= base * 65_536
    ensures max <= 86_400 ==> forall n: nat :: Backoff(base, max, n, 20) == Uncapped(base, max, n)
  {
    CapIsHarmlessExactly(base, max, 16);
    CapIsHarmlessExactly(base, max, 20);
    Powers();
    MulMonotone(1_048_576, 1, base);
  }

  lemma Powers()
    ensures Pow2(16) == 65_536 && Pow2(20) == 1_048_576
  {
    assert Pow2(4) == 16;
    assert Pow2(8) == 256;
    assert Pow2(12) == 4_096;
    assert Pow2(16) == 65_536;
  }
}
