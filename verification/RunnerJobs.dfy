/** `runner_manager.py`: the leased queue of runner jobs and the judgement of broker responses. */
module RunnerJobs {
  import opened Prelude
  import opened Rows
  import opened Json

  datatype JobStatus = JobQueued | JobRunning | JobCompleted | JobFailed | JobTimedOut | JobUncertain | JobRejected

  /** A `runner_jobs` row. */
  datatype Job = Job(
    id: Text, executionId: Text, repositoryId: Text, workspaceId: Text, idempotencyKey: Key,
    status: JobStatus, argv: seq<Text>, timeoutSeconds: int, baseCommit: string, preflightDigest: string,
    snapshot: Option<Text>, gate: Option<TextDigest>, index: Option<int>, commandLabel: Option<Text>,
    imageId: Option<Text>, exitCode: Option<int>, stdout: Text, stderr: Text, truncated: bool, cleanup: Option<bool>,
    owner: Option<string>, generation: nat, heartbeatAt: Option<Time>, expiresAt: Option<Time>,
        nextAttemptAt: Option<Time>,
    failureCount: nat, lastError: Option<string>, startedAt: Option<Time>, finishedAt: Option<Time>)

  /** UUID version 5 as an injective function of its namespace and name, or a key chosen by a client. */
  datatype Key = Uuid5(execution: Text, gate: TextDigest, index: nat) | ClientKey(text: Text)

  datatype Manager = Manager(id: string, padding: nat, retryBase: nat, retryMax: nat)

  /** What authorization reads of the run, the repository and the workspace of a job. */
  datatype RunFacts = RunFacts(contract2: bool, repositoryId: Text, workspaceId: Text, baseCommit: string,
                               preflightDigest: Option<string>,
                               status: RunStatus, cancelled: bool, runtimeDigest: Option<string>, runtimeVerified: bool)
  datatype RepositoryFacts = RepositoryFacts(enabled: bool, ready: bool)
  datatype WorkspaceFacts = WorkspaceFacts(repositoryId: Text, baseCommit: string, preflightDigest: Option<string>,
                                           status: WorkspaceStatus)
  datatype Facts = Facts(run: Option<RunFacts>, repository: Option<RepositoryFacts>, workspace: Option<WorkspaceFacts>)

  /** How a call to the broker ends. */
  datatype Reply = Unavailable | OutcomeUnknown | Response(members: seq<Member>)

  datatype JobOutcome = JobClaimed(generation: nat) | Authorized | JobLost | Requeued | Refused | Uncertain
    | Finished(status: JobStatus) | Untouched

  datatype JobTx = JobTx(job: Job, outcome: JobOutcome)

  predicate Over(s: JobStatus) {
    !s.JobQueued? && !s.JobRunning?
  }

  function Deadline(m: Manager, job: Job, now: Time): Time {
    now + (job.timeoutSeconds + m.padding) * SECOND
  }

  /** `_retry_delay`, in seconds; the exponent is capped at 16. */
  function RetryDelay(m: Manager, failures: nat): nat {
    Backoff(m.retryBase, m.retryMax, failures, 16)
  }

  predicate ClaimableJob(job: Job, now: Time) {
    || (job.status.JobQueued? && job.nextAttemptAt.Some? && job.nextAttemptAt.value <= now)
    || (job.status.JobRunning? && job.expiresAt.Some? && job.expiresAt.value <= now)
  }

  /** `claim_available`, for one row. */
  function Claim(m: Manager, job: Job, now: Time): JobTx {
    if !ClaimableJob(job, now) then JobTx(job, Untouched)
    else JobTx(job.(status := JobRunning, nextAttemptAt := None, generation := job.generation + 1, owner := Some(m.id),
                    heartbeatAt := Some(now),
                    expiresAt := Some(Deadline(m, job, now)), startedAt := if job.startedAt.None? then Some(now)
                                                                             else job.startedAt),
               JobClaimed(job.generation + 1))
  }

  /** `_locked_owned_job`. */
  predicate Owned(m: Manager, job: Job, generation: nat, now: Time) {
    && job.status.JobRunning? && job.owner == Some(m.id) && job.generation == generation
    && job.expiresAt.Some? && job.expiresAt.value > now
  }

  /** The columns every terminal transition sets. */
  function FinishedRow(job: Job, status: JobStatus, cleanup: bool, code: Option<string>, now: Time): Job {
    job.(status := status, cleanup := Some(cleanup), lastError := code, finishedAt := Some(now),
         heartbeatAt := Some(now),
         owner := None, expiresAt := None, nextAttemptAt := None)
  }

  /** `_finish_rejected`. */
  function Rejected(job: Job, code: string, now: Time): Job {
    FinishedRow(job, JobRejected, true, Some(code), now).(exitCode := None, stdout := [], stderr := [],
                                                          truncated := false, imageId := None)
  }

  /** Why `authorize_binding` refuses the job. */
  function AuthorizationFault(job: Job, f: Facts): Option<string> {
    if f.run.None? || f.repository.None? || f.workspace.None? then Some("runner_binding_missing") else
    var run, repository, ws := f.run.value, f.repository.value, f.workspace.value;
    if !run.contract2 || run.repositoryId != job.repositoryId || run.workspaceId != job.workspaceId
        || run.baseCommit != job.baseCommit
       || run.preflightDigest != Some(job.preflightDigest) then Some("runner_binding_changed")
    else if !(run.status.Running? || run.status.Completed?) || run.cancelled then Some("execution_not_runnable")
    else if !run.runtimeVerified || run.runtimeDigest != Some(job.preflightDigest)
           then Some("runtime_preflight_missing")
    else if !repository.enabled || !repository.ready then Some("repository_trust_revoked")
    else if ws.repositoryId != job.repositoryId || ws.baseCommit != job.baseCommit
           || ws.preflightDigest != Some(job.preflightDigest)
      then Some("workspace_binding_changed")
    else if !(ws.status.WsReady? || IsInspection(ws.status) || ws.status.WsRetained?)
           then Some("workspace_not_runnable")
    else None
  }

  function Authorize(m: Manager, job: Job, generation: nat, facts: Facts, now: Time): JobTx {
    if !Owned(m, job, generation, now) then JobTx(job, JobLost) else
    match AuthorizationFault(job, facts)
    case Some(code) => JobTx(Rejected(job, code, now), Refused)
    case None => JobTx(job.(heartbeatAt := Some(now), expiresAt := Some(Deadline(m, job, now))), Authorized)
  }

  function MarkRetry(m: Manager, job: Job, generation: nat, code: string, now: Time): JobTx {
    if !Owned(m, job, generation, now) then JobTx(job, JobLost)
    else JobTx(job.(failureCount := job.failureCount + 1, status := JobQueued,
                    nextAttemptAt := Some(now + RetryDelay(m, job.failureCount) * SECOND),
                    owner := None, expiresAt := None, heartbeatAt := Some(now), lastError := Some(code)), Requeued)
  }

  function MarkRejected(m: Manager, job: Job, generation: nat, now: Time): JobTx {
    if !Owned(m, job, generation, now) then JobTx(job, JobLost)
      else JobTx(Rejected(job, "runner_rejected", now), Refused)
  }

  function MarkUncertain(m: Manager, job: Job, generation: nat, code: string, now: Time): JobTx {
    if !Owned(m, job, generation, now) then JobTx(job, JobLost)
      else JobTx(FinishedRow(job, JobUncertain, false, Some(code), now), Uncertain)
  }

  /** `str(response.get("status") or "")`, up to texts no comparison ever matches. */
  function StatusText(members: seq<Member>): Text {
    match Get(members, T("status"))
    case Some(JString(text)) => text
    case _ => []
  }

  /** `TERMINAL_RUNNER_STATUSES`. */
  function TerminalStatus(text: Text): Option<JobStatus> {
    if text == T("completed") then Some(JobCompleted)
    else if text == T("failed") then Some(JobFailed)
    else if text == T("timed_out") then Some(JobTimedOut)
    else if text == T("cleanup_uncertain") then Some(JobUncertain)
    else None
  }

  predicate IsText(v: Option<Json>) {
    v.Some? && v.value.JString?
  }

  predicate IsImageId(t: Text) {
    |t| == 71 && t[..7] == T("sha256:") && forall i :: 7 <= i < 71 ==> (48 <= t[i] <= 57 || 97 <= t[i] <= 102)
  }

  /** Why `mark_terminal` does not believe a response that claims the terminal status `status`. */
  function EvidenceFault(job: Job, status: JobStatus, r: seq<Member>): Option<string> {
    var image, cleanup, code := Get(r, T("runner_image_id")), Get(r, T("cleanup_confirmed")), Get(r, T("exit_code"));
    if Get(r, T("version")) != Some(JInt(1)) || !IsText(Get(r, T("stdout"))) || !IsText(Get(r, T("stderr")))
       || !(Get(r, T("output_truncated")).Some? && Get(r, T("output_truncated")).value.JBool?)
         then Some("runner_protocol_evidence_invalid")
    else if Get(r, T("request_id")) != Some(JString(job.id))
           || Get(r, T("execution_id")) != Some(JString(job.executionId))
            || Get(r, T("workspace_id")) != Some(JString(job.workspaceId)) then Some("runner_identity_mismatch")
    else if !status.JobUncertain? && !(IsText(image) && IsImageId(image.value.text) && cleanup == Some(JBool(true)))
      then Some("runner_terminal_evidence_invalid")
    else if (status.JobCompleted? || status.JobFailed?)
            && !(code.Some? && code.value.JInt? && (status.JobCompleted? <==> code.value.n == 0))
              then Some("runner_exit_code_invalid")
    else if status.JobTimedOut? && !(code.None? || code.value.JNull?) then Some("runner_timeout_evidence_invalid")
    else if status.JobUncertain? && cleanup != Some(JBool(false)) then Some("runner_cleanup_evidence_invalid")
    else None
  }

  /** `isinstance(exit_code, int)` also accepts a boolean. */
  function ExitCode(v: Option<Json>): Option<int> {
    match v
    case Some(JInt(n)) => Some(n)
    case Some(JBool(b)) => Some(if b then 1 else 0)
    case _ => None
  }

  function ImageId(v: Option<Json>): Option<Text> {
    if IsText(v) then Some(v.value.text) else None
  }

  function ErrorOf(status: JobStatus): Option<string> {
    match status
    case JobFailed => Some("runner_failed")
    case JobTimedOut => Some("runner_timed_out")
    case JobUncertain => Some("runner_cleanup_uncertain")
    case _ => None
  }

  function MarkTerminal(m: Manager, job: Job, generation: nat, status: JobStatus, r: seq<Member>, now: Time): JobTx {
    if !Owned(m, job, generation, now) then JobTx(job, JobLost) else
    match EvidenceFault(job, status, r)
    case Some(code) => MarkUncertain(m, job, generation, code, now)
    case None =>
      JobTx(FinishedRow(job, status, Get(r, T("cleanup_confirmed")) == Some(JBool(true)), ErrorOf(status), now)
              .(imageId := ImageId(Get(r, T("runner_image_id"))), exitCode := ExitCode(Get(r, T("exit_code"))),
                stdout := Get(r, T("stdout")).value.text, stderr := Get(r, T("stderr")).value.text,
                truncated := Get(r, T("output_truncated")).value.b), Finished(status))
  }

  /** The second half of `process_runner_job`: what the reply of the broker does to the row. */
  function Conclude(m: Manager, job: Job, generation: nat, reply: Reply, now: Time): JobTx {
    match reply
    case Unavailable => MarkRetry(m, job, generation, "runnerd_unavailable", now)
    case OutcomeUnknown => JobTx(job, Untouched)
    case Response(r) =>
      var status := StatusText(r);
      if status == T("busy") then
        var id := Get(r, T("request_id"));
        // A request id that is no hashable value raises before any transaction starts.
        if id.Some? && (id.value.JArray? || id.value.JObject?) then JobTx(job, Untouched)
        else if id.Some? && !id.value.JNull? && id.value != JString(job.id)
               then MarkUncertain(m, job, generation, "runner_busy_identity_mismatch", now)
        else MarkRetry(m, job, generation, "runnerd_busy", now)
      else if status == T("rejected") then MarkRejected(m, job, generation, now)
      else if status == T("error") then MarkUncertain(m, job, generation, "runnerd_internal_error", now)
      else if TerminalStatus(status).None? then MarkUncertain(m, job, generation, "runner_protocol_status_invalid", now)
      else MarkTerminal(m, job, generation, TerminalStatus(status).value, r, now)
  }

  /** The transaction of one locked job row. */
  class JobSession {
    var job: Job

    constructor (row: Job)
      ensures job == row
    {
      job := row;
    }
  }

  class RunnerJobLeaseManager {
    const m: Manager

    constructor (manager: Manager)
      ensures m == manager
    {
      m := manager;
    }

    /** `claim_available` over the rows the query locked. */
    method ClaimAvailable(rows: seq<JobSession>, now: Time) returns (leases: seq<JobOutcome>)
      requires forall i, j :: 0 <= i < j < |rows| ==> rows[i] != rows[j]
      modifies rows
      ensures |leases| == |rows|
      ensures forall i :: 0 <= i < |rows| ==> JobTx(rows[i].job, leases[i]) == Claim(m, old(rows[i].job), now)
    {
      leases := [];
      ghost var before := seq(|rows|, i requires 0 <= i < |rows| reads rows => rows[i].job);
      for k := 0 to |rows|
        invariant |leases| == k
        invariant forall i :: 0 <= i < k ==> JobTx(rows[i].job, leases[i]) == Claim(m, before[i], now)
        invariant forall i :: k <= i < |rows| ==> rows[i].job == before[i]
      {
        var outcome := ClaimRow(rows[k], now);
        leases := leases + [outcome];
      }
    }

    method ClaimRow(db: JobSession, now: Time) returns (outcome: JobOutcome)
      modifies db
      ensures JobTx(db.job, outcome) == Claim(m, old(db.job), now)
    {
      if !ClaimableJob(db.job, now) {
        return Untouched;
      }
      var previousGeneration := db.job.generation;
      db.job := db.job.(status := JobRunning, nextAttemptAt := None);
      db.job := db.job.(generation := previousGeneration + 1, owner := Some(m.id));
      db.job := db.job.(heartbeatAt := Some(now), expiresAt := Some(Deadline(m, db.job, now)));
      if db.job.startedAt.None? {
        db.job := db.job.(startedAt := Some(now));
      }
      return JobClaimed(db.job.generation);
    }

    /** The assignments every terminal transition makes. */
    method Finish(db: JobSession, status: JobStatus, cleanup: bool, code: Option<string>, now: Time)
      modifies db
      ensures db.job == FinishedRow(old(db.job), status, cleanup, code, now)
    {
      db.job := db.job.(status := status, cleanup := Some(cleanup), lastError := code);
      db.job := db.job.(finishedAt := Some(now), heartbeatAt := Some(now));
      db.job := db.job.(owner := None, expiresAt := None, nextAttemptAt := None);
    }

    method FinishRejected(db: JobSession, code: string, now: Time)
      modifies db
      ensures db.job == Rejected(old(db.job), code, now)
    {
      Finish(db, JobRejected, true, Some(code), now);
      db.job := db.job.(exitCode := None, stdout := [], stderr := [], truncated := false, imageId := None);
    }

    method AuthorizeBinding(db: JobSession, generation: nat, facts: Facts, now: Time) returns (outcome: JobOutcome)
      modifies db
      ensures JobTx(db.job, outcome) == Authorize(m, old(db.job), generation, facts, now)
    {
      if !Owned(m, db.job, generation, now) {
        return JobLost;
      }
      var code := AuthorizationFault(db.job, facts);
      if code.Some? {
        FinishRejected(db, code.value, now);
        return Refused;
      }
      db.job := db.job.(heartbeatAt := Some(now));
      db.job := db.job.(expiresAt := Some(Deadline(m, db.job, now)));
      return Authorized;
    }

    method Retry(db: JobSession, generation: nat, code: string, now: Time) returns (outcome: JobOutcome)
      modifies db
      ensures JobTx(db.job, outcome) == MarkRetry(m, old(db.job), generation, code, now)
    {
      if !Owned(m, db.job, generation, now) {
        return JobLost;
      }
      var delay := RetryDelay(m, db.job.failureCount);
      db.job := db.job.(failureCount := db.job.failureCount + 1, status := JobQueued);
      db.job := db.job.(nextAttemptAt := Some(now + delay * SECOND), owner := None, expiresAt := None);
      db.job := db.job.(heartbeatAt := Some(now), lastError := Some(code));
      return Requeued;
    }

    method RejectResponse(db: JobSession, generation: nat, now: Time) returns (outcome: JobOutcome)
      modifies db
      ensures JobTx(db.job, outcome) == MarkRejected(m, old(db.job), generation, now)
    {
      if !Owned(m, db.job, generation, now) {
        return JobLost;
      }
      FinishRejected(db, "runner_rejected", now);
      return Refused;
    }

    method Doubt(db: JobSession, generation: nat, code: string, now: Time) returns (outcome: JobOutcome)
      modifies db
      ensures JobTx(db.job, outcome) == MarkUncertain(m, old(db.job), generation, code, now)
    {
      if !Owned(m, db.job, generation, now) {
        return JobLost;
      }
      Finish(db, JobUncertain, false, Some(code), now);
      return Uncertain;
    }

    method Terminate(db: JobSession, generation: nat, status: JobStatus, r: seq<Member>, now: Time)
        returns (outcome: JobOutcome)
      modifies db
      ensures JobTx(db.job, outcome) == MarkTerminal(m, old(db.job), generation, status, r, now)
    {
      if !Owned(m, db.job, generation, now) {
        return JobLost;
      }
      var fault := EvidenceFault(db.job, status, r);
      if fault.Some? {
        outcome := Doubt(db, generation, fault.value, now);
        return;
      }
      Finish(db, status, Get(r, T("cleanup_confirmed")) == Some(JBool(true)), ErrorOf(status), now);
      db.job := db.job.(imageId := ImageId(Get(r, T("runner_image_id"))), exitCode := ExitCode(Get(r, T("exit_code"))));
      db.job := db.job.(stdout := Get(r, T("stdout")).value.text, stderr := Get(r, T("stderr")).value.text);
      db.job := db.job.(truncated := Get(r, T("output_truncated")).value.b);
      return Finished(status);
    }

    /** `process_runner_job` after the call to the broker returned. */
    method Process(db: JobSession, generation: nat, reply: Reply, now: Time) returns (outcome: JobOutcome)
      modifies db
      ensures JobTx(db.job, outcome) == Conclude(m, old(db.job), generation, reply, now)
    {
      match reply
      case Unavailable => outcome := Retry(db, generation, "runnerd_unavailable", now);
      case OutcomeUnknown => return Untouched;
      case Response(r) =>
        var status := StatusText(r);
        if status == T("busy") {
          var id := Get(r, T("request_id"));
          if id.Some? && (id.value.JArray? || id.value.JObject?) {
            return Untouched;
          }
          if id.Some? && !id.value.JNull? && id.value != JString(db.job.id) {
            outcome := Doubt(db, generation, "runner_busy_identity_mismatch", now);
          } else {
            outcome := Retry(db, generation, "runnerd_busy", now);
          }
        } else if status == T("rejected") {
          outcome := RejectResponse(db, generation, now);
        } else if status == T("error") {
          outcome := Doubt(db, generation, "runnerd_internal_error", now);
        } else if TerminalStatus(status).None? {
          outcome := Doubt(db, generation, "runner_protocol_status_invalid", now);
        } else {
          outcome := Terminate(db, generation, TerminalStatus(status).value, r, now);
        }
    }
  }
}
