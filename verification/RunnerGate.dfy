/** The runner-checkpoint gate of `execution_worker.py` and the runner-job endpoint of `main.py`: the
    jobs of one execution, inserted all or none, and the evidence a changed workspace needs. */
module RunnerGate {
  import opened Prelude
  import opened Rows
  import opened Json
  import opened RunnerJobs
  import C = Checkpoint
  import T = Transactions
  import E = ExecutionLeases

  const MAX_CYCLES := 4

  /** The attested binding a lease carries. */
  datatype Binding = Binding(repositoryId: Text, workspaceId: Text, baseCommit: string, preflightDigest: string)

  datatype GateResult = Ensured(gate: TextDigest) | GateError(code: string) | GateCrash(error: string)

  datatype GateTx = GateTx(unit: Unit, jobs: seq<Job>, result: GateResult)

  /** The row inserted for one command. */
  function NewJob(execution: Text, b: Binding, gate: TextDigest, snapshot: Text, index: nat, c: C.Command, id: Text,
                  now: Time): Job {
    Job(id, execution, b.repositoryId, b.workspaceId, Uuid5(execution, gate, index), JobQueued, c.argv,
        c.timeoutSeconds,
        b.baseCommit, b.preflightDigest, Some(snapshot), Some(gate), Some(index), Some(c.name),
        None, None, [], [], false, None, None, 0, None, None, Some(now), 0, None, None, None)
  }

  /** The row with this idempotency key; the database keeps keys unique within an execution. */
  function FindKey(jobs: seq<Job>, key: Key): (r: Option<Job>)
    ensures r.Some? ==> r.value in jobs && r.value.idempotencyKey == key
    ensures r.None? ==> forall i :: 0 <= i < |jobs| ==> jobs[i].idempotencyKey != key
  {
    if jobs == [] then None else if jobs[0].idempotencyKey == key then Some(jobs[0]) else FindKey(jobs[1..], key)
  }

  /** An existing row is the one this command would insert. */
  predicate Matches(job: Job, gate: TextDigest, snapshot: Text, index: nat, c: C.Command) {
    && job.gate == Some(gate) && job.index == Some(index) && job.commandLabel == Some(c.name)
    && job.snapshot == Some(snapshot) && job.argv == c.argv && job.timeoutSeconds == c.timeoutSeconds
  }

  /** The rows after the insertion loop has reached its end from `index`; None on a conflict. */
  function InsertFrom(execution: Text, b: Binding, gate: TextDigest, snapshot: Text, commands: seq<C.Command>,
                      ids: seq<Text>,
                      index: nat, jobs: seq<Job>, now: Time): Option<seq<Job>>
    requires index <= |commands| == |ids|
    decreases |commands| - index
  {
    if index == |commands| then Some(jobs)
    else
      match FindKey(jobs, Uuid5(execution, gate, index))
      case Some(job) =>
        if Matches(job, gate, snapshot, index, commands[index])
        then InsertFrom(execution, b, gate, snapshot, commands, ids, index + 1, jobs, now) else None
      case None =>
        var job := NewJob(execution, b, gate, snapshot, index, commands[index], ids[index], now);
        InsertFrom(execution, b, gate, snapshot, commands, ids, index + 1, jobs + [job], now)
  }

  /** The distinct checkpoint digests of the execution. */
  function Gates(jobs: seq<Job>): set<TextDigest> {
    set i | 0 <= i < |jobs| && jobs[i].gate.Some? :: jobs[i].gate.value
  }

  predicate RepositoryReady(f: Facts) {
    f.repository.Some? && f.repository.value.enabled && f.repository.value.ready
  }

  predicate WorkspaceReady(f: Facts, b: Binding) {
    && f.workspace.Some? && f.workspace.value.status.WsReady? && f.workspace.value.repositoryId == b.repositoryId
    && f.workspace.value.baseCommit == b.baseCommit && f.workspace.value.preflightDigest == Some(b.preflightDigest)
  }

  /** Why no job may be inserted for the digest `gate`. */
  function AdmissionFault(w: E.Worker, lease: E.ExecutionLease, b: Binding, f: Facts, run: Run, jobs: seq<Job>,
                          gate: TextDigest, now: Time): Option<string> {
    if !E.OwnedRun(w, run, lease.generation, now) || !run.status.Running? then Some("runner_checkpoint_lease_lost")
    else if !RepositoryReady(f) then Some("runner_checkpoint_repository_not_ready")
    else if !WorkspaceReady(f, b) then Some("runner_checkpoint_workspace_not_ready")
    else if gate !in Gates(jobs) && |Gates(jobs)| >= MAX_CYCLES then Some("runner_checkpoint_cycle_limit")
    else None
  }

  /** `_ensure_runner_checkpoint_jobs`. */
  function Ensure(w: E.Worker, lease: E.ExecutionLease, execution: Text, b: Binding, message: Text, snapshot: Text,
                  commands: seq<C.Command>,
                  f: Facts, ids: seq<Text>, u: Unit, jobs: seq<Job>, now: Time): GateTx
    requires C.IsUuid(execution) && Printable(C.CheckpointJson(commands)) && |ids| == |commands|
  {
    match C.GateDigest(execution, message, snapshot, commands)
    case Absent => GateTx(u, jobs, GateError(""))
    case Refused(code) => GateTx(u, jobs, GateError(code))
    case Uncaught(error) => GateTx(u, jobs, GateCrash(error))
    case Success(gate) =>
      match AdmissionFault(w, lease, b, f, u.run, jobs, gate, now)
      case Some(code) => GateTx(u, jobs, GateError(code))
      case None =>
        match InsertFrom(execution, b, gate, snapshot, commands, ids, 0, jobs, now)
        case None => GateTx(u, jobs, GateError("runner_checkpoint_idempotency_conflict"))
        case Some(all) => GateTx(E.ContinueRunning(w, u, lease, RunnerValidation, now).unit, all, Ensured(gate))
  }

  datatype CreateResult = Existing(job: Job) | Created(job: Job) | HttpError(code: int)

  /** The run may be given jobs by a client. */
  predicate RunAcceptsJobs(run: RunFacts) {
    && run.contract2 && (run.status.Running? || run.status.Completed?) && !run.cancelled
    && run.preflightDigest.Some? && run.runtimeVerified && run.runtimeDigest == run.preflightDigest
  }

  predicate WorkspaceAcceptsJobs(ws: WorkspaceFacts, run: RunFacts) {
    && ws.repositoryId == run.repositoryId && ws.baseCommit == run.baseCommit
    && ws.preflightDigest == run.preflightDigest
    && (ws.status.WsReady? || IsInspection(ws.status) || ws.status.WsRetained?)
  }

  function ClientJob(execution: Text, key: Key, argv: seq<Text>, timeoutSeconds: int, run: RunFacts, id: Text,
                     now: Time): Job
    requires run.preflightDigest.Some?
  {
    Job(id, execution, run.repositoryId, run.workspaceId, key, JobQueued, argv, timeoutSeconds, run.baseCommit,
        run.preflightDigest.value,
        None, None, None, None, None, None, [], [], false, None, None, 0, None, None, Some(now), 0, None, None, None)
  }

  /** `create_runner_job`; the key is whatever UUID the client sends. */
  function Create(execution: Text, key: Key, argv: seq<Text>, timeoutSeconds: int, f: Facts, id: Text, jobs: seq<Job>,
                  now: Time): CreateResult {
    if !C.ValidArgv(argv) || !(1 <= timeoutSeconds <= 3600) then HttpError(422)
    else if f.run.None? then HttpError(404)
    else
      match FindKey(jobs, key)
      case Some(job) => if job.argv != argv || job.timeoutSeconds != timeoutSeconds then HttpError(409)
                          else Existing(job)
      case None =>
        if !RunAcceptsJobs(f.run.value) || !RepositoryReady(f) || f.workspace.None?
            || !WorkspaceAcceptsJobs(f.workspace.value, f.run.value)
        then HttpError(409)
        else Created(ClientJob(execution, key, argv, timeoutSeconds, f.run.value, id, now))
  }

  // ---- `_snapshot_has_successful_checkpoint`

  /** The rows of one checkpoint, in the order of the query. */
  function Group(rows: seq<Job>, gate: TextDigest): seq<Job> {
    if rows == [] then []
    else if rows[|rows| - 1].gate == Some(gate) then Group(rows[..|rows| - 1], gate) + [rows[|rows| - 1]]
    else Group(rows[..|rows| - 1], gate)
  }

  predicate Succeeded(job: Job) {
    job.status.JobCompleted? && job.exitCode == Some(0) && job.cleanup == Some(true) && job.imageId.Some?
        && job.imageId.value != []
  }

  /** The group passes: its indexes are 0, 1, 2, ... and every job succeeded. */
  predicate Passes(group: seq<Job>) {
    && (forall i :: 0 <= i < |group| ==> group[i].index == Some(i))
    && (forall i :: 0 <= i < |group| ==> Succeeded(group[i]))
  }

  predicate HasSuccess(rows: seq<Job>) {
    exists g :: g in Gates(rows) && Passes(Group(rows, g))
  }

  /** The rows of the execution's jobs, as the ORM holds them. */
  class JobTable {
    var jobs: seq<Job>

    constructor (rows: seq<Job>)
      ensures jobs == rows
    {
      jobs := rows;
    }
  }

  method EnsureRunnerCheckpointJobs(w: E.Worker, lease: E.ExecutionLease, execution: Text, b: Binding, message: Text,
                                    snapshot: Text,
                                    commands: seq<C.Command>, f: Facts, ids: seq<Text>, db: T.Session, table: JobTable,
                                        now: Time)
    returns (result: GateResult)
    requires C.IsUuid(execution) && Printable(C.CheckpointJson(commands)) && |ids| == |commands|
    modifies db, table
    ensures GateTx(db.Rows(), table.jobs, result)
         == Ensure(w, lease, execution, b, message, snapshot, commands, f, ids, old(db.Rows()), old(table.jobs), now)
  {
    var digest := C.GateDigest(execution, message, snapshot, commands);
    if !digest.Success? {
      return if digest.Refused? then GateError(digest.code) else if digest.Uncaught? then GateCrash(digest.error)
                                                                   else GateError("");
    }
    var gate := digest.value;
    if !E.OwnedRun(w, db.run, lease.generation, now) || !db.run.status.Running? {
      return GateError("runner_checkpoint_lease_lost");
    }
    if !RepositoryReady(f) {
      return GateError("runner_checkpoint_repository_not_ready");
    }
    if !WorkspaceReady(f, b) {
      return GateError("runner_checkpoint_workspace_not_ready");
    }
    var known := Gates(table.jobs);
    if gate !in known && |known| >= MAX_CYCLES {
      return GateError("runner_checkpoint_cycle_limit");
    }
    var before := table.jobs;
    for index := 0 to |commands|
      invariant InsertFrom(execution, b, gate, snapshot, commands, ids, 0, before, now)
             == InsertFrom(execution, b, gate, snapshot, commands, ids, index, table.jobs, now)
      invariant db.Rows() == old(db.Rows())
    {
      var existing := FindKey(table.jobs, Uuid5(execution, gate, index));
      if existing.Some? {
        if !Matches(existing.value, gate, snapshot, index, commands[index]) {
          table.jobs := before;
          return GateError("runner_checkpoint_idempotency_conflict");
        }
      } else {
        table.jobs := table.jobs + [NewJob(execution, b, gate, snapshot, index, commands[index], ids[index], now)];
      }
    }
    db.run := db.run.(stage := RunnerValidation);
    db.run := E.Renewed(w, db.run, now);
    return Ensured(gate);
  }

  method CreateRunnerJob(execution: Text, key: Key, argv: seq<Text>, timeoutSeconds: int, f: Facts, id: Text,
                         table: JobTable, now: Time)
    returns (result: CreateResult)
    modifies table
    ensures result == Create(execution, key, argv, timeoutSeconds, f, id, old(table.jobs), now)
    ensures table.jobs == if result.Created? then old(table.jobs) + [result.job] else old(table.jobs)
  {
    if !C.ValidArgv(argv) || !(1 <= timeoutSeconds <= 3600) {
      return HttpError(422);
    }
    if f.run.None? {
      return HttpError(404);
    }
    var existing := FindKey(table.jobs, key);
    if existing.Some? {
      if existing.value.argv != argv || existing.value.timeoutSeconds != timeoutSeconds {
        return HttpError(409);
      }
      return Existing(existing.value);
    }
    if !RunAcceptsJobs(f.run.value) {
      return HttpError(409);
    }
    if !RepositoryReady(f) || f.workspace.None? || !WorkspaceAcceptsJobs(f.workspace.value, f.run.value) {
      return HttpError(409);
    }
    var job := ClientJob(execution, key, argv, timeoutSeconds, f.run.value, id, now);
    table.jobs := table.jobs + [job];
    return Created(job);
  }

  /** Group the selected rows, then look for one group that passes. */
  method SnapshotHasSuccessfulCheckpoint(rows: seq<Job>) returns (found: bool)
    ensures found <==> HasSuccess(rows)
  {
    var groups: map<TextDigest, seq<Job>> := map[];
    for k := 0 to |rows|
      invariant groups.Keys == Gates(rows[..k])
      invariant forall g :: g in groups ==> groups[g] == Group(rows[..k], g)
    {
      GroupsExtend(rows, k);
      var job := rows[k];
      if job.gate.Some? {
        var g := job.gate.value;
        groups := groups[g := (if g in groups then groups[g] else []) + [job]];
      }
    }
    assert rows[..|rows|] == rows;
    var left := groups.Keys;
    while left != {}
      invariant left <= groups.Keys
      invariant forall g :: g in groups && g !in left ==> !Passes(groups[g])
    {
      var g :| g in left;
      left := left - {g};
      var group := groups[g];
      if (forall i :: 0 <= i < |group| ==> group[i].index == Some(i))
          && (forall i :: 0 <= i < |group| ==> Succeeded(group[i])) {
        assert Passes(Group(rows, g));
        return true;
      }
    }
    return false;
  }

  lemma GroupsExtend(rows: seq<Job>, k: nat)
    requires k < |rows|
    ensures Gates(rows[..k + 1]) == Gates(rows[..k]) + (if rows[k].gate.Some? then {rows[k].gate.value} else {})
    ensures forall g :: Group(rows[..k + 1], g) == Group(rows[..k], g) + (if rows[k].gate == Some(g) then [rows[k]]
                                                                            else [])
    ensures rows[k].gate.Some? && rows[k].gate.value !in Gates(rows[..k]) ==> Group(rows[..k], rows[k].gate.value) == []
  {
    assert rows[..k + 1][..k] == rows[..k];
    var here := rows[..k + 1];
    forall i | 0 <= i < k ensures here[i] == rows[..k][i] {
    }
    if rows[k].gate.Some? {
      assert here[k].gate.value in Gates(here);
      if rows[k].gate.value !in Gates(rows[..k]) {
        GroupIsEmpty(rows[..k], rows[k].gate.value);
      }
    }
    forall g | g in Gates(rows[..k]) ensures g in Gates(here) {
      var i :| 0 <= i < k && rows[..k][i].gate == Some(g);
      assert here[i].gate == Some(g);
    }
  }

  lemma {:induction false} GroupIsEmpty(rows: seq<Job>, g: TextDigest)
    requires g !in Gates(rows)
    ensures Group(rows, g) == []
  {
    if rows != [] {
      var front := rows[..|rows| - 1];
      assert forall i :: 0 <= i < |front| ==> front[i] == rows[i];
      assert rows[|rows| - 1].gate.Some? ==> rows[|rows| - 1].gate.value in Gates(rows);
      GroupIsEmpty(front, g);
    }
  }
}
