/** What the runner-job table of an execution satisfies in every reachable state, and what the gate's
    evidence therefore means. */
module RunnerGateSafety {
  import opened Prelude
  import opened Rows
  import opened Json
  import opened RunnerJobs
  import opened RunnerJobSafety
  import opened RunnerGate
  import C = Checkpoint
  import CheckpointRoundTrip
  import E = ExecutionLeases

  /** The row of command `index` is there. */
  ghost predicate HasJob(jobs: seq<Job>, execution: Text, gate: TextDigest, snapshot: Text, index: nat, c: C.Command) {
    exists i :: 0 <= i < |jobs| && jobs[i].idempotencyKey == Uuid5(execution, gate, index)
                && Matches(jobs[i], gate, snapshot, index, c)
  }

  /** The jobs of `gate` are exactly the commands 0, ..., n - 1 of the checkpoint the digest was made from. */
  ghost predicate Describes(jobs: seq<Job>, execution: Text, gate: TextDigest, message: Text, snapshot: Text,
                            commands: seq<C.Command>) {
    && C.ValidCommands(commands) && C.IsUuid(execution) && Printable(C.CheckpointJson(commands))
    && C.GateDigest(execution, message, snapshot, commands) == C.Success(gate)
    && (forall index: nat :: index < |commands| ==> HasJob(jobs, execution, gate, snapshot, index, commands[index]))
    && (forall i :: 0 <= i < |jobs| && jobs[i].gate == Some(gate)
                    ==> IsCommandRow(jobs[i], execution, gate, snapshot, commands))
  }

  ghost predicate IsCommandRow(job: Job, execution: Text, gate: TextDigest, snapshot: Text, commands: seq<C.Command>) {
    && job.index.Some? && 0 <= job.index.value < |commands|
    && job.idempotencyKey == Uuid5(execution, gate, job.index.value)
    && Matches(job, gate, snapshot, job.index.value, commands[job.index.value])
  }

  ghost predicate Described(jobs: seq<Job>, execution: Text, gate: TextDigest) {
    exists message, snapshot, commands :: Describes(jobs, execution, gate, message, snapshot, commands)
  }

  predicate KeysUnique(jobs: seq<Job>) {
    forall i, j :: 0 <= i < j < |jobs| ==> jobs[i].idempotencyKey != jobs[j].idempotencyKey
  }

  function CheckpointJobs(jobs: seq<Job>): nat {
    if jobs == [] then 0 else CheckpointJobs(jobs[..|jobs| - 1]) + if jobs[|jobs| - 1].gate.Some? then 1 else 0
  }

  /** The invariant of the jobs of one execution. */
  ghost predicate TableInv(jobs: seq<Job>, execution: Text) {
    var holds :=
    && KeysUnique(jobs)
    && AllDescribed(jobs, execution)
    && |Gates(jobs)| <= MAX_CYCLES
    && CheckpointJobs(jobs) <= 8 * |Gates(jobs)|
    && AllSound(jobs);
    holds
  }

  ghost predicate AllDescribed(jobs: seq<Job>, execution: Text) {
    forall g :: g in Gates(jobs) ==> Described(jobs, execution, g)
  }

  ghost predicate SoundJob(job: Job) {
    var holds := JobInv(job) && CkImage(job);
    holds
  }

  ghost predicate AllSound(jobs: seq<Job>) {
    forall i :: 0 <= i < |jobs| ==> SoundJob(jobs[i])
  }

  lemma GateOf(jobs: seq<Job>, i: nat)
    requires i < |jobs| && jobs[i].gate.Some?
    ensures jobs[i].gate.value in Gates(jobs)
  {
  }

  lemma KeyFound(jobs: seq<Job>, i: nat)
    requires KeysUnique(jobs) && i < |jobs|
    ensures FindKey(jobs, jobs[i].idempotencyKey) == Some(jobs[i])
  {
    if i > 0 {
      assert jobs[0].idempotencyKey != jobs[i].idempotencyKey;
      assert KeysUnique(jobs[1..]) by {
        assert forall k :: 0 <= k < |jobs| - 1 ==> jobs[1..][k] == jobs[k + 1];
      }
      KeyFound(jobs[1..], i - 1);
    }
  }

  // ---- Insertion

  function Fresh(execution: Text, b: Binding, gate: TextDigest, snapshot: Text, commands: seq<C.Command>,
                 ids: seq<Text>, n: nat, now: Time): seq<Job>
    requires n <= |commands| == |ids|
  {
    seq(n, i requires 0 <= i < n => NewJob(execution, b, gate, snapshot, i, commands[i], ids[i], now))
  }

  /** A known digest: every command is already there, and nothing is inserted. */
  lemma {:induction false} KnownGateInsertsNothing(execution: Text, b: Binding, gate: TextDigest, snapshot: Text,
                                                   commands: seq<C.Command>,
                                                   ids: seq<Text>, index: nat, jobs: seq<Job>, now: Time)
    requires index <= |commands| == |ids| && KeysUnique(jobs)
    requires forall k: nat :: k < |commands| ==> HasJob(jobs, execution, gate, snapshot, k, commands[k])
    ensures InsertFrom(execution, b, gate, snapshot, commands, ids, index, jobs, now) == Some(jobs)
    decreases |commands| - index
  {
    if index < |commands| {
      assert HasJob(jobs, execution, gate, snapshot, index, commands[index]);
      var i :| 0 <= i < |jobs| && jobs[i].idempotencyKey == Uuid5(execution, gate, index)
               && Matches(jobs[i], gate, snapshot, index, commands[index]);
      KeyFound(jobs, i);
      KnownGateInsertsNothing(execution, b, gate, snapshot, commands, ids, index + 1, jobs, now);
    }
  }

  /** A new digest: either all commands are inserted, or a foreign row has one of their keys. */
  lemma {:induction false} NewGateInsertsAll(execution: Text, b: Binding, gate: TextDigest, snapshot: Text,
                                             commands: seq<C.Command>,
                                             ids: seq<Text>, index: nat, jobs: seq<Job>, now: Time)
    requires index <= |commands| == |ids| && gate !in Gates(jobs)
    ensures var r := InsertFrom(execution, b, gate, snapshot, commands, ids, index,
                                jobs + Fresh(execution, b, gate, snapshot, commands, ids, index, now), now);
            r.Some? ==>
              && r.value == jobs + Fresh(execution, b, gate, snapshot, commands, ids, |commands|, now)
              && forall i, k: nat :: 0 <= i < |jobs| && index <= k < |commands|
                                     ==> jobs[i].idempotencyKey != Uuid5(execution, gate, k)
    decreases |commands| - index
  {
    if index < |commands| {
      var added := Fresh(execution, b, gate, snapshot, commands, ids, index, now);
      var key := Uuid5(execution, gate, index);
      var found := FindKey(jobs + added, key);
      if found.Some? {
        var i :| 0 <= i < |jobs + added| && (jobs + added)[i] == found.value;
        if i < |jobs| && jobs[i].gate.Some? {
          GateOf(jobs, i);
        }
      } else {
        assert forall i :: 0 <= i < |jobs| ==> (jobs + added)[i] == jobs[i];
        assert (jobs + added) + [NewJob(execution, b, gate, snapshot, index, commands[index], ids[index], now)]
            == jobs + Fresh(execution, b, gate, snapshot, commands, ids, index + 1, now);
        NewGateInsertsAll(execution, b, gate, snapshot, commands, ids, index + 1, jobs, now);
      }
    }
  }

  // ---- What keeps the invariant

  /** Rows of other checkpoints, or of none, do not disturb the description of a checkpoint. */
  lemma DescriptionSurvives(jobs: seq<Job>, more: seq<Job>, execution: Text, gate: TextDigest)
    requires Described(jobs, execution, gate) && forall i :: 0 <= i < |more| ==> more[i].gate != Some(gate)
    ensures Described(jobs + more, execution, gate)
  {
    var message, snapshot, commands :| Describes(jobs, execution, gate, message, snapshot, commands);
    var all := jobs + more;
    forall index: nat | index < |commands| ensures HasJob(all, execution, gate, snapshot, index, commands[index]) {
      assert HasJob(jobs, execution, gate, snapshot, index, commands[index]);
      var i :| 0 <= i < |jobs| && jobs[i].idempotencyKey == Uuid5(execution, gate, index)
          && Matches(jobs[i], gate, snapshot, index, commands[index]);
      assert all[i] == jobs[i];
    }
    assert Describes(all, execution, gate, message, snapshot, commands);
  }

  lemma {:induction false} CountAppends(jobs: seq<Job>, more: seq<Job>)
    ensures CheckpointJobs(jobs) + CheckpointJobs(more) == CheckpointJobs(jobs + more)
    ensures CheckpointJobs(more) <= |more|
  {
    if more == [] {
      assert jobs + more == jobs;
    } else {
      CountAppends(jobs, more[..|more| - 1]);
      assert (jobs + more)[..|jobs + more| - 1] == jobs + more[..|more| - 1];
    }
  }

  lemma GatesAppend(jobs: seq<Job>, more: seq<Job>)
    ensures Gates(jobs + more) == Gates(jobs) + Gates(more)
  {
    var all := jobs + more;
    forall g | g in Gates(jobs) ensures g in Gates(all) {
      var i :| 0 <= i < |jobs| && jobs[i].gate == Some(g);
      assert all[i].gate == Some(g);
    }
    forall g | g in Gates(more) ensures g in Gates(all) {
      var i :| 0 <= i < |more| && more[i].gate == Some(g);
      assert all[|jobs| + i].gate == Some(g);
    }
  }

  lemma FreshIsDescribed(execution: Text, b: Binding, gate: TextDigest, message: Text, snapshot: Text,
                         commands: seq<C.Command>, ids: seq<Text>,
                         jobs: seq<Job>, now: Time)
    requires |commands| == |ids| && C.ValidCommands(commands) && C.IsUuid(execution)
             && Printable(C.CheckpointJson(commands))
    requires C.GateDigest(execution, message, snapshot, commands) == C.Success(gate) && gate !in Gates(jobs)
    ensures Describes(jobs + Fresh(execution, b, gate, snapshot, commands, ids, |commands|, now), execution, gate,
                      message, snapshot, commands)
  {
    var added := Fresh(execution, b, gate, snapshot, commands, ids, |commands|, now);
    var all := jobs + added;
    assert forall i :: 0 <= i < |jobs| && jobs[i].gate.Some? ==> jobs[i].gate.value in Gates(jobs);
    forall index: nat | index < |commands| ensures HasJob(all, execution, gate, snapshot, index, commands[index]) {
      assert all[|jobs| + index] == added[index];
    }
    forall i | 0 <= i < |all| && all[i].gate == Some(gate) ensures IsCommandRow(all[i], execution, gate, snapshot,
        commands) {
      assert i >= |jobs|;
    }
  }

  lemma FreshGates(execution: Text, b: Binding, gate: TextDigest, snapshot: Text, commands: seq<C.Command>,
                   ids: seq<Text>, now: Time)
    requires |commands| == |ids| > 0
    ensures var added := Fresh(execution, b, gate, snapshot, commands, ids, |commands|, now);
            && Gates(added) == {gate} && KeysUnique(added) && AllSound(added) && CheckpointJobs(added) <= |added|
            && forall j :: 0 <= j < |added| ==> added[j].idempotencyKey == Uuid5(execution, gate, j)
  {
    var added := Fresh(execution, b, gate, snapshot, commands, ids, |commands|, now);
    assert added[0].gate == Some(gate);
    CountAppends([], added);
  }

  lemma GateCountAppends(jobs: seq<Job>, more: seq<Job>)
    requires Gates(jobs) !! Gates(more)
    ensures |Gates(jobs + more)| == |Gates(jobs)| + |Gates(more)|
  {
    GatesAppend(jobs, more);
  }

  /** Adding rows of checkpoints that are new to the table, or of none. */
  lemma AppendKeeps(jobs: seq<Job>, more: seq<Job>, execution: Text)
    requires TableInv(jobs, execution) && KeysUnique(jobs + more) && AllSound(more) && Gates(jobs) !! Gates(more)
    requires |Gates(jobs)| + |Gates(more)| <= MAX_CYCLES && CheckpointJobs(more) <= 8 * |Gates(more)|
    requires forall g :: g in Gates(more) ==> Described(jobs + more, execution, g)
    ensures TableInv(jobs + more, execution)
  {
    GateCountAppends(jobs, more);
    CountAppends(jobs, more);
    DescriptionsSurvive(jobs, more, execution);
    assert AllSound(jobs + more);
  }

  /** Inserting the jobs of a new checkpoint. */
  lemma InsertionKeeps(execution: Text, b: Binding, gate: TextDigest, message: Text, snapshot: Text,
                       commands: seq<C.Command>, ids: seq<Text>,
                       jobs: seq<Job>, now: Time)
    requires TableInv(jobs, execution) && |commands| == |ids| && C.ValidCommands(commands) && C.IsUuid(execution)
    requires Printable(C.CheckpointJson(commands))
             && C.GateDigest(execution, message, snapshot, commands) == C.Success(gate)
    requires gate !in Gates(jobs) && |Gates(jobs)| < MAX_CYCLES
    requires forall i, k: nat :: 0 <= i < |jobs| && k < |commands|
                                 ==> jobs[i].idempotencyKey != Uuid5(execution, gate, k)
    ensures TableInv(jobs + Fresh(execution, b, gate, snapshot, commands, ids, |commands|, now), execution)
  {
    var added := Fresh(execution, b, gate, snapshot, commands, ids, |commands|, now);
    FreshGates(execution, b, gate, snapshot, commands, ids, now);
    FreshIsDescribed(execution, b, gate, message, snapshot, commands, ids, jobs, now);
    assert KeysUnique(jobs + added) by {
      KeysStayUnique(jobs, added);
    }
    AppendKeeps(jobs, added, execution);
  }

  lemma DescriptionsSurvive(jobs: seq<Job>, more: seq<Job>, execution: Text)
    requires AllDescribed(jobs, execution) && Gates(jobs) !! Gates(more)
    requires forall g :: g in Gates(more) ==> Described(jobs + more, execution, g)
    ensures AllDescribed(jobs + more, execution)
  {
    GatesAppend(jobs, more);
    forall g | g in Gates(jobs) ensures Described(jobs + more, execution, g) {
      assert forall i :: 0 <= i < |more| && more[i].gate.Some? ==> more[i].gate.value in Gates(more);
      DescriptionSurvives(jobs, more, execution, g);
    }
  }

  lemma KeysStayUnique(jobs: seq<Job>, more: seq<Job>)
    requires KeysUnique(jobs) && KeysUnique(more)
    requires forall i, j :: 0 <= i < |jobs| && 0 <= j < |more| ==> jobs[i].idempotencyKey != more[j].idempotencyKey
    ensures KeysUnique(jobs + more)
  {
  }

  /** The table after the checkpoint of `gate` was ensured. */
  ghost predicate EnsuredWell(jobs: seq<Job>, jobs': seq<Job>, execution: Text, gate: TextDigest, message: Text,
                              snapshot: Text, commands: seq<C.Command>) {
    var holds :=
    && TableInv(jobs', execution) && jobs <= jobs'
    && Describes(jobs', execution, gate, message, snapshot, commands)
    && (gate in Gates(jobs) ==> jobs' == jobs);
    holds
  }

  /** `_ensure_runner_checkpoint_jobs` either reports an error and changes no job, or leaves, for the digest it
      returns, exactly jobs 0, ..., n - 1 equal to the commands; other jobs are untouched. */
  lemma EnsureIsAllOrNone(w: E.Worker, lease: E.ExecutionLease, execution: Text, b: Binding, message: Text,
                          snapshot: Text, commands: seq<C.Command>,
                          f: Facts, ids: seq<Text>, u: Unit, jobs: seq<Job>, now: Time)
    requires C.IsUuid(execution) && C.ValidCommands(commands) && Printable(C.CheckpointJson(commands))
             && |ids| == |commands|
    requires TableInv(jobs, execution)
    ensures var tx := Ensure(w, lease, execution, b, message, snapshot, commands, f, ids, u, jobs, now);
            if tx.result.Ensured? then EnsuredWell(jobs, tx.jobs, execution, tx.result.gate, message, snapshot,
                                                   commands)
            else tx.jobs == jobs && tx.unit == u
  {
    var tx := Ensure(w, lease, execution, b, message, snapshot, commands, f, ids, u, jobs, now);
    if tx.result.Ensured? {
      if tx.result.gate in Gates(jobs) {
        KnownCheckpoint(execution, b, tx.result.gate, message, snapshot, commands, ids, jobs, now);
      } else {
        NewCheckpoint(execution, b, tx.result.gate, message, snapshot, commands, ids, jobs, now);
      }
    }
  }

  lemma NewCheckpoint(execution: Text, b: Binding, gate: TextDigest, message: Text, snapshot: Text,
                      commands: seq<C.Command>, ids: seq<Text>,
                      jobs: seq<Job>, now: Time)
    requires C.IsUuid(execution) && C.ValidCommands(commands) && Printable(C.CheckpointJson(commands))
             && |ids| == |commands|
    requires TableInv(jobs, execution) && C.GateDigest(execution, message, snapshot, commands) == C.Success(gate)
    requires gate !in Gates(jobs) && |Gates(jobs)| < MAX_CYCLES
    ensures var r := InsertFrom(execution, b, gate, snapshot, commands, ids, 0, jobs, now);
            r.Some? ==> EnsuredWell(jobs, r.value, execution, gate, message, snapshot, commands)
  {
    NewGateInsertsAll(execution, b, gate, snapshot, commands, ids, 0, jobs, now);
    assert jobs + Fresh(execution, b, gate, snapshot, commands, ids, 0, now) == jobs;
    if InsertFrom(execution, b, gate, snapshot, commands, ids, 0, jobs, now).Some? {
      InsertionKeeps(execution, b, gate, message, snapshot, commands, ids, jobs, now);
      FreshIsDescribed(execution, b, gate, message, snapshot, commands, ids, jobs, now);
    }
  }

  /** A digest already in the table belongs to the very same checkpoint. */
  lemma KnownCheckpoint(execution: Text, b: Binding, gate: TextDigest, message: Text, snapshot: Text,
                        commands: seq<C.Command>, ids: seq<Text>,
                        jobs: seq<Job>, now: Time)
    requires C.IsUuid(execution) && C.ValidCommands(commands) && Printable(C.CheckpointJson(commands))
             && |ids| == |commands|
    requires TableInv(jobs, execution) && C.GateDigest(execution, message, snapshot, commands) == C.Success(gate)
             && gate in Gates(jobs)
    ensures EnsuredWell(jobs, jobs, execution, gate, message, snapshot, commands)
    ensures InsertFrom(execution, b, gate, snapshot, commands, ids, 0, jobs, now) == Some(jobs)
  {
    assert Described(jobs, execution, gate);
    var m, s, c :| Describes(jobs, execution, gate, m, s, c);
    CheckpointRoundTrip.GateDigestIsInjective(execution, message, snapshot, commands, execution, m, s, c);
    KnownGateInsertsNothing(execution, b, gate, snapshot, commands, ids, 0, jobs, now);
  }

  /** Repeating it adds nothing. */
  lemma EnsureIsIdempotent(w: E.Worker, lease: E.ExecutionLease, execution: Text, b: Binding, message: Text,
                           snapshot: Text, commands: seq<C.Command>,
                           f: Facts, ids: seq<Text>, u: Unit, jobs: seq<Job>, now: Time,
                           w': E.Worker, lease': E.ExecutionLease, f': Facts, ids': seq<Text>, u': Unit, later: Time)
    requires C.IsUuid(execution) && C.ValidCommands(commands) && Printable(C.CheckpointJson(commands))
             && |ids| == |ids'| == |commands|
    requires TableInv(jobs, execution)
    ensures var tx := Ensure(w, lease, execution, b, message, snapshot, commands, f, ids, u, jobs, now);
            tx.result.Ensured? ==>
              Ensure(w', lease', execution, b, message, snapshot, commands, f', ids', u', tx.jobs,
                     later).jobs == tx.jobs
  {
    EnsureIsAllOrNone(w, lease, execution, b, message, snapshot, commands, f, ids, u, jobs, now);
    var tx := Ensure(w, lease, execution, b, message, snapshot, commands, f, ids, u, jobs, now);
    if tx.result.Ensured? {
      assert HasJob(tx.jobs, execution, tx.result.gate, snapshot, 0, commands[0]);
      EnsureIsAllOrNone(w', lease', execution, b, message, snapshot, commands, f', ids', u', tx.jobs, later);
    }
  }

  lemma CreateKeeps(execution: Text, key: Key, argv: seq<Text>, timeoutSeconds: int, f: Facts, id: Text, jobs: seq<Job>,
                    now: Time)
    requires TableInv(jobs, execution)
    ensures var r := Create(execution, key, argv, timeoutSeconds, f, id, jobs, now);
            r.Created? ==> TableInv(jobs + [r.job], execution)
  {
    var r := Create(execution, key, argv, timeoutSeconds, f, id, jobs, now);
    if r.Created? {
      ClientJobIsSound(execution, key, argv, timeoutSeconds, f, id, jobs, now);
      KeysStayUnique(jobs, [r.job]);
      AppendKeeps(jobs, [r.job], execution);
    }
  }

  lemma ClientJobIsSound(execution: Text, key: Key, argv: seq<Text>, timeoutSeconds: int, f: Facts, id: Text,
                         jobs: seq<Job>, now: Time)
    requires Create(execution, key, argv, timeoutSeconds, f, id, jobs, now).Created?
    ensures var job := Create(execution, key, argv, timeoutSeconds, f, id, jobs, now).job;
            && SoundJob(job) && Gates([job]) == {} && CheckpointJobs([job]) == 0
            && forall i :: 0 <= i < |jobs| ==> jobs[i].idempotencyKey != job.idempotencyKey
  {
    var job := Create(execution, key, argv, timeoutSeconds, f, id, jobs, now).job;
    assert [job][..0] == [];
  }

  /** The columns the queue never writes. */
  predicate SameOrder(job: Job, job': Job) {
    && job'.idempotencyKey == job.idempotencyKey && job'.gate == job.gate && job'.index == job.index
    && job'.commandLabel == job.commandLabel
    && job'.snapshot == job.snapshot && job'.argv == job.argv && job'.timeoutSeconds == job.timeoutSeconds
  }

  lemma {:induction false} CountIgnores(jobs: seq<Job>, jobs': seq<Job>)
    requires |jobs'| == |jobs| && forall i :: 0 <= i < |jobs| ==> jobs'[i].gate == jobs[i].gate
    ensures CheckpointJobs(jobs') == CheckpointJobs(jobs) && Gates(jobs') == Gates(jobs)
  {
    if jobs != [] {
      CountIgnores(jobs[..|jobs| - 1], jobs'[..|jobs| - 1]);
    }
    forall g | g in Gates(jobs) ensures g in Gates(jobs') {
      var i :| 0 <= i < |jobs| && jobs[i].gate == Some(g);
      assert jobs'[i].gate == Some(g);
    }
  }

  lemma DescriptionsIgnore(jobs: seq<Job>, jobs': seq<Job>, execution: Text)
    requires AllDescribed(jobs, execution) && |jobs'| == |jobs| && forall i ::
             0 <= i < |jobs| ==> SameOrder(jobs[i], jobs'[i])
    ensures AllDescribed(jobs', execution)
  {
    CountIgnores(jobs, jobs');
    forall g | g in Gates(jobs') ensures Described(jobs', execution, g) {
      assert Described(jobs, execution, g);
      var message, snapshot, commands :| Describes(jobs, execution, g, message, snapshot, commands);
      forall index: nat | index < |commands| ensures HasJob(jobs', execution, g, snapshot, index, commands[index]) {
        assert HasJob(jobs, execution, g, snapshot, index, commands[index]);
        var i :| 0 <= i < |jobs| && jobs[i].idempotencyKey == Uuid5(execution, g, index)
            && Matches(jobs[i], g, snapshot, index, commands[index]);
        assert SameOrder(jobs[i], jobs'[i]);
      }
      forall i | 0 <= i < |jobs'| && jobs'[i].gate == Some(g) ensures IsCommandRow(jobs'[i], execution, g, snapshot,
          commands) {
        assert SameOrder(jobs[i], jobs'[i]) && IsCommandRow(jobs[i], execution, g, snapshot, commands);
      }
      assert Describes(jobs', execution, g, message, snapshot, commands);
    }
  }

  lemma TransitionIsSound(job: Job, e: JobEvent, now: Time)
    requires SoundJob(job)
    ensures SoundJob(Committed(e, job, now).job) && SameOrder(job, Committed(e, job, now).job)
  {
    EventKeeps(e, job, now);
  }

  /** A transaction of the runner manager on one of the jobs. */
  lemma TransitionKeeps(jobs: seq<Job>, execution: Text, k: nat, e: JobEvent, now: Time)
    requires TableInv(jobs, execution) && k < |jobs|
    ensures TableInv(jobs[k := Committed(e, jobs[k], now).job], execution)
  {
    TransitionIsSound(jobs[k], e, now);
    ReplacingKeeps(jobs, execution, k, Committed(e, jobs[k], now).job);
  }

  lemma ReplacingKeeps(jobs: seq<Job>, execution: Text, k: nat, job: Job)
    requires TableInv(jobs, execution) && k < |jobs| && SoundJob(job) && SameOrder(jobs[k], job)
    ensures TableInv(jobs[k := job], execution)
  {
    RowsStaySound(jobs, k, job);
    CountIgnores(jobs, jobs[k := job]);
    DescriptionsIgnore(jobs, jobs[k := job], execution);
  }

  lemma RowsStaySound(jobs: seq<Job>, k: nat, job: Job)
    requires k < |jobs| && KeysUnique(jobs) && AllSound(jobs) && SoundJob(job)
             && job.idempotencyKey == jobs[k].idempotencyKey
    ensures KeysUnique(jobs[k := job]) && AllSound(jobs[k := job])
  {
  }

  // ---- Histories of the table

  datatype TableEvent =
    | CheckpointEnsured(worker: E.Worker, lease: E.ExecutionLease, binding: Binding, message: Text, snapshot: Text,
                        commands: seq<C.Command>,
                        facts: Facts, ids: seq<Text>, unit: Unit)
    | ClientAsked(key: Key, argv: seq<Text>, timeoutSeconds: int, facts: Facts, id: Text)
    | JobMoved(k: nat, event: JobEvent)

  /** The gate is only entered with commands that were parsed from a checkpoint. */
  ghost predicate Parsed(e: TableEvent) {
    e.CheckpointEnsured? ==> |e.ids| == |e.commands| && exists text :: C.Parse(text) == C.Success(e.commands)
  }

  ghost function NextTable(execution: Text, e: TableEvent, jobs: seq<Job>, now: Time): seq<Job>
    requires C.IsUuid(execution) && Parsed(e)
  {
    match e
    case CheckpointEnsured(w, lease, b, message, snapshot, commands, f, ids, u) =>
      ParsedIsPrintable(e);
      Ensure(w, lease, execution, b, message, snapshot, commands, f, ids, u, jobs, now).jobs
    case ClientAsked(key, argv, timeoutSeconds, f, id) =>
      var r := Create(execution, key, argv, timeoutSeconds, f, id, jobs, now);
      if r.Created? then jobs + [r.job] else jobs
    case JobMoved(k, event) => if k < |jobs| then jobs[k := Committed(event, jobs[k], now).job] else jobs
  }

  lemma ParsedIsPrintable(e: TableEvent)
    requires e.CheckpointEnsured? && Parsed(e)
    ensures C.ValidCommands(e.commands) && Printable(C.CheckpointJson(e.commands))
  {
    var text :| C.Parse(text) == C.Success(e.commands);
    CheckpointRoundTrip.AcceptedIsValid(text, e.commands);
    CheckpointRoundTrip.CanonicalIsPrintable(e.commands);
  }

  /** From no jobs at all, in any order. */
  ghost predicate TableHistory(execution: Text, tables: seq<seq<Job>>, events: seq<TableEvent>, times: seq<Time>) {
    && C.IsUuid(execution)
    && |tables| == |events| + 1 == |times| + 1 && tables[0] == []
    && forall i :: 0 <= i < |events| ==> Parsed(events[i])
                                         && tables[i + 1] == NextTable(execution, events[i], tables[i], times[i])
  }

  lemma TableStepKeeps(execution: Text, e: TableEvent, jobs: seq<Job>, now: Time)
    requires C.IsUuid(execution) && Parsed(e) && TableInv(jobs, execution)
    ensures TableInv(NextTable(execution, e, jobs, now), execution)
  {
    match e
    case CheckpointEnsured(w, lease, b, message, snapshot, commands, f, ids, u) =>
      ParsedIsPrintable(e);
      EnsureIsAllOrNone(w, lease, execution, b, message, snapshot, commands, f, ids, u, jobs, now);
    case ClientAsked(key, argv, timeoutSeconds, f, id) =>
        CreateKeeps(execution, key, argv, timeoutSeconds, f, id, jobs, now);
    case JobMoved(k, event) => if k < |jobs| { TransitionKeeps(jobs, execution, k, event, now); }
  }

  lemma {:induction false} ReachableTables(execution: Text, tables: seq<seq<Job>>, events: seq<TableEvent>,
                                           times: seq<Time>, i: nat)
    requires TableHistory(execution, tables, events, times) && i < |tables|
    ensures TableInv(tables[i], execution)
  {
    if i > 0 {
      ReachableTables(execution, tables, events, times, i - 1);
      TableStepKeeps(execution, events[i - 1], tables[i - 1], times[i - 1]);
    }
  }

  /** An execution never has more than 4 checkpoint digests nor more than 32 checkpoint jobs, and the jobs of every
      digest are exactly the commands of one checkpoint. */
  lemma CheckpointsAreBounded(execution: Text, tables: seq<seq<Job>>, events: seq<TableEvent>, times: seq<Time>, i: nat)
    requires TableHistory(execution, tables, events, times) && i < |tables|
    ensures |Gates(tables[i])| <= 4 && CheckpointJobs(tables[i]) <= 32
    ensures forall g :: g in Gates(tables[i]) ==> Described(tables[i], execution, g)
  {
    ReachableTables(execution, tables, events, times, i);
  }

  // ---- What the evidence query finds

  /** `rows` are the checkpoint jobs for `snapshot`, each once, ordered by index within each checkpoint. */
  ghost predicate IsQuery(rows: seq<Job>, jobs: seq<Job>, snapshot: Text) {
    && (forall i :: 0 <= i < |rows| ==> rows[i] in jobs && rows[i].snapshot == Some(snapshot) && rows[i].gate.Some?)
    && (forall j :: 0 <= j < |jobs| && jobs[j].snapshot == Some(snapshot) && jobs[j].gate.Some? ==> jobs[j] in rows)
    && KeysUnique(rows)
    && (forall i, j :: 0 <= i < j < |rows| && rows[i].gate == rows[j].gate && rows[i].index.Some?
                       && rows[j].index.Some? ==>
          rows[i].index.value <= rows[j].index.value)
  }

  /** One checkpoint for this very snapshot, all of whose commands were run and succeeded. */
  ghost predicate FullySuccessful(jobs: seq<Job>, execution: Text, gate: TextDigest, message: Text, snapshot: Text,
                                  commands: seq<C.Command>) {
    && Describes(jobs, execution, gate, message, snapshot, commands)
    && forall i :: 0 <= i < |jobs| && jobs[i].gate == Some(gate) ==> Succeeded(jobs[i])
  }

  lemma {:induction false} GroupHolds(rows: seq<Job>, g: TextDigest)
    ensures forall i :: 0 <= i < |Group(rows, g)| ==> Group(rows, g)[i] in rows && Group(rows, g)[i].gate == Some(g)
    ensures forall i :: 0 <= i < |rows| && rows[i].gate == Some(g) ==> rows[i] in Group(rows, g)
  {
    if rows != [] {
      var front := rows[..|rows| - 1];
      GroupHolds(front, g);
      assert forall i :: 0 <= i < |front| ==> front[i] == rows[i];
    }
  }

  /** The group keeps the order of the rows: its indexes ascend strictly. */
  lemma {:induction false} GroupAscends(rows: seq<Job>, execution: Text, g: TextDigest)
    requires KeysUnique(rows)
    requires forall i :: 0 <= i < |rows| && rows[i].gate == Some(g) ==>
               rows[i].index.Some? && rows[i].index.value >= 0
                   && rows[i].idempotencyKey == Uuid5(execution, g, rows[i].index.value)
    requires forall i, j :: 0 <= i < j < |rows| && rows[i].gate == rows[j].gate && rows[i].index.Some?
                            && rows[j].index.Some? ==>
               rows[i].index.value <= rows[j].index.value
    ensures forall i :: 0 <= i < |Group(rows, g)| ==> Group(rows, g)[i].index.Some?
    ensures forall i, j :: 0 <= i < j < |Group(rows, g)|
                           ==> Group(rows, g)[i].index.value < Group(rows, g)[j].index.value
  {
    GroupHolds(rows, g);
    if rows != [] {
      var front, last := rows[..|rows| - 1], rows[|rows| - 1];
      GroupAscends(front, execution, g);
      GroupHolds(front, g);
      if last.gate == Some(g) {
        forall i | 0 <= i < |Group(front, g)| ensures Group(front, g)[i].index.value < last.index.value {
          var k :| 0 <= k < |front| && front[k] == Group(front, g)[i];
          assert rows[k] == front[k] && rows[k].idempotencyKey != last.idempotencyKey;
        }
      }
    }
  }

  /** Strictly ascending numbers below n that include all of 0, ..., n - 1 are 0, 1, 2, ... */
  lemma {:induction false} AscendingIsContiguous(a: seq<int>, n: nat, i: nat)
    requires forall k :: 0 <= k < |a| ==> 0 <= a[k] < n
    requires forall k, l :: 0 <= k < l < |a| ==> a[k] < a[l]
    requires forall v :: 0 <= v < n ==> v in a
    requires i < |a|
    ensures a[i] == i
  {
    if i > 0 {
      AscendingIsContiguous(a, n, i - 1);
    }
    AscendingIsAtLeast(a, |a| - 1);
    assert i in a;
    var p :| 0 <= p < |a| && a[p] == i;
    AscendingIsAtLeast(a, p);
    if p < i {
      AscendingIsContiguous(a, n, p);
    }
  }

  lemma {:induction false} AscendingIsAtLeast(a: seq<int>, i: nat)
    requires forall k :: 0 <= k < |a| ==> 0 <= a[k]
    requires forall k, l :: 0 <= k < l < |a| ==> a[k] < a[l]
    requires i < |a|
    ensures a[i] >= i
  {
    if i > 0 {
      AscendingIsAtLeast(a, i - 1);
    }
  }

  lemma FoundMeansSuccessful(jobs: seq<Job>, rows: seq<Job>, execution: Text, snapshot: Text, g: TextDigest)
    requires TableInv(jobs, execution) && IsQuery(rows, jobs, snapshot) && g in Gates(rows) && Passes(Group(rows, g))
    ensures exists message, commands :: FullySuccessful(jobs, execution, g, message, snapshot, commands)
  {
    var k :| 0 <= k < |rows| && rows[k].gate == Some(g);
    var j :| 0 <= j < |jobs| && jobs[j] == rows[k];
    assert g in Gates(jobs);
    var message, s, commands :| Describes(jobs, execution, g, message, s, commands);
    assert IsCommandRow(jobs[j], execution, g, s, commands);
    GroupHolds(rows, g);
    forall i | 0 <= i < |jobs| && jobs[i].gate == Some(g) ensures Succeeded(jobs[i]) {
      assert IsCommandRow(jobs[i], execution, g, s, commands);
      assert jobs[i] in Group(rows, g);
    }
    assert FullySuccessful(jobs, execution, g, message, snapshot, commands);
  }

  function Indexes(group: seq<Job>): seq<int>
    requires forall i :: 0 <= i < |group| ==> group[i].index.Some?
  {
    seq(|group|, i requires 0 <= i < |group| => group[i].index.value)
  }

  ghost predicate InRows(rows: seq<Job>, g: TextDigest, index: int) {
    exists i :: 0 <= i < |rows| && rows[i].gate == Some(g) && rows[i].index == Some(index)
  }

  /** Every row of the query belongs to its checkpoint, and every command is among them. */
  lemma GroupRows(jobs: seq<Job>, rows: seq<Job>, execution: Text, snapshot: Text, g: TextDigest, message: Text,
                  commands: seq<C.Command>)
    requires IsQuery(rows, jobs, snapshot) && Describes(jobs, execution, g, message, snapshot, commands)
    ensures forall i :: 0 <= i < |rows| && rows[i].gate == Some(g)
                        ==> IsCommandRow(rows[i], execution, g, snapshot, commands)
    ensures forall index :: 0 <= index < |commands| ==> InRows(rows, g, index)
  {
    forall i | 0 <= i < |rows| && rows[i].gate == Some(g) ensures IsCommandRow(rows[i], execution, g, snapshot,
        commands) {
      var j :| 0 <= j < |jobs| && jobs[j] == rows[i];
    }
    forall index | 0 <= index < |commands| ensures InRows(rows, g, index) {
      assert HasJob(jobs, execution, g, snapshot, index, commands[index]);
      var j :| 0 <= j < |jobs| && jobs[j].idempotencyKey == Uuid5(execution, g, index)
          && Matches(jobs[j], g, snapshot, index, commands[index]);
      assert jobs[j] in rows;
      var i :| 0 <= i < |rows| && rows[i] == jobs[j];
    }
  }

  lemma GroupPasses(rows: seq<Job>, execution: Text, g: TextDigest, n: nat)
    requires KeysUnique(rows)
    requires forall i :: 0 <= i < |rows| && rows[i].gate == Some(g) ==>
               rows[i].index.Some? && 0 <= rows[i].index.value < n
                   && rows[i].idempotencyKey == Uuid5(execution, g, rows[i].index.value) && Succeeded(rows[i])
    requires forall i, j :: 0 <= i < j < |rows| && rows[i].gate == rows[j].gate && rows[i].index.Some?
                            && rows[j].index.Some? ==>
               rows[i].index.value <= rows[j].index.value
    requires forall index :: 0 <= index < n ==> InRows(rows, g, index)
    ensures Passes(Group(rows, g))
  {
    GroupHolds(rows, g);
    GroupAscends(rows, execution, g);
    var group := Group(rows, g);
    var indexes := Indexes(group);
    forall i | 0 <= i < |group| ensures 0 <= indexes[i] < n && Succeeded(group[i]) {
      var k :| 0 <= k < |rows| && rows[k] == group[i];
    }
    forall v | 0 <= v < n ensures v in indexes {
      assert InRows(rows, g, v);
      var i :| 0 <= i < |rows| && rows[i].gate == Some(g) && rows[i].index == Some(v);
      var k :| 0 <= k < |group| && group[k] == rows[i];
      assert indexes[k] == v;
    }
    forall i | 0 <= i < |group| ensures group[i].index == Some(i) {
      AscendingIsContiguous(indexes, n, i);
    }
  }

  lemma SuccessfulIsFound(jobs: seq<Job>, rows: seq<Job>, execution: Text, snapshot: Text, g: TextDigest, message: Text,
                          commands: seq<C.Command>)
    requires IsQuery(rows, jobs, snapshot) && FullySuccessful(jobs, execution, g, message, snapshot, commands)
    ensures g in Gates(rows) && Passes(Group(rows, g))
  {
    GroupRows(jobs, rows, execution, snapshot, g, message, commands);
    assert InRows(rows, g, 0);
    forall i | 0 <= i < |rows| && rows[i].gate == Some(g)
      ensures rows[i].idempotencyKey == Uuid5(execution, g, rows[i].index.value) && Succeeded(rows[i])
    {
      assert IsCommandRow(rows[i], execution, g, snapshot, commands);
      var j :| 0 <= j < |jobs| && jobs[j] == rows[i];
    }
    GroupPasses(rows, execution, g, |commands|);
  }

  /** The evidence query finds a passing group exactly when, for this very snapshot, one checkpoint had all of its
      commands inserted, run and finished successfully. */
  lemma EvidenceIsReal(jobs: seq<Job>, rows: seq<Job>, execution: Text, snapshot: Text)
    requires TableInv(jobs, execution) && IsQuery(rows, jobs, snapshot)
    ensures HasSuccess(rows) <==> exists g, message, commands ::
                                  FullySuccessful(jobs, execution, g, message, snapshot, commands)
  {
    if HasSuccess(rows) {
      var g :| g in Gates(rows) && Passes(Group(rows, g));
      FoundMeansSuccessful(jobs, rows, execution, snapshot, g);
    }
    if g, message, commands :| FullySuccessful(jobs, execution, g, message, snapshot, commands) {
      SuccessfulIsFound(jobs, rows, execution, snapshot, g, message, commands);
    }
  }
}
