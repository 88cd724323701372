/** Why the lease must outlast a prompt in flight: whenever a worker vanishes with its prompt on the way and its lease
    ends before the call does, the next worker can send the same prompt a second time. */
module LateDispatch {
  import opened Prelude
  import opened Rows
  import opened Transactions
  import opened Lifecycle
  import opened ControlPlane
  import opened Dispatch
  import opened DispatchSafety
  import E = ExecutionLeases
  import C = CodexBroker
  import W = WorkspaceLeases

  function After(d: World, steps: seq<Step>): World
    decreases |steps|
  {
    if steps == [] then d else After(Do(d, steps[0]), steps[1..])
  }

  lemma FirstStep(d: World, s: Step, rest: seq<Step>)
    ensures After(d, [s] + rest) == After(Do(d, s), rest)
  {
    assert ([s] + rest)[1..] == rest;
  }

  lemma FirstThree(d: World, a: Step, b: Step, c: Step, rest: seq<Step>)
    ensures After(d, [a, b, c] + rest) == After(Do(Do(Do(d, a), b), c), rest)
  {
    assert [a, b, c] + rest == [a] + ([b] + ([c] + rest));
    FirstStep(d, a, [b] + ([c] + rest));
    FirstStep(Do(d, a), b, [c] + rest);
    FirstStep(Do(Do(d, a), b), c, rest);
  }

  /** At `now`, worker `w` holds the queued run under generation `n`, stands at `p`, and a prompt of a vanished worker
      for the session `id` is still on its way. */
  predicate Holds(d: World, w: E.Worker, n: nat, id: string, now: Time, p: Point) {
    var run := d.unit.run;
    var holds :=
    && d.now == now && n in d.threads && d.threads[n] == Thread(w, E.ExecutionLease(n, run.preflightDigest),
                                                                run.deadlineAt, p)
    && E.OwnedRun(w, run, n, now) && run.status.Queued? && run.cancelRequestedAt.None? && w.leaseSeconds > 0
    && run.deadlineAt.Some? && now < run.deadlineAt.value
    && run.sessionId == Some(id) && RowVerified(run)
    && d.prompts == [] && |d.sends| == 1 && d.sends[0].session == id;
    holds
  }

  lemma ReadsContext(d: World, w: E.Worker, n: nat, id: string, now: Time)
    requires Holds(d, w, n, id, now, Begin)
    ensures Holds(Do(d, ReadContext(n)), w, n, id, now, HasContext(Some(id), true))
  {
  }

  lemma Verifies(d: World, w: E.Worker, n: nat, id: string, now: Time)
    requires Holds(d, w, n, id, now, HasContext(Some(id), true))
    ensures Holds(Do(d, VerifyWorkspace(n)), w, n, id, now, SessionReady(id, true))
  {
  }

  lemma LooksUp(d: World, w: E.Worker, n: nat, id: string, now: Time)
    requires Holds(d, w, n, id, now, SessionReady(id, true))
    ensures Holds(Do(d, LookUpMessage(n)), w, n, id, now, SawNoMessage(id, true))
  {
  }

  lemma VerifiesAgain(d: World, w: E.Worker, n: nat, id: string, now: Time)
    requires Holds(d, w, n, id, now, SawNoMessage(id, true))
    ensures Holds(Do(d, VerifyAgain(n)), w, n, id, now, Reverified(id))
  {
  }

  lemma Sends(d: World, w: E.Worker, n: nat, id: string, now: Time)
    requires Holds(d, w, n, id, now, Reverified(id))
    ensures Do(Do(d, SendPrompt(n, W.Trusted, Delivered, "")), SendLands(0)).prompts == [id, id]
  {
    var e := Do(d, SendPrompt(n, W.Trusted, Delivered, ""));
    assert e.prompts == [] + [id] && e.sends == d.sends;
  }

  function SecondWorker(n: nat): seq<Step> {
    [ReadContext(n), VerifyWorkspace(n), LookUpMessage(n), VerifyAgain(n), SendPrompt(n, W.Trusted, Delivered, ""),
     SendLands(0)]
  }

  lemma SecondWorkerPrompts(d: World, w: E.Worker, n: nat, id: string, now: Time)
    requires Holds(d, w, n, id, now, Begin)
    ensures After(d, SecondWorker(n)).prompts == [id, id]
  {
    var a := Do(d, ReadContext(n));
    var b := Do(a, VerifyWorkspace(n));
    var c := Do(b, LookUpMessage(n));
    var e := Do(c, VerifyAgain(n));
    ReadsContext(d, w, n, id, now);
    Verifies(a, w, n, id, now);
    LooksUp(b, w, n, id, now);
    VerifiesAgain(c, w, n, id, now);
    Sends(e, w, n, id, now);
    SixSteps(d, ReadContext(n), VerifyWorkspace(n), LookUpMessage(n), VerifyAgain(n),
             SendPrompt(n, W.Trusted, Delivered, ""), SendLands(0));
  }

  lemma SixSteps(d: World, a: Step, b: Step, c: Step, e: Step, f: Step, g: Step)
    ensures After(d, [a, b, c, e, f, g]) == Do(Do(Do(Do(Do(Do(d, a), b), c), e), f), g)
  {
    assert [a, b, c, e, f, g] == [a, b, c] + ([e, f, g] + []);
    var last := Do(Do(Do(d, a), b), c);
    FirstThree(d, a, b, c, [e, f, g] + []);
    FirstThree(last, e, f, g, []);
  }

  /** The worker of generation `g` stands before the gate with less lease left than a call may take. */
  ghost predicate LateAtGate(d: World, g: nat, root: string) {
    && Inv(d, root) && !d.late && HasThread(d, g) && d.threads[g].at.Reverified?
    && E.OwnedRun(d.threads[g].worker, d.unit.run, g, d.now) && d.unit.run.status.Queued?
    && d.unit.run.cancelRequestedAt.None?
    && d.unit.run.leaseExpiresAt.value < d.now + CALL_LIMIT
    && d.unit.run.deadlineAt.Some? && d.unit.run.leaseExpiresAt.value < d.unit.run.deadlineAt.value
  }

  /** It crashes in the call; when the lease is over, `w` claims the run. */
  function TakenOver(g: nat, expiry: Time, w: E.Worker): seq<Step> {
    [SendPrompt(g, W.Trusted, CrashedWhileSending(false), ""), Tick(expiry), Claim(w, "")]
  }

  lemma TakeOver(d: World, g: nat, w: E.Worker, root: string)
    requires LateAtGate(d, g, root) && w.root == root && w.leaseSeconds * SECOND >= MINIMUM_LEASE
    ensures var e := d.unit.run.leaseExpiresAt.value;
            Holds(Do(Do(Do(d, SendPrompt(g, W.Trusted, CrashedWhileSending(false), "")), Tick(e)), Claim(w, "")),
                  w, g + 1, d.threads[g].at.id, e, Begin)
  {
    CurrentIsAlone(d, g);
    var e := d.unit.run.leaseExpiresAt.value;
    var a := Do(d, SendPrompt(g, W.Trusted, CrashedWhileSending(false), ""));
    assert a.unit == d.unit && a.now == d.now && a.prompts == [] && a.creations == [];
    assert a.sends == [Flight(g, d.threads[g].at.id, d.now + CALL_LIMIT)];
    var b := Do(a, Tick(e));
    assert b == a.(now := e);
    ClaimSucceeds(w, b.unit, root, e);
  }

  lemma ClaimSucceeds(w: E.Worker, u: Unit, root: string, now: Time)
    requires UnitInv(u, root) && u.run.backend.OpenCode? && u.run.status.Queued? && w.root == root
    requires u.run.leaseExpiresAt.Some? && u.run.leaseExpiresAt.value <= now && u.run.deadlineAt.Some?
    ensures E.ClaimRun(w, u, "", now)
         == Tx(u.(run := E.Renewed(w, u.run, now).(leaseGeneration := u.run.leaseGeneration + 1,
                                                   leaseOwner := Some(w.id))),
               Claimed(u.run.leaseGeneration + 1, u.ws.version))
  {
  }

  /** The rest of the worker's crash: the next worker takes over and prompts, and the first prompt lands after all. */
  function PromptsTwice(d: World, g: nat, w: E.Worker): seq<Step>
    requires LateAtGate(d, g, w.root)
  {
    TakenOver(g, d.unit.run.leaseExpiresAt.value, w) + SecondWorker(g + 1)
  }

  /** From every such world two prompts can take effect, so the condition of `AtMostOneSessionAndPrompt`
      cannot be dropped. */
  lemma LateCrashPromptsTwice(d: World, g: nat, w: E.Worker)
    requires LateAtGate(d, g, w.root) && w.leaseSeconds * SECOND >= MINIMUM_LEASE && w.id != C.CODEX_WORKER
    ensures After(d, PromptsTwice(d, g, w)).prompts == [d.threads[g].at.id, d.threads[g].at.id]
    ensures AreSensible(PromptsTwice(d, g, w), w.root)
  {
    TakeOver(d, g, w, w.root);
    TakesOverAndPrompts(d, g, d.unit.run.leaseExpiresAt.value, w, d.threads[g].at.id);
    TakingOverIsSensible(g, d.unit.run.leaseExpiresAt.value, w);
  }

  lemma TakesOverAndPrompts(d: World, g: nat, e: Time, w: E.Worker, id: string)
    requires Holds(Do(Do(Do(d, SendPrompt(g, W.Trusted, CrashedWhileSending(false), "")), Tick(e)), Claim(w, "")), w,
                   g + 1, id, e, Begin)
    ensures After(d, TakenOver(g, e, w) + SecondWorker(g + 1)).prompts == [id, id]
  {
    SecondWorkerPrompts(Do(Do(Do(d, SendPrompt(g, W.Trusted, CrashedWhileSending(false), "")), Tick(e)), Claim(w, "")),
                        w, g + 1, id, e);
    FirstThree(d, SendPrompt(g, W.Trusted, CrashedWhileSending(false), ""), Tick(e), Claim(w, ""), SecondWorker(g + 1));
  }

  predicate AreSensible(steps: seq<Step>, root: string) {
    forall i :: 0 <= i < |steps| ==> Sensible(steps[i], root)
  }

  lemma TakingOverIsSensible(g: nat, e: Time, w: E.Worker)
    requires w.id != C.CODEX_WORKER
    ensures AreSensible(TakenOver(g, e, w) + SecondWorker(g + 1), w.root)
  {
  }

  // ---- Such a world is reached from the very beginning

  const ROOT := "/a"

  function Zeros(n: nat): string {
    seq(n, _ => '0')
  }

  function FirstWorker(): E.Worker {
    E.Worker("w", 60, 7200, ROOT)
  }

  function Manager(): W.Config {
    W.Config("m", 600, 1, 1, 1, ROOT)
  }

  function NewUnit(): Unit {
    StartedUnit(1, 2, 3, 4, Zeros(40), 7200, ROOT, TaskStatus.InProgress, 0)
  }

  function NewWorld(): World {
    World(NewUnit(), 0, map[], [], [], [], [], [], false)
  }

  lemma ZerosAreCommits()
    ensures NormalizeCommit(Zeros(40)) == Some(Zeros(40)) && IsHex64(Zeros(64))
  {
    assert Lower(Zeros(40)) == Zeros(40);
  }

  lemma NewWorldIsInitial()
    ensures Initial(NewWorld(), ROOT)
  {
    ZerosAreCommits();
  }

  function ClaimForPreparation(): Step {
    Background(ByManager(Manager(), W.Lease(W.Prepare, 0, 0, 2, Zeros(40), Path(ROOT, 4)), ClaimWorkspace), "")
  }

  function Prepare(): Step {
    Background(ByManager(Manager(), W.Lease(W.Prepare, 1, 2, 2, Zeros(40), Path(ROOT, 4)),
                         PrepareDone(W.Prepared(Zeros(40), 0, Zeros(64)), W.Trusted)), "")
  }

  lemma ClaimsForPreparation()
    ensures W.Claim(Manager(), NewUnit(), "", 0) == Tx(LeasedUnit(), Claimed(1, 2))
  {
    ZerosAreCommits();
  }

  /** The rows once the workspace manager has claimed the workspace. */
  function LeasedUnit(): Unit {
    NewUnit().(ws := NewUnit().ws.(generation := 1, version := 2, status := WsPreparing, startedAt := Some(0),
                                   nextAttemptAt := None,
                                   leaseOwner := Some("m"), leaseExpiresAt := Some(600 * SECOND)))
  }

  function PreparedTx(u: Unit): Tx {
    W.MarkPrepareSuccess(Manager(), u, W.Lease(W.Prepare, 1, 2, 2, Zeros(40), Path(ROOT, 4)),
                         W.Prepared(Zeros(40), 0, Zeros(64)),
                         W.Trusted, "", 0)
  }

  lemma PreparesUnit()
    ensures PreparedTx(LeasedUnit()).unit.run
         == NewUnit().run.(status := Queued, stage := DispatchPending, workspaceTree := Some(Zeros(40)),
                           preflightDigest := Some(Zeros(64)), preflightCompletedAt := Some(0))
  {
    ZerosAreCommits();
  }

  /** The prepared run, queued for dispatch. */
  ghost predicate IsQueued(d: World) {
    && d == NewWorld().(unit := d.unit)
    && d.unit.run == NewUnit().run.(status := Queued, stage := DispatchPending, workspaceTree := Some(Zeros(40)),
                                    preflightDigest := Some(Zeros(64)), preflightCompletedAt := Some(0))
  }

  lemma PreparesRun()
    ensures IsQueued(Do(Do(NewWorld(), ClaimForPreparation()), Prepare()))
  {
    LeasesRun(NewWorld());
    PreparesLeased(NewWorld().(unit := LeasedUnit()));
    PreparesUnit();
  }

  lemma LeasesRun(d: World)
    requires d.unit == NewUnit() && d.now == 0
    ensures Do(d, ClaimForPreparation()) == d.(unit := LeasedUnit())
  {
    ClaimsForPreparation();
  }

  lemma PreparesLeased(d: World)
    requires d.unit == LeasedUnit() && d.now == 0
    ensures Do(d, Prepare()) == d.(unit := PreparedTx(LeasedUnit()).unit)
  {
  }

  /** The first worker holds the queued run and stands at `p`; `live` are the sessions created so far. */
  predicate Stands(d: World, p: Point, session: Option<string>, live: seq<string>) {
    var run := d.unit.run;
    var holds :=
    && d.now == 0 && 1 in d.threads && d.threads[1] == Thread(FirstWorker(), E.ExecutionLease(1, Some(Zeros(64))),
                                                              run.deadlineAt, p)
    && run.status.Queued? && run.cancelRequestedAt.None? && run.leaseOwner == Some("w") && run.leaseGeneration == 1
    && run.leaseExpiresAt == Some(60 * SECOND) && run.deadlineAt == Some(7200 * SECOND)
    && run.preflightDigest == Some(Zeros(64)) && run.sessionId == session
    && d.created == live && d.live == live && d.prompts == [] && d.sends == [] && !d.late;
    holds
  }

  lemma FirstClaim(d: World)
    requires Inv(d, ROOT) && IsQueued(d)
    ensures Stands(Do(d, Claim(FirstWorker(), "")), Begin, None, []) && Do(d, Claim(FirstWorker(), "")).creations == []
  {
    UnitIsSound(d);
    QueuedIsClaimed(FirstWorker(), d.unit);
    ClaimStands(d, E.ClaimRun(FirstWorker(), d.unit, "", 0));
  }

  lemma UnitIsSound(d: World)
    requires Inv(d, ROOT)
    ensures UnitInv(d.unit, ROOT)
  {
  }

  lemma ClaimStands(d: World, tx: Tx)
    requires IsQueued(d) && E.ClaimRun(FirstWorker(), d.unit, "", 0) == tx
    requires tx.outcome.Claimed? && tx.unit.run == E.Renewed(FirstWorker(), d.unit.run, 0).(leaseGeneration := 1,
             leaseOwner := Some("w"))
    ensures Stands(Do(d, Claim(FirstWorker(), "")), Begin, None, []) && Do(d, Claim(FirstWorker(), "")).creations == []
  {
  }

  lemma QueuedIsClaimed(w: E.Worker, u: Unit)
    requires UnitInv(u, ROOT) && u.run.backend.OpenCode? && u.run.status.Queued? && w.root == ROOT
    requires u.run.leaseExpiresAt.None? && u.run.deadlineAt.Some?
    ensures E.ClaimRun(w, u, "", 0)
         == Tx(u.(run := E.Renewed(w, u.run, 0).(leaseGeneration := u.run.leaseGeneration + 1,
                                                 leaseOwner := Some(w.id))),
               Claimed(u.run.leaseGeneration + 1, u.ws.version))
  {
  }

  /** From the claim to the list of sessions, which is empty. */
  lemma FindsNoSession(d: World)
    requires Stands(d, Begin, None, []) && d.creations == []
    ensures var e := Do(Do(Do(d, ReadContext(1)), VerifyWorkspace(1)), ListSessions(1));
            exists v :: Stands(e, SawNoSession(v), None, []) && e.creations == []
  {
    var a := Do(d, ReadContext(1));
    var v := RowVerified(d.unit.run);
    assert Stands(a, HasContext(None, v), None, []);
    var b := Do(a, VerifyWorkspace(1));
    assert Stands(b, Verified(None, v), None, []);
    assert Stands(Do(b, ListSessions(1)), SawNoSession(v), None, []);
  }

  lemma CreatesSession(d: World, v: bool)
    requires Stands(d, SawNoSession(v), None, []) && d.creations == []
    ensures var e := Do(Do(Do(Do(d, RenewAndCreate(1)), CreationLands(0, "s")), CreationReturns(1, true)),
                        PersistSessionId(1));
            Stands(e, SessionReady("s", v), Some("s"), ["s"]) && e.creations == []
  {
    Creates(d, v);
    var a := Do(d, RenewAndCreate(1));
    Lands(a, v);
    var b := Do(a, CreationLands(0, "s"));
    Persists(b, v);
  }

  lemma Creates(d: World, v: bool)
    requires Stands(d, SawNoSession(v), None, []) && d.creations == []
    ensures var a := Do(d, RenewAndCreate(1)); Stands(a, Creating(None, v), None, [])
                                               && a.creations == [Flight(1, "", CALL_LIMIT)]
  {
  }

  lemma Lands(d: World, v: bool)
    requires Stands(d, Creating(None, v), None, []) && d.creations == [Flight(1, "", CALL_LIMIT)]
    ensures var b := Do(d, CreationLands(0, "s")); Stands(b, Creating(Some("s"), v), None, ["s"]) && b.creations == []
  {
    assert Without(d.creations, 0) == [] && [] + ["s"] == ["s"];
  }

  lemma Persists(d: World, v: bool)
    requires Stands(d, Creating(Some("s"), v), None, ["s"]) && d.creations == []
    ensures var e := Do(Do(d, CreationReturns(1, true)), PersistSessionId(1));
            Stands(e, SessionReady("s", v), Some("s"), ["s"]) && e.creations == []
  {
    assert Stands(Do(d, CreationReturns(1, true)), Persisting("s", v), None, ["s"]);
  }

  /** Up to the gate, where the worker waits for forty seconds. */
  lemma ComesToGate(d: World, v: bool)
    requires Stands(d, SessionReady("s", v), Some("s"), ["s"]) && d.creations == []
    ensures var b := Do(Do(d, LookUpMessage(1)), VerifyAgain(1)); Stands(b, Reverified("s"), Some("s"), ["s"])
                                                                  && b.creations == []
  {
    assert Stands(Do(d, LookUpMessage(1)), SawNoMessage("s", v), Some("s"), ["s"]);
  }

  lemma WaitsTooLong(d: World)
    requires Stands(d, Reverified("s"), Some("s"), ["s"]) && d.creations == [] && Inv(Do(d, Tick(40 * SECOND)), ROOT)
    ensures LateAtGate(Do(d, Tick(40 * SECOND)), 1, ROOT) && Do(d, Tick(40 * SECOND)).threads[1].at.id == "s"
  {
    assert Do(d, Tick(40 * SECOND)) == d.(now := 40 * SECOND);
  }

  lemma ThreeKeep(d: World, a: Step, b: Step, c: Step, root: string)
    requires Inv(d, root) && Sensible(a, root) && Sensible(b, root) && Sensible(c, root)
    ensures Inv(Do(Do(Do(d, a), b), c), root)
  {
    StepKeeps(d, a, root);
    StepKeeps(Do(d, a), b, root);
    StepKeeps(Do(Do(d, a), b), c, root);
  }

  /** The worker creates the session, verifies the workspace, waits forty seconds for the lock on the repository, and
      stands before the gate. */
  function TooSlow(): seq<Step> {
    [ClaimForPreparation(), Prepare(), Claim(FirstWorker(), "")] + AfterClaim()
  }

  function AfterClaim(): seq<Step> {
    [ReadContext(1), VerifyWorkspace(1), ListSessions(1)] + AfterListing()
  }

  function AfterListing(): seq<Step> {
    [RenewAndCreate(1), CreationLands(0, "s"), CreationReturns(1, true)] + AfterCreation()
  }

  function AfterCreation(): seq<Step> {
    [PersistSessionId(1), LookUpMessage(1), VerifyAgain(1)] + [Tick(40 * SECOND)]
  }

  lemma TooSlowIsSensible()
    ensures AreSensible(TooSlow(), ROOT)
  {
  }

  lemma LateAtGateIsReached()
    ensures Initial(NewWorld(), ROOT) && LateAtGate(After(NewWorld(), TooSlow()), 1, ROOT)
    ensures After(NewWorld(), TooSlow()).threads[1].at.id == "s"
  {
    NewWorldIsInitial();
    InitialIsSound(NewWorld(), ROOT);
    PreparesRun();
    var a := Do(Do(NewWorld(), ClaimForPreparation()), Prepare());
    StepKeeps(NewWorld(), ClaimForPreparation(), ROOT);
    StepKeeps(Do(NewWorld(), ClaimForPreparation()), Prepare(), ROOT);
    FirstClaim(a);
    var b := Do(a, Claim(FirstWorker(), ""));
    StepKeeps(a, Claim(FirstWorker(), ""), ROOT);
    FirstThree(NewWorld(), ClaimForPreparation(), Prepare(), Claim(FirstWorker(), ""), AfterClaim());
    FromClaimToGate(b);
  }

  lemma FromClaimToGate(b: World)
    requires Inv(b, ROOT) && Stands(b, Begin, None, []) && b.creations == []
    ensures LateAtGate(After(b, AfterClaim()), 1, ROOT) && After(b, AfterClaim()).threads[1].at.id == "s"
  {
    var c := Do(Do(Do(b, ReadContext(1)), VerifyWorkspace(1)), ListSessions(1));
    ThreeKeep(b, ReadContext(1), VerifyWorkspace(1), ListSessions(1), ROOT);
    FirstThree(b, ReadContext(1), VerifyWorkspace(1), ListSessions(1), AfterListing());
    FindsNoSession(b);
    var v :| Stands(c, SawNoSession(v), None, []);
    FromListToGate(c, v);
  }

  lemma FromListToGate(c: World, v: bool)
    requires Inv(c, ROOT) && Stands(c, SawNoSession(v), None, []) && c.creations == []
    ensures LateAtGate(After(c, AfterListing()), 1, ROOT) && After(c, AfterListing()).threads[1].at.id == "s"
  {
    var m := Do(Do(Do(c, RenewAndCreate(1)), CreationLands(0, "s")), CreationReturns(1, true));
    ThreeKeep(c, RenewAndCreate(1), CreationLands(0, "s"), CreationReturns(1, true), ROOT);
    FirstThree(c, RenewAndCreate(1), CreationLands(0, "s"), CreationReturns(1, true), AfterCreation());
    CreatesSession(c, v);
    FromCreationToGate(m, v);
  }

  lemma FromCreationToGate(m: World, v: bool)
    requires Inv(m, ROOT) && Stands(Do(m, PersistSessionId(1)), SessionReady("s", v), Some("s"), ["s"])
    requires Do(m, PersistSessionId(1)).creations == []
    ensures LateAtGate(After(m, AfterCreation()), 1, ROOT) && After(m, AfterCreation()).threads[1].at.id == "s"
  {
    var e := Do(m, PersistSessionId(1));
    var f := Do(Do(e, LookUpMessage(1)), VerifyAgain(1));
    ThreeKeep(m, PersistSessionId(1), LookUpMessage(1), VerifyAgain(1), ROOT);
    StepKeeps(f, Tick(40 * SECOND), ROOT);
    FirstThree(m, PersistSessionId(1), LookUpMessage(1), VerifyAgain(1), [Tick(40 * SECOND)]);
    FirstStep(f, Tick(40 * SECOND), []);
    ComesToGate(e, v);
    WaitsTooLong(f);
  }

  lemma {:induction false} AfterBoth(d: World, s: seq<Step>, t: seq<Step>)
    ensures After(d, s + t) == After(After(d, s), t)
    decreases |s|
  {
    if s == [] {
      assert s + t == t;
    } else {
      assert (s + t)[0] == s[0] && (s + t)[1..] == s[1..] + t;
      AfterBoth(Do(d, s[0]), s[1..], t);
    }
  }

  /** So an execution that has just been started can be prompted twice, with two workers whose leases are of
      the minimum. */
  lemma TwoPromptsAreReachable()
    ensures Initial(NewWorld(), ROOT)
    ensures exists steps :: AreSensible(steps, ROOT) && After(NewWorld(), steps).prompts == ["s", "s"]
  {
    LateAtGateIsReached();
    TooSlowIsSensible();
    var d := After(NewWorld(), TooSlow());
    LateCrashPromptsTwice(d, 1, SecondClaimant());
    BothAreSteps(NewWorld(), TooSlow(), PromptsTwice(d, 1, SecondClaimant()), ["s", "s"]);
  }

  lemma BothAreSteps(d: World, s: seq<Step>, t: seq<Step>, prompts: seq<string>)
    requires AreSensible(s, ROOT) && AreSensible(t, ROOT) && After(After(d, s), t).prompts == prompts
    ensures exists steps :: AreSensible(steps, ROOT) && After(d, steps).prompts == prompts
  {
    AfterBoth(d, s, t);
    assert AreSensible(s + t, ROOT);
  }

  function SecondClaimant(): E.Worker {
    E.Worker("x", 60, 7200, ROOT)
  }
}
