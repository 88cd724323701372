# AI Orchestra: a verified model of the control plane

AI Orchestra runs tasks through several worker processes that share PostgreSQL rows. They coordinate only through
leases, generations and deadlines in those rows. This project models that machinery in Dafny and proves what it is for.

| part | modules | what is proved |
|---|---|---|
| executions, workspaces, tasks, result packages | `Rows`, `Transactions`, `WorkspaceLeases`, `ExecutionLeases`, `CodexBroker`, `ControlApi`, `ExecutionKeeps`, `WorkspaceKeeps`, `CodexKeeps`, `Lifecycle`, `ControlPlane`, `Histories`, `Fencing` | one inductive invariant of the whole database over every interleaving of every transaction, fencing of both lease managers, immutability of final packages, the subscription protocol |
| dispatch and observation | `Dispatch`, `DispatchSafety`, `LateDispatch`, `ExecutionWorker` | at most one OpenCode session per execution, at most one prompt unless a lease was too short for a call in flight (and then two can be reached), no prompt before verification, completion only through the gate and before the deadline, timeouts and cancellations only after every listed session was stopped |
| runner jobs and the checkpoint gate | `RunnerJobs`, `RunnerJobSafety`, `RunnerGate`, `RunnerGateSafety` | row constraints for arbitrary broker responses, all-or-nothing idempotent insertion, bounds over every history, the evidence query is exact |
| the checkpoint text | `Json`, `JsonRoundTrip`, `Checkpoint`, `CheckpointRoundTrip`, `CheckpointExceptions` | printing and parsing JSON, the exact condition of the checkpoint round trip, exactly which texts end in an uncaught exception, an injective gate digest |
| the audit notifier | `Notifier`, `MessageLimiter`, `IsoTime` | complete and never repeated delivery across outages, the rate limit, text order of timestamps |
| the source snapshot | `SourceSnapshot`, `SnapshotIdentity` | equal streams come from equal trees; listing order is irrelevant |
| git status | `Porcelain`, `PorcelainRoundTrip`, `Utf8`, `Orders` | for files and directories with renames in the first column, the parser recovers the set of paths iff no path ends in a slash; a rename is read iff its letter is in the first column |
| repositories | `Repositories`, `RepositorySafety` | constraints, fencing against manager edits |

How it is built. Each transaction on locked rows is a specification function from the old rows to the new rows and an
outcome. The lease managers, the broker, the endpoints and the loops are classes and methods that assign field by field
as the program does; each is proved equal to its specification function. The theorems are about those functions, in any
order, by any number of workers, with crashes.

Instants are integers in microseconds. Digests are injective symbolic functions, and so is UUID version 5. Identifiers
drawn at random are fresh. What a transaction reads from outside (a payload, a Git result, a broker answer, a clock)
is a parameter, unconstrained unless said so below.

## Facts the model takes from the deployment

- Execution workers do not use the name of the subscription worker; every workspace manager uses the workspace root of
  the API; a manager reports the result of the operation its lease was issued for.
- The clock behind the leases of executions, workspaces, jobs and repositories is not set back. The notifier theorems do
  not need this.
- A transaction's time is the reading used for its ownership check. The subscription endpoints read the clock again
  later; both readings are in the model.
- Dispatch: leases last at least 60 seconds (control_plane/app/execution_worker.py:2106-2111); a call to OpenCode settles
  within 30 seconds (opencode_client.py:152), also when its worker vanished; the listing of sessions is complete; the row
  lock makes the prompt call and its commit one step.

## What the proofs found

- `_invalidate_binding` on a terminal run leaves a provisional package beside an `invalid` workspace
  (workspace_manager.py:284-325). `WorkspaceKeeps.ForeignRootBreaksExactlyInspections` says exactly when that is reached,
  `WorkspaceKeeps.ForeignRootExample` shows such a row.
- A `cleanup_uncertain` broker response may carry an image id of the wrong length, which `ck_runner_jobs_image_id`
  refuses at commit (runner_manager.py:544-549, models.py:612-615). `RunnerJobSafety.ImageConstraintFailsExactly`
  says for which replies, `RunnerJobSafety.ImageConstraintFailsHere` shows one.
- The retry exponent of runner jobs is capped at 16, so some delay falls short of the plain doubling exactly when the
  maximum exceeds base * 65536. `RunnerJobSafety.CapsInUse`.
- `parse_runner_checkpoint` lets exceptions other than `RunnerCheckpointError` through, exactly when both delimiters occur
  once with the closing one first, when a standalone payload holds an integer of more than 4300 digits that the parser
  reaches, or when the first fault of a standalone payload is a lone surrogate in an argument.
  `CheckpointExceptions.UncaughtExactly`, with a text for each of the three. A version of `true` or `1.0` is accepted, as
  `== 1` does. `CheckpointExceptions.VersionReparsesExactly`.
- A rename or copy shown only in the second status column is misread.
  `PorcelainRoundTrip.RenameReadsExactlyInFirstColumn`. A directory entry (git prints ignored directories with a trailing
  slash) makes the whole inspection fail. `PorcelainRoundTrip.StatusIsReadExactly`.
- The trust gate in front of the dispatch prompt renews the lease without committing before the call, and waits for a lock
  without a bound (execution_worker.py:1557-1612). If the worker vanishes in the call with less than 30 seconds left, the
  next worker can prompt again while the first prompt still lands. `LateDispatch.TwoPromptsAreReachable`; from
  `LateDispatch.LateCrashPromptsTwice` it follows that the condition of `DispatchSafety.AtMostOneSessionAndPrompt` cannot
  be dropped.
- `request_safety_cancel` never changes a row of a contract-v2 run. `DispatchSafety.SafetyCancelNeverActs`.
- `MessageLimiter` with a limit of zero or less raises on its first call. `MessageLimiter.MessageLimiter.WaitTurn`.
- The snapshot does not cover the mode of the root directory. `SnapshotIdentity.RootModeIsIgnored`.

## Model

Theorems over whole histories come first, then what one transaction keeps. Rows of methods come last: they follow the
program step by step, and their contracts equate the new rows with the functions the theorems above them are about.

| member | source | states |
|---|---|---|
| `Histories.ReachableIsSound` | control_plane/app/models.py:161-227 | in every reachable state of the tables every contract-v2 run satisfies the whole invariant, and with it every `ck_task_workspaces_*`, `ck_execution_runs_*` and `ck_execution_result_packages_*` constraint on the modelled columns |
| `Histories.StatusesAreCoupled` | control_plane/app/workspace_manager.py:427-1039 | in every reachable state: run `preparing` iff workspace pending, preparing or unavailable; run `queued` or `running` iff workspace `ready`; otherwise run terminal; and a task has at most one run that is not terminal |
| `Histories.PackagesFollowInspections` | control_plane/app/evidence.py:646-705 | in every reachable state a package is provisional iff its workspace waits for or is under inspection; a run has a package iff it is terminal and was not cancelled before preparation; the digest is that of the payload and a final package has its time |
| `Histories.NoTransactionMeetsAnImmutablePackage` | control_plane/app/evidence.py:661-684 | no reachable transaction raises `final_result_package_is_immutable` |
| `Histories.HistoryFixes` | control_plane/app/main.py:1538-1654 | between any two states of any history: runs are never lost, terminal rows and their reports never change, final packages never change, a requested cancellation is never cleared and then neither completes nor goes from queued to running, session id, preflight digest and deadline stay, a subscription run never steps back |
| `Histories.CompletionIsEarned` | control_plane/app/codex_broker.py:272-346 | a completed OpenCode run finished strictly before its deadline; a completed subscription run has exactly one completed report per role in the order architect, qa, reviewer, all under the claimed generation with matching checksum, and its result is the reviewer's text |
| `Histories.ClaimedAtMostOnce` | control_plane/app/codex_broker.py:149-199 | over any history a subscription run is handed out by at most one claim |
| `Histories.OwnershipIsPassing` | control_plane/app/execution_worker.py:356-377 | the ownership checks of the execution and the workspace manager are exactly the ticket check of the fencing theory |
| `Histories.DeadExecutionLeaseIsPowerless` | control_plane/app/execution_worker.py:356-399 | an execution lease that failed the ownership check once fails it in every later state and at every later time, and every method called with it leaves the rows unchanged |
| `Histories.DeadWorkspaceLeaseIsPowerless` | control_plane/app/workspace_manager.py:559-603 | the same for a workspace lease and every `mark_*` and heartbeat of the workspace manager |
| `Histories.IssuedLeasesNeverOverlap` | control_plane/app/workspace_manager.py:427-557 | leases handed out by two claims of the same row, in any history, never pass the ownership check together, in any state of the row |
| `Histories.ActionCommits` | control_plane/app/execution_worker.py:268-958 | after a transaction of the history, the rows of its execution are exactly the ones it computed from the rows before |
| `Histories.RunningSubscriptionIsHeld` | control_plane/app/main.py:1605-1634 | in every reachable state a running subscription run has the subscription worker as its owner and an expiry, so the abort endpoint never refuses it for a missing lease |
| `Histories.WorkspacesHaveRuns` | control_plane/app/workspace_manager.py:459-465 | in every history that starts without workspaces each workspace belongs to a run, so the branch for one without its execution is never taken |
| `Histories.FreshExecutionLeasePasses` | control_plane/app/execution_worker.py:301-354 | a lease just handed out passes the ownership check exactly until it expires |
| `Histories.FreshWorkspaceLeasePasses` | control_plane/app/workspace_manager.py:513-557 | the same for a workspace lease |
| `DispatchSafety.AtMostOneSessionAndPrompt` | control_plane/app/execution_worker.py:1823-1900 | over every run of the dispatch machine (any generations, crashes, reported-but-effective calls): at most one session is ever created, every prompt goes to the session the row names, and at most one prompt takes effect unless some worker vanished with a prompt in flight when the lease on the row had less than 30 seconds left |
| `DispatchSafety.PromptedMeansVerified` | control_plane/app/execution_worker.py:1567-1632 | whenever the prompt exists or is on its way, the row already holds a runtime preflight digest equal to its preflight digest |
| `DispatchSafety.SafetyCancelNeverActs` | control_plane/app/execution_worker.py:490-525 | the safety cancellation changes no row in any run of dispatch |
| `DispatchSafety.StepKeeps` | control_plane/app/execution_worker.py:1836-1880 | every step of every thread and of the world keeps the protocol invariant: a call in flight was made under the current lease, which outlives it |
| `DispatchSafety.ClaimKeeps` | control_plane/app/execution_worker.py:268-354 | a new generation only starts when nothing of an older one is in flight |
| `DispatchSafety.LandedKeeps` | control_plane/app/execution_worker.py:1600-1632 | a prompt that landed although its worker vanished is counted, and the state stays sound |
| `LateDispatch.TwoPromptsAreReachable` | control_plane/app/execution_worker.py:1557-1612 | from the rows `start_execution` inserted, a run of the dispatch machine in which two prompts take effect |
| `LateDispatch.LateCrashPromptsTwice` | control_plane/app/execution_worker.py:1597-1612 | the same from every sound state in which a worker stands before the gate with less than 30 seconds of lease, for every next worker |
| `ExecutionWorker.TimeoutExecution` | control_plane/app/execution_worker.py:1720-1778 | a run ends as timed out only when every session to be stopped was aborted or found missing: the one its row names, or else every session OpenCode listed for the execution, all of which had an id; every call was made right behind a committed renewal of the lease |
| `ExecutionWorker.CancelExecution` | control_plane/app/execution_worker.py:1652-1717 | the same for a cancelled run; one that was still queued also had every such session deleted or found missing |
| `ExecutionWorker.Reconcile` | control_plane/app/execution_worker.py:1669-1680 | the session the row names, else exactly the ids of the listed sessions whose metadata names the execution; none when the listing fails or one of them has no id |
| `ExecutionWorker.OpenCode.SessionsForExecution` | control_plane/app/opencode_client.py:182-188 | one listing, and of it exactly the sessions of the execution |
| `ExecutionWorker.StallExecution` | control_plane/app/execution_worker.py:1781-1820 | a run ends as stalled only when the session its row names was aborted or found missing, each call behind a renewal |
| `ExecutionWorker.StopForCancel` | control_plane/app/execution_worker.py:1682-1701 | the calls are abort, and for a queued run delete and abort again, in this order, ending early only at a missing session, each right behind a committed renewal |
| `ExecutionWorker.RequireRunnerValidation` | control_plane/app/execution_worker.py:1438-1490 | lets a run complete only with the workspace identity intact and either nothing changed or a passing checkpoint group for the snapshot just computed |
| `ExecutionWorker.PollRunning` | control_plane/app/execution_worker.py:1903-2045 | a poll that completes the run read an idle session with a result that is no checkpoint, saw a clean workspace or a fully successful checkpoint for the snapshot of this very poll, and finished before the deadline |
| `ExecutionWorker.OthersDoNoMore` | control_plane/app/execution_worker.py:356-377 | what other transactions may do to the rows between two of a poll is all that the control plane machine does |
| `ExecutionWorker.AbortedOnlyWhenOwned` | control_plane/app/execution_worker.py:728-781 | a run ended as timed out or stalled was held under the same generation and keeps its session |
| `ExecutionWorker.CompletedOnlyBeforeDeadline` | control_plane/app/execution_worker.py:578-685 | an observation completes a run only with a non-blank idle result, strictly before the deadline |
| `Notifier.PollOnce` | notifications/telegram_notifier.py:431-491 | a poll keeps the durable invariant whatever fails in it; the cursor only advances, and if it did, every allowed event since the start up to it that was visible when the clock was read, and whose commit was punctual, has been delivered; a reconciling poll has delivered everything visible in its window |
| `Notifier.PollForever` | notifications/telegram_notifier.py:494-533 | over any number of polls with any failures no delivered event is ever sent again, and every punctual event behind the cursor was delivered or is still inside the overlap |
| `Notifier.DeliverRange` | notifications/telegram_notifier.py:453-477 | keyset paging visits events of the window in strictly ascending (created_at, id) order, hence once, and when it finishes it has visited and delivered every one visible at its start, although rows are added meanwhile |
| `Notifier.ScanBacklog` | notifications/telegram_notifier.py:479-483 | the cursor advances exactly when the backlog scan finished |
| `Notifier.Reconcile` | notifications/telegram_notifier.py:484-489 | a finished reconciliation delivered everything visible in its window |
| `Notifier.BacklogIsComplete` | notifications/telegram_notifier.py:479-483 | the invariant behind the cursor, the scan behind the window and the overlap together leave no punctual event out |
| `Notifier.RetentionCovers` | notifications/telegram_notifier.py:227-230 | a scan that starts inside the retention meets no event the delivery table has forgotten, without a monotone clock |
| `Notifier.PageCovers` | notifications/telegram_notifier.py:335-357 | a full page covers the window up to its last row, a short one all of it |
| `Notifier.PageExtends` | notifications/telegram_notifier.py:335-357 | a page behind the keyset cursor extends what was visited in strict order |
| `Notifier.FirstRows` | notifications/telegram_notifier.py:342-356 | the page query: the first rows of the window behind the cursor |
| `Notifier.StateStore.Bootstrap` | notifications/telegram_notifier.py:194-214 | sets missing cursors and never resets existing ones |
| `Notifier.StateStore.AdvanceScan` | notifications/telegram_notifier.py:483-483 | the cursor may move once the window behind it is delivered |
| `Notifier.StateStore.MarkDelivered` | notifications/telegram_notifier.py:220-225 | keeps the first delivery time and the durable invariant |
| `Notifier.StateStore.Prune` | notifications/telegram_notifier.py:227-230 | forgets exactly the rows older than the retention and keeps the durable invariant |
| `MessageLimiter.MessageLimiter.WaitTurn` | notifications/telegram_notifier.py:369-378 | whatever the calls and sleeps, any limit+1 consecutive send times span at least 60 seconds and the deque never exceeds the limit; raises iff the limit is not positive |
| `MessageLimiter.MessageLimiter.MakeRoom` | notifications/telegram_notifier.py:369-377 | after waiting there is room for one more message |
| `MessageLimiter.NewestEnters` | notifications/telegram_notifier.py:378-378 | recording a send with room in the deque keeps every window |
| `IsoTime.TextOrderIsTimeOrder` | notifications/telegram_notifier.py:227-230 | for valid UTC times the text comparison of `isoformat` strings, with and without microseconds, is the comparison of the instants |
| `RunnerGateSafety.EnsureIsAllOrNone` | control_plane/app/execution_worker.py:1087-1200 | either an error and no job or row changed, or for the returned digest exactly jobs 0, ..., n-1 equal to the commands, all other jobs untouched |
| `RunnerGateSafety.EnsureIsIdempotent` | control_plane/app/execution_worker.py:1126-1200 | repeating it, by any worker at any time, adds nothing |
| `RunnerGateSafety.CheckpointsAreBounded` | control_plane/app/execution_worker.py:69-69 | over every history of the job table an execution has at most 4 checkpoint digests and 32 checkpoint jobs, and the jobs of each digest are exactly the commands of one checkpoint |
| `RunnerGateSafety.EvidenceIsReal` | control_plane/app/execution_worker.py:1397-1426 | in every reachable table the contiguous-index test succeeds iff one checkpoint for this snapshot had all of its commands run and succeed |
| `RunnerGateSafety.TableStepKeeps` | control_plane/app/main.py:1395-1506 | gate insertions, client jobs and every queue transition keep the invariant of the table |
| `RunnerGateSafety.KnownCheckpoint` | control_plane/app/execution_worker.py:1126-1160 | a digest already in the table belongs to the very same message, snapshot and commands |
| `RunnerJobSafety.ConcludeKeeps` | control_plane/app/runner_manager.py:489-620 | for an arbitrary broker response the row keeps the lease, queue, terminal-time, cleanup and exit-code constraints, is fenced, and an ended row is unchanged |
| `RunnerJobSafety.ReachableJobs` | control_plane/app/models.py:594-657 | every reachable job satisfies every constraint; `completed` means exit code 0, confirmed cleanup and a well-formed image id |
| `RunnerJobSafety.OverIsForever` | control_plane/app/runner_manager.py:255-277 | a job that is over is never changed again by any worker |
| `RunnerJobSafety.ImageConstraintFailsExactly` | control_plane/app/runner_manager.py:544-549 | the image constraint holds after a reply iff the reply is not an otherwise accepted `cleanup_uncertain` with an image text of another length than 71 |
| `RunnerJobSafety.ImageConstraintFailsHere` | control_plane/app/models.py:612-615 | a sound job and a reply that make the program ask for a row violating `ck_runner_jobs_image_id` |
| `RunnerJobSafety.DeadJobLeaseIsPowerless` | control_plane/app/runner_manager.py:255-277 | a job lease that failed the ownership check fails it ever after, and what its holder does leaves the row unchanged |
| `RunnerJobSafety.JobLeasesNeverOverlap` | control_plane/app/runner_manager.py:178-253 | two claims of one job hand out leases that never pass together |
| `RunnerJobSafety.CapIsHarmlessExactly` | control_plane/app/runner_manager.py:174-176 | capping the exponent leaves every delay as the plain doubling iff the maximum is at most base * 2^cap |
| `RunnerJobSafety.CapsInUse` | control_plane/app/workspace_manager.py:251-254 | the cap 16 is harmless iff the maximum is at most base * 65536; the cap 20 is for every maximum up to 86400 |
| `RunnerJobSafety.FreshJobLeasePasses` | control_plane/app/runner_manager.py:178-253 | a job lease just handed out passes the ownership check exactly until it expires, the padded command timeout later |
| `CheckpointExceptions.UncaughtExactly` | control_plane/app/runner_checkpoint.py:33-94 | for every text: a ValueError escapes iff the delimiters occur once each in the wrong order or a standalone payload has an integer too long to convert; a UnicodeEncodeError escapes iff the first fault of a standalone payload is a lone surrogate in an argument; nothing else escapes |
| `CheckpointExceptions.LayoutExactly` | control_plane/app/runner_checkpoint.py:48-57 | unpacking the split fails iff both delimiters occur once, the closing one first; a block stands alone iff they occur once in order with only white space around them |
| `CheckpointExceptions.ReversedDelimitersEscape` | control_plane/app/runner_checkpoint.py:48-57 | the closing delimiter, a newline and the opening one end in an uncaught ValueError |
| `CheckpointExceptions.OverlongIntegerEscapes` | control_plane/app/runner_checkpoint.py:58-61 | so does a block around an integer of 4301 digits |
| `CheckpointExceptions.SurrogateEscapes` | control_plane/app/runner_checkpoint.py:33-45 | a block whose only argument is a lone surrogate ends in an uncaught UnicodeEncodeError |
| `CheckpointExceptions.VersionReparsesExactly` | control_plane/app/runner_checkpoint.py:62-67 | valid commands are accepted under exactly the versions that equal 1 in Python, `true` and `1.0` among them |
| `CheckpointRoundTrip.AcceptedIsValid` | control_plane/app/runner_checkpoint.py:48-94 | an accepted checkpoint has one to eight valid commands with distinct labels |
| `CheckpointRoundTrip.BlockReparsesExactly` | control_plane/app/runner_checkpoint.py:48-115 | printing commands canonically between the delimiters and parsing gives the same commands iff no argument contains a delimiter |
| `CheckpointRoundTrip.AcceptedReparses` | control_plane/app/execution_worker.py:1493-1555 | the same for the commands of any accepted text |
| `CheckpointRoundTrip.GateDigestIsInjective` | control_plane/app/runner_checkpoint.py:96-115 | equal gate digests come from the same execution, message, snapshot and commands, even if the message id contains NUL |
| `JsonRoundTrip.ValueReadsBack` | control_plane/app/runner_checkpoint.py:96-115 | the compact sorted printer and the parser are inverse on every printable value in front of any proper continuation |
| `JsonRoundTrip.LoadsReadsBack` | control_plane/app/runner_checkpoint.py:58-61 | `json.loads` of printed text between white space returns the value |
| `JsonRoundTrip.PrintIsInjective` | control_plane/app/runner_checkpoint.py:96-115 | different values print differently |
| `SnapshotIdentity.EqualStreamsMeanEqualTrees` | control_plane/app/source_snapshot.py:51-127 | two well-formed trees that feed the same stream hold the same record at every path, apart from the root `.git` |
| `SnapshotIdentity.ListingOrderIsIrrelevant` | control_plane/app/source_snapshot.py:66-74 | trees equal up to the order of listed names have the same snapshot |
| `SnapshotIdentity.RootModeIsIgnored` | control_plane/app/source_snapshot.py:51-74 | trees that differ only in the mode of the root have one snapshot |
| `SnapshotIdentity.StreamReads` | control_plane/app/source_snapshot.py:13-18 | the tagged, length-prefixed records decode uniquely |
| `SnapshotIdentity.RecordReads` | control_plane/app/source_snapshot.py:13-18 | one record and what follows it are determined by the bytes |
| `SnapshotIdentity.VisitedIsSeen` | control_plane/app/source_snapshot.py:66-125 | the walk visits a path with a record iff the tree has it there |
| `PorcelainRoundTrip.StatusReadsBack` | control_plane/app/workspace_manager.py:133-163 | parsing the encoding of any list of entries with file paths, renames and copies in the first column only, gives exactly the sorted set of their paths |
| `PorcelainRoundTrip.SortedSetIsTheSet` | control_plane/app/workspace_manager.py:163-163 | the result ascends strictly and has exactly the paths |
| `PorcelainRoundTrip.RenameReadsExactlyInFirstColumn` | control_plane/app/workspace_manager.py:147-161 | a rename is read correctly iff its letter stands in the first column |
| `PorcelainRoundTrip.StatusIsReadExactly` | control_plane/app/workspace_manager.py:133-163 | for any list of entries with file and directory paths and renames in the first column: the status is refused iff one of the paths is a directory with its trailing slash, and otherwise read as the sorted set of all paths |
| `PorcelainRoundTrip.InspectionIsAccepted` | control_plane/app/workspace_manager.py:879-944 | an inspection with one well-shaped artifact per changed path, in any order, is accepted with those paths |
| `Utf8.DecodesBack` | control_plane/app/workspace_manager.py:141-146 | UTF-8 encoding and strict decoding are inverse |
| `RepositorySafety.RepoEventKeeps` | control_plane/app/models.py:30-87 | every transaction keeps the constraints and fencing, every change but a heartbeat moves the version, and only a live lease makes a repository ready |
| `RepositorySafety.ReachableRepositories` | control_plane/app/models.py:30-87 | every reachable row satisfies every constraint |
| `RepositorySafety.DeadSyncLeaseIsPowerless` | control_plane/app/repository_manager.py:337-464 | a synchronization lease that failed the ownership check fails it ever after, and what its holder reports leaves the row unchanged |
| `RepositorySafety.EditsKillLeases` | control_plane/app/main.py:285-397 | a manager edit or validation request that changes the row ends every earlier lease at once |
| `RepositorySafety.SyncLeasesNeverOverlap` | control_plane/app/repository_manager.py:264-335 | two claims hand out leases that never pass together |
| `RepositorySafety.FreshSyncLeasePasses` | control_plane/app/repository_manager.py:264-335 | a synchronization lease just handed out passes the ownership check exactly until it expires |
| `RepositorySafety.OwnershipIsPassing` | control_plane/app/repository_manager.py:337-360 | the ownership check is exactly the ticket check of the fencing theory |
| `Fencing.DeadTicketStaysDead` | control_plane/app/execution_worker.py:356-377 | a ticket that failed the ownership check fails it after any fenced transaction and ever after |
| `Fencing.AtMostOneTicketPasses` | control_plane/app/execution_worker.py:301-310 | tickets of different generations never pass together |
| `ControlPlane.StepKeepsTables` | control_plane/app/main.py:1238-1387 | every event (any transaction of any worker or manager, a start, a task status change) keeps the invariant of the whole database, and every row of every execution evolves only as one transaction may change it |
| `ControlPlane.ActionIsSafe` | control_plane/app/execution_worker.py:119-958 | every transaction keeps the invariant of its rows, evolves them legally and never meets an immutable package |
| `ControlPlane.PutFrames` | control_plane/app/models.py:380-470 | writing the rows of one execution changes no other execution but for the status of a shared task |
| `ControlPlane.StartExecution` | control_plane/app/main.py:1238-1387 | refuses with the HTTP status of the first failing check (backend, paid opt-in, subscription, task, domain, live run, repository, branch, commit), and then changes nothing; otherwise the tables are those with exactly the new run, workspace and report log |
| `ControlPlane.CheckStart` | control_plane/app/main.py:1245-1303 | the checks in the order of the endpoint; no refusal means a known task, an admitted repository and a well-formed commit |
| `ControlPlane.PutKeepsShape` | control_plane/app/main.py:1265-1272 | a written unit keeps keys, foreign keys, workspace ownership and the single live run per task |
| `Lifecycle.TaskIsFree` | control_plane/app/main.py:439-467 | the manager's task status changes disturb no invariant of an execution |
| `WorkspaceKeeps.ForeignRootBreaksExactlyInspections` | control_plane/app/workspace_manager.py:284-325 | claiming with a workspace root other than the API's keeps the invariant iff the row is not a claimable workspace under inspection; in that case the run is unchanged and its package stays provisional beside an invalid workspace |
| `WorkspaceKeeps.ForeignRootExample` | control_plane/app/workspace_manager.py:284-325 | a sound unit whose claim under another root ends with a provisional package beside an invalid workspace |
| `WorkspaceKeeps.ClaimIsSafe` | control_plane/app/workspace_manager.py:427-557 | a claim, with all its settling branches, keeps invariant, constraints and fencing |
| `WorkspaceKeeps.MarkPrepareSuccessIsSafe` | control_plane/app/workspace_manager.py:605-705 | a successful preparation, its late, revoked and mismatched branches included, keeps them |
| `WorkspaceKeeps.MarkInspectionSuccessIsSafe` | control_plane/app/workspace_manager.py:707-773 | a successful inspection finalizes the package and keeps them |
| `WorkspaceKeeps.MarkCleanupSuccessIsSafe` | control_plane/app/workspace_manager.py:775-813 | a finished cleanup keeps them |
| `WorkspaceKeeps.MarkCleanupRetainedIsSafe` | control_plane/app/workspace_manager.py:815-877 | a cleanup that found changes returns the workspace to retained and keeps them |
| `WorkspaceKeeps.MarkFailureIsSafe` | control_plane/app/workspace_manager.py:946-1039 | a failed operation, retried or given up, keeps them for all three operations |
| `ExecutionKeeps.ClaimRunIsSafe` | control_plane/app/execution_worker.py:268-354 | claiming or recovering a run keeps invariant, constraints and fencing |
| `ExecutionKeeps.MarkRuntimeVerifiedIsSafe` | control_plane/app/execution_worker.py:428-471 | recording the runtime preflight keeps them; it is accepted only for a digest equal to the lease's and to the attested one |
| `ExecutionKeeps.MarkDispatchedIsSafe` | control_plane/app/execution_worker.py:527-576 | the step from queued to running keeps them |
| `ExecutionKeeps.ApplyObservationIsSafe` | control_plane/app/execution_worker.py:578-685 | what a poll observes, completion included, keeps them |
| `ExecutionKeeps.MarkAbortedIsSafe` | control_plane/app/execution_worker.py:728-873 | ending a run as timed out or stalled keeps them |
| `ExecutionKeeps.MarkCancelledIsSafe` | control_plane/app/execution_worker.py:911-958 | a confirmed cancellation keeps them |
| `CodexKeeps.PhaseIsSafe` | control_plane/app/codex_broker.py:272-346 | a role report, accepted, failed, out of order or with a wrong checksum, keeps the subscription protocol |
| `CodexKeeps.RecordedIsSafe` | control_plane/app/codex_broker.py:303-345 | the report of the expected role extends the accepted reports by exactly that role |
| `CodexKeeps.AcceptPreflightIsSafe` | control_plane/app/codex_broker.py:214-243 | the accepted preflight starts the architect under the claimed generation |
| `CodexKeeps.AbortIsSafe` | control_plane/app/main.py:1538-1654 | aborting a preparing, queued or running run keeps the invariant; a preparing run ends without a package, a running subscription run is only fenced |
| `Transactions.Session.Materialize` | control_plane/app/evidence.py:646-684 | raises iff a final package would change; otherwise the package is the given payload in the given state, or the final one unchanged |
| `Transactions.Session.Seal` | control_plane/app/evidence.py:687-705 | commits the package of a terminal run, provisional iff inspection is outstanding, or restores every row it started from |
| `WorkspaceLeases.RequestWorkspaceInspection` | control_plane/app/workspace_manager.py:176-213 | hands a ready workspace over to inspection with its lease fenced, leaves one already there or gone alone, and raises in every other status |
| `WorkspaceLeases.WorkspaceLeaseManager.ClaimAvailable` | control_plane/app/workspace_manager.py:427-557 | the batch treats every locked row as if it were alone: no row is skipped, granted twice or affected by another |
| `WorkspaceLeases.WorkspaceLeaseManager.ClaimRow` | control_plane/app/workspace_manager.py:451-557 | of one due row, the claim grants a lease under a fresh generation and version, ends a run whose deadline passed, moves a cancelled preparation to cleanup or invalidates a broken binding; the new rows are those `WorkspaceKeeps.ClaimIsSafe` is about |
| `WorkspaceLeases.WorkspaceLeaseManager.InvalidateBinding` | control_plane/app/workspace_manager.py:284-325 | the workspace becomes invalid; a live run fails with it and gets its package, a terminal run is left alone (with the consequence `ForeignRootBreaksExactlyInspections` states) |
| `WorkspaceLeases.WorkspaceLeaseManager.ExpirePreparingExecution` | control_plane/app/workspace_manager.py:389-425 | a preparation past its deadline fails the run and sends the workspace to cleanup, or nothing is committed |
| `WorkspaceLeases.WorkspaceLeaseManager.HeartbeatRow` | control_plane/app/workspace_manager.py:588-603 | only the owner of the exact unexpired lease extends it; nobody else changes the row |
| `WorkspaceLeases.WorkspaceLeaseManager.PrepareSucceeded` | control_plane/app/workspace_manager.py:605-705 | both rows get the same normalized evidence in one commit, run queued and workspace ready; late, cancelled, revoked or mismatched preparations take their own branches |
| `WorkspaceLeases.WorkspaceLeaseManager.InspectionSucceeded` | control_plane/app/workspace_manager.py:707-773 | workspace retained and package final in one commit, or rolled back when a final package would change |
| `WorkspaceLeases.WorkspaceLeaseManager.CleanupSucceeded` | control_plane/app/workspace_manager.py:775-813 | removal with its evidence, by the owner of the cleanup lease only |
| `WorkspaceLeases.WorkspaceLeaseManager.CleanupRetained` | control_plane/app/workspace_manager.py:815-877 | a cleanup that found changes keeps the new inspection evidence and returns to retained |
| `WorkspaceLeases.WorkspaceLeaseManager.FailureReported` | control_plane/app/workspace_manager.py:946-1039 | retry with backoff, or give up and end exactly what depended on the operation |
| `ExecutionLeases.ExecutionLeaseManager.ClaimAvailable` | control_plane/app/execution_worker.py:268-354 | the batch treats every locked row as if it were alone: rejected with a broken binding, else claimed under a fresh generation |
| `ExecutionLeases.ExecutionLeaseManager.RejectInvalidWorkspaceBinding` | control_plane/app/execution_worker.py:225-266 | run failed and fenced, workspace invalid, package written in one commit, or nothing |
| `ExecutionLeases.ExecutionLeaseManager.Heartbeat` | control_plane/app/execution_worker.py:379-399 | only the owner extends the lease, and not once cancellation was requested unless it is cleaning up |
| `ExecutionLeases.ExecutionLeaseManager.PersistSession` | control_plane/app/execution_worker.py:401-426 | names the session of a queued run once; another session id is refused |
| `ExecutionLeases.ExecutionLeaseManager.RuntimeWorkspaceVerified` | control_plane/app/execution_worker.py:428-471 | records the runtime digest only if it equals the one of the lease and of the row |
| `ExecutionLeases.ExecutionLeaseManager.RuntimeWorkspaceRejected` | control_plane/app/execution_worker.py:473-488 | the owner fails run and workspace together |
| `ExecutionLeases.ExecutionLeaseManager.SafetyCancel` | control_plane/app/execution_worker.py:490-525 | requests cancellation of an owned queued run once |
| `ExecutionLeases.ExecutionLeaseManager.DispatchAccepted` | control_plane/app/execution_worker.py:527-576 | queued becomes running only for the named session with verified runtime evidence and no cancellation; the lease is released |
| `ExecutionLeases.ExecutionLeaseManager.Observe` | control_plane/app/execution_worker.py:578-685 | cancellation is seen before the deadline, the deadline before an error, an error before a result; a blank result does not complete the run |
| `ExecutionLeases.ExecutionLeaseManager.AbortPending` | control_plane/app/execution_worker.py:687-726 | the run stays active and owned while the abort is outstanding, for timeout and stalled tool (lines 783-822) |
| `ExecutionLeases.ExecutionLeaseManager.Aborted` | control_plane/app/execution_worker.py:728-781 | run failed, task failed, inspection queued and package written in one commit, or nothing, for timeout and stalled tool (lines 824-873) |
| `ExecutionLeases.ExecutionLeaseManager.CancelPending` | control_plane/app/execution_worker.py:875-909 | a requested cancellation stays pending and owned |
| `ExecutionLeases.ExecutionLeaseManager.CancelConfirmed` | control_plane/app/execution_worker.py:911-958 | only a requested cancellation ends the run as cancelled, with inspection and package in the same commit |
| `ExecutionLeases.ExecutionLeaseManager.RunnerGateFailed` | control_plane/app/execution_worker.py:1051-1084 | a running run fails with the code of the gate, together with a task already in review |
| `CodexBroker.Broker.ClaimNext` | control_plane/app/codex_broker.py:149-199 | every expired run is ended, none recovered, and then at most the one queued run is claimed |
| `CodexBroker.Broker.Settle` | control_plane/app/codex_broker.py:130-145 | a cancelled run that must be settled ends as cancelled, any other as failed with the given code |
| `CodexBroker.Broker.EndRun` | control_plane/app/codex_broker.py:109-127 | the worker is fenced by a new generation, a task in review fails too |
| `CodexBroker.Broker.PreflightAccepted` | control_plane/app/codex_broker.py:214-243 | the run starts only once, under the claimed generation, with evidence equal to its binding and a trusted repository |
| `CodexBroker.Broker.HeartbeatAccepted` | control_plane/app/codex_broker.py:247-254 | extends the lease of the claimed generation; an expired, overdue or cancelled run is settled instead |
| `CodexBroker.Broker.PhaseReported` | control_plane/app/codex_broker.py:272-346 | accepts exactly the expected role with matching binding and checksum, moves to the next role, completes after the reviewer or fails the run; a failing commit restores every row |
| `ControlApi.AbortExecution` | control_plane/app/main.py:1538-1654 | idempotent: a preparing run is cancelled at once without a package, a queued subscription run ends with one, a running subscription run is fenced with at most 30 seconds left, an OpenCode run is fenced and left to its worker |
| `ControlApi.CleanupRequested` | control_plane/app/main.py:1168-1229 | only a retained, provably unchanged workspace of a terminal run at the expected version goes to cleanup |
| `RunnerJobs.RunnerJobLeaseManager.ClaimAvailable` | control_plane/app/runner_manager.py:178-253 | the batch treats every locked job as if it were alone: due and expired jobs get a fresh generation, the first start time is kept |
| `RunnerJobs.RunnerJobLeaseManager.AuthorizeBinding` | control_plane/app/runner_manager.py:309-395 | the owner renews the lease only if run, repository and workspace still match the job; otherwise the job is rejected with the first reason |
| `RunnerJobs.RunnerJobLeaseManager.Retry` | control_plane/app/runner_manager.py:397-434 | requeues with the capped backoff and gives the lease up |
| `RunnerJobs.RunnerJobLeaseManager.Doubt` | control_plane/app/runner_manager.py:452-487 | ends the job as uncertain, cleanup unconfirmed |
| `RunnerJobs.RunnerJobLeaseManager.Terminate` | control_plane/app/runner_manager.py:489-578 | believes a terminal response only with complete evidence; anything else ends as uncertain with its reason |
| `RunnerJobs.RunnerJobLeaseManager.Process` | control_plane/app/runner_manager.py:581-620 | for an arbitrary reply: unavailable and busy requeue, an unknown outcome touches nothing, a foreign busy id, an error or an unknown status ends uncertain; the new row is the one `ConcludeKeeps` is about |
| `RunnerGate.EnsureRunnerCheckpointJobs` | control_plane/app/execution_worker.py:1087-1200 | lease, repository, workspace and cycle limit are checked in this order; the insertion loop finds or adds each command row and a conflict takes back every insertion |
| `RunnerGate.CreateRunnerJob` | control_plane/app/main.py:1395-1506 | a known key returns its job or a conflict, a new one adds exactly one job for a runnable execution |
| `RunnerGate.SnapshotHasSuccessfulCheckpoint` | control_plane/app/execution_worker.py:1397-1426 | true iff some group of the rows has the indexes 0, 1, 2, ... and every job of it succeeded |
| `Checkpoint.ParseRunnerCheckpoint` | control_plane/app/runner_checkpoint.py:48-94 | the verdict on every text: none, refused with its code, an uncaught exception, or commands, the ones `CheckpointRoundTrip` is about |
| `Checkpoint.ValidateArgv` | control_plane/app/runner_checkpoint.py:33-45 | 1 to 64 non-empty NUL-free arguments of at most 4096 characters, the running total of UTF-8 bytes at most 32768; a lone surrogate raises before the total is judged |
| `Checkpoint.ValidatePayload` | control_plane/app/runner_checkpoint.py:62-94 | version, then one to eight commands with distinct labels, each refused with its own code; the order of the checks is that of the loop |
| `SourceSnapshot.SourceSnapshotDigest` | control_plane/app/source_snapshot.py:51-127 | the stack of the walk and the inner loops feed exactly the stream of the recursive specification, with its errors |
| `SourceSnapshot.FeedEntries` | control_plane/app/source_snapshot.py:76-125 | one inner loop, entry by entry, with the entry limit and the errors |
| `SourceSnapshot.Walk` | control_plane/app/source_snapshot.py:66-74 | visiting directories from a stack is the recursive walk |
| `Porcelain.ChangedFilesFromPorcelain` | control_plane/app/workspace_manager.py:133-163 | the index-driven loop returns exactly what the recursive specification reads |
| `Repositories.RepositoryLeaseManager.ClaimAvailable` | control_plane/app/repository_manager.py:264-335 | the batch treats every locked row as if it were alone: due rows are leased under a fresh generation and version |
| `Repositories.RepositoryLeaseManager.Renew` | control_plane/app/repository_manager.py:362-377 | only the owner of the exact version, generation and unexpired lease extends it |
| `Repositories.RepositoryLeaseManager.Succeeded` | control_plane/app/repository_manager.py:379-418 | only the owner makes the repository ready, with branch and commit in the same commit |
| `Repositories.RepositoryLeaseManager.FailedSync` | control_plane/app/repository_manager.py:420-464 | only the owner reports a failure; retried with backoff capped at 20, or invalid for good |
| `Repositories.ReconcileMirrorCache` | control_plane/app/repository_manager.py:467-553 | every ready row without a usable mirror loses its readiness, no other row changes, and the count is theirs |
| `Repositories.UpdateRepository` | control_plane/app/main.py:285-347 | a stale version or a broken assurance configuration changes nothing; a change of trust inputs revokes readiness and schedules validation |
| `Repositories.RequestRepositoryValidation` | control_plane/app/main.py:354-397 | an enabled repository at the expected version loses its readiness and is due at once |

## Left out

- Branch names, error texts, progress and audit rows, result-package contents: no property modelled here depends on them; a package is its payload and digest.
- Contract-v1 rows: only contract-v2 executions are modelled.
- Batch queries: which rows a claim query selects and locks is not modelled; in the machines rows are claimed one at a time in any order, and the batch loops are proved to do just that.
- Reads inside a transaction that are not of its locked rows (repository trust, task assignment) are parameters of it.
- HTTP, sockets, Docker, Git subprocesses, file locks, file modes and symlink races: only the outcomes the state machines branch on.
- Workspace paths are a root and an identifier; path resolution on disk is not modelled.
- The listings of OpenCode sessions and messages are complete: their limits of 200 sessions and 50 messages are not modelled.
- DispatchSafety.AtMostOneSessionAndPrompt: without the condition on the lease the prompt can take effect twice (`LateDispatch.TwoPromptsAreReachable`); that a call settles within 30 seconds of its start, though its worker vanished, is taken from the timeout of the client.
- WorkspaceLeases.WorkspaceLeaseManager.ClaimRow: the branch for a workspace without its execution is left out; `Histories.WorkspacesHaveRuns` shows that no history reaches it.
- WorkspaceLeases.WorkspaceLeaseManager.FailureReported: the same branch is left out, for the same reason.
- ExecutionWorker.PollRunning: what a poll reads of OpenCode and of the workspace is its parameter `reading`; message parsing, prompt texts, usage capture and the evidence prompt of `_handle_runner_checkpoint` are left out.
- Json: the recursion limit of the Python parser, and duplicate object keys beyond the last one winning, are not modelled; numbers with a fraction or an exponent are real numbers instead of floating point.
- RunnerJobs.Conclude: storage errors outside the modelled constraints (an exit code beyond 32 bits, NUL in stored text) are left out.
- SnapshotIdentity.EqualStreamsMeanEqualTrees: file contents are their SHA-256 digests, taken as injective; whether a symlink is listed among directories or files is an input and may change the digest of a tree.
- SourceSnapshot: the checks of `_file_digest` against files that change while they are read are one error outcome; a directory that cannot be listed after its record was fed is left out (it ends in an error without a digest).
- Porcelain: how artifacts get their provenance is left out; a result carries them.
- Repositories: creation, credentials, mirror synchronization and size limits are left out; a success carries a well-formed branch and commit.
- Notifier: message formatting, secrets, the single-owner file lock and SQLite itself are left out; identifiers are compared in the collation of the audit index.
- MessageLimiter: clock readings are real numbers, without floating-point rounding.
- The dashboard, read-only endpoints, telemetry, budgets, approvals, authentication and settings: easy members that no property above needs.
