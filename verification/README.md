# Server Agent: a verified model

Server Agent is a durable control plane. Every mutating request is guarded by an idempotency key
and a per-project lease, runs asynchronously, and must be safe to crash at any moment, because the
next start decides from the SQLite store alone what was lost. This project models that protocol as
a transition system and proves what it keeps over every run with crashes; it then models the
self-contained algorithms of the repository and proves them against independent specifications.

`dafny verify dfyconfig.toml` checks everything.

## How the protocol is modelled

- **State.** `Store.Durable` is one state of the database: the key table (idempotency records and
  leases share it), operations, jobs, tasks, recovery runs, deployments, rollback plans and the ids of
  the projects, plus three history fields: the effects that have begun, what ended guarded effects
  returned, and the checks before rollback commands. `Runtime.Mem` is what the process holds: leased
  sections, the suspended engine of each operation, suspended `cancel`, `plan` and `assess` calls, the
  shutdown flag.
- **Stretches.** The code between two awaits is a function that returns a `Stretch`: the list of
  database states it leaves behind, one a statement, and the memory after it (`Runtime`, `Engines`).
- **Events.** `Agent` composes them: a stretch runs, is cut short after any of its statements by a
  crash, the process crashes between stretches, time passes, or one part of the startup sequence
  runs. Startup itself may be cut by further crashes. The outside world (commands, Git, health,
  services, migrations, clocks, random ids) enters as parameters of the events, unconstrained.
- **Invariants.** `KeyInvariant`, `LeaseInvariant`, `WorkInvariant`, `EngineInvariant`,
  `UnknownInvariant` and `RunsInvariant` are kept by every event (`Safety.EventKeepsInv`), and on
  top of them what success means (`Outcomes`). `Guarantees` and `History` state what follows for
  every reachable state and every run; `Misled` is one run, to its end.
- **Conditions.** `Conditions` and `EngineConditions` say of each operation exactly when it does what
  it is for, read off the database and the answers of the outside world before it, in both
  directions, and `Replays` what a repeated call is told over every later run.
- **Classes.** `Database.StateDb` is the connection: a field a table, a method a statement, and a
  ghost journal of the states passed through. `IdempotencyStore`, `OperationLeaseStore`,
  `PersistentOperationManager`, `JobManager`, `GuardedMutations`, `TaskEngine`, `DeploymentEngine`,
  `RollbackEngine`, `RecoveryEngine` and `ServerAgent` are the imperative code over it. The contract
  of each method is that the statements it executes, in their order, and the memory it leaves are
  exactly those of the model's stretch (`StateDb.Wrote`), so all invariants and guarantees apply to
  it. Preconditions on rows and keys of a continuation are facts of every reachable state
  (`Guarantees.SuspendedOperationsResume`, `Guarantees.SuspendedCallsResume`).

Assumptions: one process at a time; a clock that does not go back; an unrenewed leased section ends
within its TTL; of the renewals of a persistent operation no two in a row are missed; two
assessments of one task do not overlap when `assess` is called outside the tool (through the tool
alone this is proved); digests are injective and random ids new.

## What turned out not to hold

- A recommendation does not mean that no work is lost: the five-row windows can pass over it,
  exactly under `Decisions.RecommendationIff` (an input: `Decisions.UnseenWork`). Resume still
  refuses such a task (`Decisions.ResumeSeesEverything`).
- A crash between `setDeployment` and `setRollbackState` can leave a task whose rollback is checked
  against the migration version of an earlier deployment: `Guarantees.CutRecordIff` (a run that ends
  with such a command: `Misled.CommandRunsMisled`).
- The uniqueness check of `editFile` misses overlapping occurrences: `FileService.UniqueIff` says
  for which texts (an input: `FileService.OverlapIsAccepted`).
- With byte arrays two different values have one canonical text: `Canonical.BytesCollideWithText`.

## Model

The theorems come first; the methods of the classes, each tied to its stretch or state, follow.

| member | source | states |
|---|---|---|
| KeyTable.RefinesTwoMaps | src/operations/operation-lease.ts:26-106 | one statement of any client on the shared table acts on the lease map or on the idempotency map and is invisible in the other |
| KeyTable.RunRefinesTwoMaps | src/idempotency/idempotency.ts:37-86 | over any interleaving of acquire, renew, release, reclaim, begin, finish and retention the one table is exactly two maps that ran separately |
| KeyTable.StaleOwnerIsHarmless | src/operations/operation-lease.ts:77-87 | renew and release by anyone but the stored owner change nothing; another owner acquires only an expired lease |
| KeyTable.ScopeTextIsInjective | src/operations/persistent-operation.ts:85 | the scope strings the four clients build and the lease scope never coincide for project ids without a colon |
| Safety.EventKeepsInv | src/runtime/server-agent.ts:78-111 | each event (a stretch, a crash after any of its statements, a passing of time, a part of startup) keeps the whole invariant |
| Safety.RunKeepsInv | src/runtime/server-agent.ts:78-111 | so does every run |
| Safety.FreshIsSound | src/runtime/server-agent.ts:78-111 | a fresh installation satisfies it |
| Guarantees.OneSectionPerProject | src/operations/operation-lease.ts:44-75 | in every reachable state at most one leased section (operation, job, database write, restart) of a project is active, and it holds an unexpired lease |
| Guarantees.RowsAndExecutorsAgree | src/operations/persistent-operation.ts:95-115 | RUNNING operation and job rows are exactly the live executors; job limits hold; the not-attached refusal of cancel is unreachable |
| Guarantees.ShutdownIsClean | src/operations/persistent-operation.ts:138-141 | once everything shutdown awaits has settled no operation row is RUNNING |
| Guarantees.EffectsBeginOnce | src/idempotency/idempotency.ts:68-75 | the effect behind an existing key has begun at most once, and a completed key names a row that exists |
| Guarantees.EventKeepsKey | src/maintenance/maintenance-service.ts:136 | only retention drops a key, and only one that is finished and older than the cutoff |
| Guarantees.BeginsAtMostOncePerKey | src/operations/persistent-operation.ts:73-115 | over every run with crashes the effect of a key begins at most once more often than the key was dropped |
| Guarantees.AnswersAreStable | src/operations/persistent-operation.ts:87-92 | a settled key that is not dropped stays as it is to the end of every run: a completed one replays the same answer, a failed one refuses |
| Guarantees.GuardedAnswersAreReal | src/database/database-service.ts:130-131 | in every reachable state a completed key of a guarded write or restart holds the result its own effect returned, and a failed one never began its effect or saw it throw |
| KeyTable.AcquireIff | src/operations/operation-lease.ts:44-75 | a lease is granted exactly when the TTL is within its bounds and nobody else holds a live one |
| Conditions.StartIff | src/operations/persistent-operation.ts:80-115 | a new operation starts exactly when the agent is not stopping, key and lease are free and task and project have rows; it leaves its row, lease, completed key and begun effect and nothing else; otherwise nothing is written, or only the key has failed |
| Conditions.StartReplyIff | src/operations/persistent-operation.ts:80-115 | `start` answers x exactly when x is the existing operation of the completed record of this call, or the one it has just started; in every other case it throws |
| Replays.RepeatedStart | src/operations/persistent-operation.ts:87-92 | once `start` has answered x, the same call answers x, and writes nothing, after every run in which the key was not dropped; another task under the key is refused |
| Conditions.SettleIff | src/operations/persistent-operation.ts:147-166 | the row becomes SUCCEEDED exactly when the callback reported success, else FAILED; the lease is given back |
| Conditions.RequestIff | src/operations/persistent-operation.ts:117-124 | a cancellation request marks exactly the RUNNING operation it names |
| Conditions.RenewIff | src/operations/operation-lease.ts:77-81 | a tick writes exactly when the stored lease is the operation's own, and then extends it by a whole TTL |
| Conditions.JobBeginReplyIff | src/jobs/job-manager.ts:43-65 | a job's `start` goes on exactly when its key and the lease are free, and answers x exactly when x is the existing job of the completed record of this call |
| Conditions.AttachIff | src/jobs/job-manager.ts:66-103 | the job runs and its key answers with it exactly when its log files opened and the limit, the task and the project allow it; otherwise its key fails and its lease goes |
| Conditions.ExitIff | src/jobs/job-manager.ts:91-92 | a settled job is COMPLETED exactly when it exited cleanly and was not aborted, CANCELLED exactly when it was aborted, else FAILED |
| Conditions.AbortIff | src/jobs/job-manager.ts:109 | cancel aborts exactly a RUNNING job this process runs, and no other |
| Replays.RepeatedJob | src/jobs/job-manager.ts:48-54 | once a job was admitted under a key, the same call is answered that job after every run in which the key was not dropped |
| Conditions.GuardBeginIff | src/database/database-service.ts:122-131 | the effect of a guarded call begins exactly when key and lease are free; otherwise nothing is written, or only the key has failed |
| Conditions.GuardEndIff | src/database/database-service.ts:130-132 | the key is COMPLETED with the result exactly when the effect returned it and FAILED exactly when it threw; a retry is answered that result in the first case and refused in the second |
| Replays.RepeatedGuard | src/database/database-service.ts:123-124 | so is a retry after every run in which the key was not dropped, and no effect begins |
| Conditions.CreateIff | src/tasks/task-engine.ts:46-50 | a task is created, PENDING and resumable, exactly for a project with a row |
| Conditions.ResumeIff | src/tasks/task-engine.ts:62-70 | resume makes a task RUNNING exactly when it is resumable, all its work has settled, and it stands in one of four statuses or in RECOVERY_REQUIRED with a resume decision, which counts an attempt |
| Conditions.PauseIff | src/tasks/task-engine.ts:71 | pause makes a task PAUSED exactly when it is RUNNING and all its work has settled |
| Conditions.CancelNowIff | src/tasks/task-engine.ts:72 | without a running job cancel ends the task exactly when it is not over and all its work has settled |
| Conditions.CancelBeginIff | src/tasks/task-engine.ts:72 | with one, it aborts it and waits exactly when the task is not over, no operation of it is open and this process runs the job |
| Conditions.CancelEndIff | src/tasks/task-engine.ts:72 | after the wait the task is CANCELLED exactly when no job of it is UNKNOWN and it is not over otherwise |
| Conditions.RestartIff | src/tasks/task-engine.ts:79-80 | the startup sequence leaves a task in RECOVERY_REQUIRED exactly when it stood there, was interrupted, or is not over and had RUNNING or UNKNOWN work; every other task is as it was |
| Conditions.RestartedWork | src/jobs/job-manager.ts:112-116 | it makes exactly the RUNNING operations and jobs UNKNOWN |
| Conditions.RetentionIff | src/maintenance/maintenance-service.ts:132-136 | retention drops exactly the settled keys, and the finished runs of finished tasks but the latest, that are older than the cutoff |
| Guarantees.UnknownIsForGood | src/tasks/task-engine.ts:54-80 | a task with UNKNOWN work stays within the recovery statuses in every state of every later run |
| Guarantees.UnknownIsFound | src/tasks/task-engine.ts:80 | whenever the agent is up, every non-terminal task with UNKNOWN work is in one of them |
| Guarantees.RollbackRunsOnceChecked | src/recovery/rollback-engine.ts:141-217 | a plan's command has run at most once, after a check that saw a clean tree, HEAD and the migration version as planned, which is the version from before the deployment unless that was cut short before it began |
| Guarantees.AlwaysSeenIff | src/recovery/migration-safety.ts:22-40 | exactly when a plan guarantees that its command follows a check of the version its deployment recorded: it has no target, or its migration state is unknown or that version |
| Guarantees.CutRecordIff | src/deployment/deployment-engine.ts:76-82 | after which statement of the record-keeping a crash leaves a plan without that guarantee: only behind `setDeployment`, and there exactly when an earlier deployment left another known migration state |
| Misled.CommandRunsMisled | src/deployment/deployment-engine.ts:78 | for every configuration a reachable state in which this has happened: deployed at version 1, cut short at version 2, restarted, and a rollback command run after a check at version 1; so the exception in `Guarantees.RollbackRunsOnceChecked` cannot be dropped |
| Guarantees.VerifyingFollowsCleanExit | src/recovery/rollback-engine.ts:161-166 | in every reachable state, while a rollback verifies, its one command has exited cleanly and left HEAD at the target |
| Guarantees.SucceededRollbackIsRestored | src/recovery/rollback-engine.ts:157-188 | SUCCEEDED means that the one command exited cleanly, HEAD is at the commit the deployment recorded before deploying, the service active and the health HEALTHY where configured |
| EngineConditions.RollbackEndsIff | src/recovery/rollback-engine.ts:157-196 | from its command on, whatever runs in between and leaves plan and task alone, a rollback ends SUCCEEDED and ROLLED_BACK exactly when the command exited cleanly, HEAD is the target, the service active and the health good where required; else FAILED and WAITING_FOR_USER |
| EngineConditions.PlanBeginIff | src/recovery/rollback-engine.ts:105-111 | a draft is made exactly when the task of the project names a deployment on record, with its commits and the migration state the task keeps |
| EngineConditions.PlanIff | src/recovery/rollback-engine.ts:112-138 | a plan is READY exactly when the target is known and there, the tree clean, HEAD where the deployment left it, the migration version the recorded one and the command configured; the task is asked to stand accordingly |
| EngineConditions.RollOpenIff | src/recovery/rollback-engine.ts:143-145 | execution goes on exactly for a READY plan of the project |
| EngineConditions.RunIff | src/recovery/rollback-engine.ts:148-159 | the command runs exactly when the check sees the world as planned, the task accepts ROLLING_BACK and the plan has a target; a failed check blocks the plan |
| EngineConditions.ActedIff | src/recovery/rollback-engine.ts:161-164 | it is verified exactly after a clean exit with HEAD at the target, else the rollback fails |
| EngineConditions.RollServiceIff | src/recovery/rollback-engine.ts:166-178 | an inactive service fails it; otherwise it succeeds without a health check, or goes on to one, if the task accepts that |
| EngineConditions.RollFinishIff | src/recovery/rollback-engine.ts:178-196 | it succeeds exactly when the health is good where required and the task accepts ROLLED_BACK |
| Guarantees.SucceededDeployIsProven | src/deployment/deployment-engine.ts:99-112 | a SUCCEEDED deployment has passed validation, service and health evidence on record |
| Guarantees.DeployReturns | src/deployment/deployment-engine.ts:82-120 | from any non-terminal task status, whoever set it meanwhile, a deployment returns as SUCCEEDED with COMPLETED or FAILED with FAILED |
| EngineConditions.DeploymentEndsIff | src/deployment/deployment-engine.ts:97-120 | from its command on, whatever runs in between and leaves row and task alone, a deployment ends SUCCEEDED and COMPLETED exactly when the service is active and the health good where required, else FAILED and FAILED; the row keeps the commit noted after the command |
| EngineConditions.RecordIff | src/deployment/deployment-engine.ts:75-83 | a required validation that did not pass leaves nothing; otherwise the row is in, with commit and migration state, and the command runs exactly when the task stands in PENDING, RUNNING or DEPLOYING |
| EngineConditions.DeployServiceIff | src/deployment/deployment-engine.ts:99-106 | the health check follows exactly when the service is active where there is one and the task accepts HEALTH_CHECKING |
| EngineConditions.DeployFinishIff | src/deployment/deployment-engine.ts:107-120 | SUCCEEDED exactly when the health is good where required and the task accepts COMPLETED, else FAILED |
| EngineConditions.MoveIff | src/tasks/task-engine.ts:26-39 | a status is set exactly from the statuses that the table, read backwards, lists for it |
| Guarantees.SucceededMeansDone | src/mcp/tools/register-tools.ts:178-195 | the target of a SUCCEEDED deployment operation is a SUCCEEDED, proven deployment of its task; that of a SUCCEEDED rollback operation a SUCCEEDED, proven plan of its task and project, with HEAD at the commit from before the deployment; that of a recovery operation a run of its task |
| Outcomes.EngineOutcome | src/mcp/tools/register-tools.ts:178-195 | an engine returns success only with the row it names SUCCEEDED, of the operation's task, and no other stretch takes that back |
| Outcomes.OpOutcomeStep | src/operations/persistent-operation.ts:148-161 | an operation row succeeds only with the target its own engine returned success for |
| Guarantees.AttemptsAreNumbered | src/recovery/recovery-engine.ts:64-73 | recovery attempts of a non-terminal task are exactly 1..n with n within the limit, and an attempt under way has a free number |
| EngineConditions.AssessOpenIff | src/recovery/recovery-engine.ts:60-74 | an assessment begins, numbered after the runs of the task, exactly when the task of the project is not over, an attempt is left and the task accepts RECOVERING |
| EngineConditions.LimitIff | src/recovery/recovery-engine.ts:67-72 | past the limit the task is sent to a rollback exactly when it names a deployment, else to the user |
| EngineConditions.AssessCloseIff | src/recovery/recovery-engine.ts:77-98 | what the run records and where the task stands for every verdict; success exactly when there is a decision and the task accepts its status |
| Guarantees.ToolAssessmentsNeverOverlap | src/mcp/tools/register-tools.ts:187 | through the tool the lease keeps two assessments of one task apart, so each may always go on |
| Guarantees.SuspendedOperationsResume | src/operations/persistent-operation.ts:143-157 | every suspended operation finds the rows its next stretch needs |
| Guarantees.SuspendedCallsResume | src/jobs/job-manager.ts:90-95 | every other suspended call finds its key in progress, its job row and its task; at most one job of a task runs |
| History.HistoryIsLawful | src/tasks/task-engine.ts:26-39 | every consecutive pair of states of every run is a lawful step: tasks along the table or recovery edges, work rows out of RUNNING once, evidence columns fixed |
| History.TerminalForGood | src/tasks/task-engine.ts:38 | a terminal task keeps its status along every history |
| History.SettledWorkForGood | src/operations/persistent-operation.ts:148-161 | the unguarded final UPDATEs only ever leave RUNNING: a settled operation keeps its whole row, a settled job its status |
| History.RunningOnlyWhenClear | src/tasks/task-engine.ts:62-70 | every edge into RUNNING leaves one of the five resumable statuses, finds no running or unknown work of the task anywhere in the store, and out of RECOVERY_REQUIRED a resume recommendation |
| KeyInvariant.KeysStep | src/idempotency/idempotency.ts:37-86 | every stretch keeps the key invariant in every state it passes through |
| LeaseInvariant.MutualExclusion | src/operations/operation-lease.ts:44-75 | the lease invariant excludes two active sections of one project |
| LeaseInvariant.OneMissedTickIsSurvived | src/operations/persistent-operation.ts:144 | renewing every max(1000, floor(ttl/3)) with ttl at least 5000 leaves two whole periods inside the TTL |
| LeaseInvariant.RenewalSucceeds | src/operations/persistent-operation.ts:145 | the swallowed exception of a renewal tick never arises for a live execution |
| LeaseInvariant.PassKeepsLeases | src/operations/persistent-operation.ts:144-145 | time passing under the clock assumptions expires no lease of an active section |
| WorkInvariant.NotAttachedIsUnreachable | src/jobs/job-manager.ts:109 | cancel of a RUNNING job always finds its controller |
| WorkInvariant.AdmittedIff | src/jobs/job-manager.ts:69-79 | the checks of the transaction are exact: they pass when the project has a row, both job limits still hold with the new job row, and the task attached to runs in its project |
| RunsInvariant.CountIsMax | src/recovery/recovery-engine.ts:66-67 | attempts numbered 1..n make COUNT the maximum |
| RunsInvariant.UniqueNeverTrips | src/database/sqlite.ts:196 | no insertion of a recovery run meets the UNIQUE(task, attempt) constraint |
| RunsInvariant.LeaseSerialisesAssessments | src/mcp/tools/register-tools.ts:187 | assessments inside operations of one project exclude each other |
| RunsInvariant.PruningKeepsNumbers | src/maintenance/maintenance-service.ts:132-135 | retention of recovery runs leaves the attempts of non-terminal tasks as they are |
| Migration.SafeMeansSameKnownVersion | src/recovery/migration-safety.ts:22-40 | SAFE exactly when there is no adapter or both states are known and of the same version |
| Migration.SnapshotTwice | src/recovery/migration-safety.ts:11-20 | snapshotting a stored snapshot never changes the verdict, and is the identity exactly on objects |
| Decisions.OwnOperationBlocks | src/recovery/evidence.ts:57 | an assessment inside its own RUNNING operation answers WAITING_FOR_USER unless five settled operations of the task are as new as that one |
| Decisions.ResumeIff | src/recovery/recovery-engine.ts:100-135 | resume is recommended exactly when nothing collected is running or unknown, no failed deployment can be rolled back, HEAD, service and health are confirmed, and the deployment succeeded or a checkpoint exists |
| Decisions.RollbackIff | src/recovery/recovery-engine.ts:121-124 | rollback is required exactly when nothing collected is running or unknown, the deployment failed with a commit to go back to, and HEAD is where it left it, if it left it anywhere |
| Decisions.HiddenIff | src/recovery/evidence.ts:57-59 | the window query can pass over a set of rows exactly when each of them has five others that are as new |
| Decisions.RecommendationIff | src/recovery/recovery-engine.ts:100-135 | an assessment of a store can recommend resume exactly when Git, service, health and the task's record speak for it, and rollback exactly when the failed deployment and HEAD do, and every unresolved operation and job has five settled ones as new |
| Decisions.UnseenWork | src/recovery/evidence.ts:57-59 | such a store: six operations, the oldest UNKNOWN, and resume recommended |
| Decisions.SmallWindowsSeeAll | src/recovery/evidence.ts:57-59 | with at most five operations and five jobs a recommendation means that none is running or unknown |
| Decisions.NewIsSeen | src/recovery/evidence.ts:57 | a row with fewer than five rivals is in every answer of the window query |
| Decisions.OldIsMissed | src/recovery/evidence.ts:57 | a row with five newer ones is in none |
| Decisions.ResumeSeesEverything | src/tasks/task-engine.ts:90-93 | resume accepts only when no work of the task in the whole store is running or unknown |
| Startup.SweepTraced | src/operations/operation-lease.ts:95-107 | any reclaim loop is a run of the model |
| Canonical.PrintsAlikeIffSame | src/idempotency/idempotency.ts:22-28 | two values print alike exactly when they are the same up to key order, byte arrays counting as their text |
| Canonical.TreesPrintAlikeIffEqual | src/idempotency/idempotency.ts:22-28 | JSON trees print alike exactly when equal up to object key order |
| Canonical.RoundTrip | src/idempotency/idempotency.ts:23-27 | a parser reads a printed value back, whatever follows it; strings as in section 7 of RFC 8259 |
| Canonical.BytesCollideWithText | src/idempotency/idempotency.ts:25 | with byte arrays allowed two different values print alike |
| Canonical.SortIncreasing | src/idempotency/idempotency.ts:27 | sorting distinct keys leaves them strictly increasing |
| Redactor.DrainJoins | src/commands/process-executor.ts:54-80 | draining text in two pieces is draining it at once |
| Redactor.DrainIsBatch | src/commands/process-executor.ts:54-80 | draining with a final flush is redaction line by line |
| Redactor.BatchIs | src/commands/process-executor.ts:63-72 | each line contributes nothing while a private-key block is open, the marker where one begins, and its own redaction everywhere else |
| Redactor.KeyBlocksNeverShow | src/commands/process-executor.ts:63-72 | lines that differ only inside private-key blocks produce the same output |
| Redactor.KeyTextNeverShows | src/commands/process-executor.ts:63-72 | so do whole texts |
| Redactor.KeyStreamNeverShows | src/commands/process-executor.ts:135-140 | so do captured streams, whatever their chunks and within whatever limit |
| Redactor.AppendStep | src/commands/process-executor.ts:28-33 | bounded appends keep the first limit bytes of the stream |
| Redactor.OverranMeansLost | src/commands/process-executor.ts:136-138 | for nonempty chunks the truncation flag is set exactly when the stream exceeds the limit |
| SqlScanner.ContainsMultipleStatements | src/database/sql-safety.ts:21-35 | the five-flag loop, flags pairwise exclusive, answers exactly what the recursive lexer does |
| SqlScanner.SeparatesIffSome | src/database/sql-safety.ts:32 | true exactly when some semicolon token has a remainder that is not blank |
| SqlScanner.DoubledQuote | src/database/sql-safety.ts:29-31 | a doubled quote inside quotes is an escape, for each of the three quote characters |
| SqlScanner.StripLeadingComments | src/database/sql-safety.ts:10-19 | the loop terminates and strips trimmed comments from the front |
| SqlScanner.StripIsIdempotent | src/database/sql-safety.ts:10-19 | stripping twice is stripping once |
| SqlScanner.CommentKeepsScan | src/database/sql-safety.ts:25-28 | a complete comment in front does not change the scan of a statement |
| SqlScanner.CommentChangesNothing | src/database/sql-safety.ts:49-53 | nor the classification, the errors included |
| SqlScanner.NoSeparatorLeft | src/database/sql-safety.ts:52-53 | the statement handed to the keyword rules has no separator outside quotes and comments |
| SqlScanner.AcceptedIff | src/database/sql-safety.ts:49-53 | a query is classified exactly when it is not blank, has no NUL and no semicolon token with anything but white space behind it |
| SqlScanner.StatementIsKept | src/database/sql-safety.ts:53 | a trimmed statement without a comment in front is handed on whole, with or without a semicolon behind it |
| RateLimiter.ConsumeKeepsWellFormed | src/mcp/auth.ts:65-89 | the map never exceeds maxKeys and keeps distinct keys |
| RateLimiter.ConsumedKeyStays | src/mcp/auth.ts:69-71 | a newly inserted key survives its own prune |
| RateLimiter.BlockedPredictsConsume | src/mcp/auth.ts:57-76 | isBlocked predicts the next consume exactly |
| RateLimiter.AllowedIff | src/mcp/auth.ts:65-76 | a consume succeeds exactly when the key has no entry, its window is over or its count is below the limit |
| RateLimiter.CheckIs | src/mcp/auth.ts:57-63 | looking removes the key's entry exactly when its window is over |
| RateLimiter.EvictedIs | src/mcp/auth.ts:78-89 | a new key in a full map pushes out the first entry whose window is over, and only if there is none the oldest |
| RateLimiter.AtMostTwiceTheLimit | src/mcp/auth.ts:65-76 | without eviction and with a nondecreasing clock any interval of one window holds fewer than 2 * limit successes of a key |
| RateLimiter.TheBoundIsMet | src/mcp/auth.ts:65-76 | for every limit and every window longer than one tick a run and an interval that reach 2 * limit - 1 |
| FileService.EntryIffSomebody | src/files/file-service.ts:215-227 | the lock map has an entry exactly while somebody holds or awaits the path |
| FileService.MutualExclusion | src/files/file-service.ts:215-227 | two calls are never inside the lock of one path |
| FileService.FirstComeFirstServed | src/files/file-service.ts:216-221 | calls enter in the order they arrived, whether or not earlier ones threw |
| FileService.AcceptedEdit | src/files/file-service.ts:102-113 | an edit is accepted exactly when the content read has the hash given, both sizes are within the limit and every occurrence begins within the first; it replaces the first, and none begins behind it |
| FileService.RefusedEdit | src/files/file-service.ts:102-113 | exactly when an edit is refused for its hash, for a missing text, for a text found twice, and for a size |
| FileService.UniqueIff | src/files/file-service.ts:106-109 | acceptance means a unique occurrence, for every content, exactly when no proper prefix of the expected text is also its suffix |
| FileService.OverlapIsAccepted | src/files/file-service.ts:106-109 | an occurrence that overlaps the first is not seen: an input |
| OAuth.NormalizedScopeIsNormal | src/oauth/oauth-service.ts:96-101 | a normalized scope is one of two fixed texts and is its own normal form |
| OAuth.HandleKeeps | src/oauth/oauth-service.ts:286-393 | every request keeps the table invariant |
| OAuth.OneTokenResponseEach | src/oauth/oauth-service.ts:296-332 | over every run with retention a code, and a refresh token, yields at most one token response |
| OAuth.CodeResponseIsBound | src/oauth/oauth-service.ts:304-312 | a token response to a code means that it was live, every binding matched and the verifier fits (section 4.1.3 of RFC 6749, section 4.6 of RFC 7636) |
| OAuth.RegisterIff | src/oauth/oauth-service.ts:154-200 | a client is registered exactly when rate and metadata allow it |
| OAuth.RegisterPrunesIff | src/oauth/oauth-service.ts:379-393 | exactly which codes, tokens and clients a registration leaves |
| OAuth.AuthorizeIff | src/oauth/oauth-service.ts:219-284 | a code is issued exactly when client, redirect, scope, resource, rate, PKCE parameters and the owner's secret are in order; its row keeps what was asked for |
| OAuth.CodeIff | src/oauth/oauth-service.ts:296-313 | a code gets its tokens exactly when all fields are given, it is live, client, redirect and resource are its own, the resource the configured one and the verifier fits; otherwise nothing changes |
| OAuth.RefreshIff | src/oauth/oauth-service.ts:315-332 | a refresh token gets new tokens exactly when the fields are given, it is live, client, resource and principal are its own and the configured ones; otherwise nothing changes (section 6 of RFC 6749) |
| OAuth.FreshCodeAccepted | src/oauth/oauth-service.ts:235-313 | a code just issued is accepted from its client with its bindings within five minutes, whatever was requested in between, unless it was exchanged |
| OAuth.FreshTokenAccepted | src/oauth/oauth-service.ts:315-364 | a refresh token just issued is accepted from its client within its lifetime, whatever was requested in between, unless it was exchanged |
| OAuth.RotationKeepsGrant | src/oauth/oauth-service.ts:321-331 | client, resource and scope stay fixed along rotation and the old token is revoked |
| OAuth.OneLiveTokenPerAuthorization | src/oauth/oauth-service.ts:328-364 | each authorization has at most one unrevoked refresh token |
| OAuth.PruningIsInvisible | src/oauth/oauth-service.ts:379-383 | expiry pruning at any moment changes no later response |
| OAuth.LiveGrantsSurvive | src/oauth/oauth-service.ts:385-393 | orphan pruning never removes the client of a live grant |
| Stores.IdempotencyStore.RequireReplayable | src/idempotency/idempotency.ts:68-75 | null exactly for an absent key, the stored answer exactly for a completed record of this fingerprint, else one of the three conflicts |
| Stores.IdempotencyStore.Begin | src/idempotency/idempotency.ts:37-58 | inserts an IN_PROGRESS row exactly when the key is absent; a different fingerprint is refused |
| Stores.IdempotencyStore.Finish | src/idempotency/idempotency.ts:77-84 | a missing key or one terminal with another status is refused; otherwise the row is settled |
| Stores.IdempotencyStore.FailIfInProgress | src/operations/persistent-operation.ts:111-112 | the catch blocks fail a key only while it is in progress |
| Stores.OperationLeaseStore.Acquire | src/operations/operation-lease.ts:44-75 | refused for a bad TTL or a live lease of another owner, otherwise the one upsert |
| Stores.OperationLeaseStore.Renew | src/operations/operation-lease.ts:77-81 | only the owner's own lease is extended |
| Stores.OperationLeaseStore.Release | src/operations/operation-lease.ts:83-87 | deletes the row exactly when the owner holds it, and says so |
| Stores.OperationLeaseStore.ReclaimExpired | src/operations/operation-lease.ts:95-107 | exactly the expired or unreadable leases go, counted, in any order, each statement one step of the model |
| Operations.PersistentOperationManager.Start | src/operations/persistent-operation.ts:73-115 | the statements, the entry of `active` and the answer are the model's, for which `Conditions.StartReplyIff` holds; a returned id is the answer the key now gives and its row exists |
| Operations.PersistentOperationManager.TryStart | src/operations/persistent-operation.ts:98-114 | the try and catch after the key has begun: lease, row with its two foreign keys, completed key, or the key failed |
| Operations.PersistentOperationManager.Settle | src/operations/persistent-operation.ts:147-166 | the unguarded UPDATE, the release and the map entry |
| Operations.PersistentOperationManager.Tick | src/operations/persistent-operation.ts:143-146 | one renewal tick |
| Operations.PersistentOperationManager.RequestCancellation | src/operations/persistent-operation.ts:117-124 | marks a RUNNING row once |
| Operations.PersistentOperationManager.ReconcileAfterRestart | src/operations/persistent-operation.ts:131-136 | every RUNNING row becomes UNKNOWN, and the count of them is returned |
| Operations.PersistentOperationManager.Shutdown | src/operations/persistent-operation.ts:138-141 | starts are refused from now on; exactly the active operations are awaited |
| Jobs.JobManager.Begin | src/jobs/job-manager.ts:43-65 | the recorded job, a refusal, or key begun and lease taken, or the key failed |
| Jobs.JobManager.Admits | src/jobs/job-manager.ts:69-79 | the checks inside the transaction in their order, and the foreign key of its INSERT |
| Jobs.JobManager.Attach | src/jobs/job-manager.ts:66-103 | admitted exactly under the limits and checks of the transaction; row, effect and completed key, or release and failed key |
| Jobs.JobManager.Exit | src/jobs/job-manager.ts:91-92 | the outcome, CANCELLED when aborted; `Conditions.ExitIff` says which |
| Jobs.JobManager.CleanUp | src/jobs/job-manager.ts:93 | map entries and lease go |
| Jobs.JobManager.Cancel | src/jobs/job-manager.ts:109 | refused unless RUNNING, then unless attached, else aborted |
| Jobs.JobManager.ReconcileAfterRestart | src/jobs/job-manager.ts:112-116 | every RUNNING row becomes UNKNOWN |
| Guards.GuardedMutations.Begin | src/database/database-service.ts:116-130 | the recorded result, a refusal, or key begun, lease taken and effect running exactly when both are free |
| Guards.GuardedMutations.End | src/services/service-controller.ts:92-97 | the key completed with the result when the effect returned and failed when it threw, then the release |
| Tasks.TaskEngine.Create | src/tasks/task-engine.ts:46-50 | a PENDING row, refused by the foreign key when the project has no row |
| Tasks.TaskEngine.SetStatus | src/tasks/task-engine.ts:54-60 | accepts the same status or an edge of the table |
| Tasks.TaskEngine.RecordError | src/tasks/task-engine.ts:78 | the task fails from any status that may fail |
| Tasks.TaskEngine.BlockingWork | src/tasks/task-engine.ts:90-93 | null exactly when every job and operation of the task has settled; otherwise it names one that has not, a running job before an UNKNOWN one and any job before an operation |
| Tasks.TaskEngine.HasVerifiedResumeDecision | src/tasks/task-engine.ts:94 | the decided run of the highest attempt recommends resume |
| Tasks.TaskEngine.Resume | src/tasks/task-engine.ts:62-70 | accepts exactly when resumable, in a resumable status, unblocked and, out of recovery, recommended |
| Tasks.TaskEngine.Pause | src/tasks/task-engine.ts:71 | accepts exactly a RUNNING task without blocking work |
| Tasks.TaskEngine.Cancel | src/tasks/task-engine.ts:72 | cancel up to its wait for the attached job, which it aborts, or all of it in one go when no job runs |
| Tasks.TaskEngine.EndCancel | src/tasks/task-engine.ts:72 | cancel after its wait, refused by an unknown job |
| Tasks.TaskEngine.MarkInterruptedForRecovery | src/tasks/task-engine.ts:79 | every interrupted task needs recovery, and their number is returned |
| Tasks.TaskEngine.MarkUnknownWorkForRecovery | src/tasks/task-engine.ts:80 | every non-terminal task with UNKNOWN work needs recovery, and their number is returned |
| Deployments.DeploymentEngine.Record | src/deployment/deployment-engine.ts:75-83 | from the end of the precheck to the deploy command, each statement on its own |
| Deployments.DeploymentEngine.Acted | src/deployment/deployment-engine.ts:84-97 | command, restart and HEAD done |
| Deployments.DeploymentEngine.ServiceIs | src/deployment/deployment-engine.ts:99-106 | service state read: on to the health check, or the catch |
| Deployments.DeploymentEngine.HealthIs | src/deployment/deployment-engine.ts:107-120 | health read: success, or the catch when health or the task refuses |
| Deployments.DeploymentEngine.Fail | src/deployment/deployment-engine.ts:115-119 | row FAILED, then the task unless it is terminal |
| Rollbacks.RollbackEngine.Reasons | src/recovery/rollback-engine.ts:117-126 | no reason is collected exactly when the plan is ready |
| Rollbacks.RollbackEngine.BeginPlan | src/recovery/rollback-engine.ts:105-111 | one read of the task and its deployment |
| Rollbacks.RollbackEngine.CommitPlan | src/recovery/rollback-engine.ts:128-138 | plan row, rollback state and requested task status |
| Rollbacks.RollbackEngine.Open | src/recovery/rollback-engine.ts:143-148 | only a READY plan of the project goes on |
| Rollbacks.RollbackEngine.Run | src/recovery/rollback-engine.ts:148-157 | blocked by a failed check, else marked and its command run |
| Rollbacks.RollbackEngine.Acted | src/recovery/rollback-engine.ts:158-164 | on after a clean exit with HEAD at the target, the exit on record, or the catch |
| Rollbacks.RollbackEngine.Succeed | src/recovery/rollback-engine.ts:182-188 | the record of success |
| Rollbacks.RollbackEngine.Fail | src/recovery/rollback-engine.ts:189-196 | the catch of execute |
| Rollbacks.RollbackEngine.ServiceIs | src/recovery/rollback-engine.ts:166-178 | service state read |
| Rollbacks.RollbackEngine.HealthIs | src/recovery/rollback-engine.ts:178-188 | health read |
| Recoveries.RecoveryEngine.Open | src/recovery/recovery-engine.ts:63-74 | attempt number and RECOVERING, or the limit branch |
| Recoveries.RecoveryEngine.Close | src/recovery/recovery-engine.ts:77-98 | the run's row, its decision and the task status that follows; a run without a decision when `decide` throws |
| Startup.ServerAgent.Start | src/runtime/server-agent.ts:78-114 | the startup statements are the trail of a run of the model from a crash to a serving agent, wherever maintenance stops |
| Redactor.SafeStreamingRedactor.Push | src/commands/process-executor.ts:44-47 | what has been emitted so far is the drain of everything decoded so far |
| Redactor.SafeStreamingRedactor.Flush | src/commands/process-executor.ts:49-52 | the total output is the batch redaction of the whole text |
| Redactor.SafeStreamingRedactor.DrainPending | src/commands/process-executor.ts:54-80 | the loop terminates and computes the recursive drain |
| Redactor.CapturedStream.OnData | src/commands/process-executor.ts:135-140 | the buffer is the first limit bytes of what arrived, the flag says whether more came |
| Redactor.CapturedStream.OnClose | src/commands/process-executor.ts:135-140 | the text passed on is the batch redaction of the first limit bytes, whatever the chunking |
| RateLimiter.FixedWindowRateLimiter.IsBlocked | src/mcp/auth.ts:57-63 | the answer and the map after it |
| RateLimiter.FixedWindowRateLimiter.Consume | src/mcp/auth.ts:65-76 | the answer and the map after it, prune included |
| RateLimiter.FixedWindowRateLimiter.Prune | src/mcp/auth.ts:78-89 | the two loops over the insertion-ordered map |
| FileService.FileService.Arrive | src/files/file-service.ts:216-220 | a call joins the end of its path's queue |
| FileService.FileService.Enter | src/files/file-service.ts:221-222 | the lock is entered when the call before is over |
| FileService.FileService.Plan | src/files/file-service.ts:103-110 | the read and the edit planned on it, or the refusal, of a file or a result beyond the size limit too |
| FileService.FileService.Recheck | src/files/file-service.ts:190-193 | the second read compared with the first |
| FileService.FileService.Leave | src/files/file-service.ts:223-226 | the release, and the entry only when nobody came after |
| FileService.FileService.Rename | src/files/file-service.ts:190-195 | the file becomes the planned content |
| FileService.FileService.Write | src/files/file-service.ts:84 | a write inside the lock replaces the file, without a compare |
| FileService.FileService.Delete | src/files/file-service.ts:120-125 | a delete inside the lock removes the file, or refuses when it is gone |
| OAuth.OAuthService.HandleRegister | src/oauth/oauth-service.ts:154-200 | retention, then the client row, or the refusal |
| OAuth.OAuthService.AuthorizePost | src/oauth/oauth-service.ts:219-248 | the checks in their order and the code row |
| OAuth.OAuthService.ExchangeAuthorizationCode | src/oauth/oauth-service.ts:296-313 | the checks in their order, the spent code, the tokens |
| OAuth.OAuthService.ExchangeRefreshToken | src/oauth/oauth-service.ts:315-332 | the checks in their order, the revoked token, the new ones |
| OAuth.OAuthService.IssueTokens | src/oauth/oauth-service.ts:334-364 | a refresh row exactly for an offline scope of a known client |
| OAuth.OAuthService.RemoveExpired | src/oauth/oauth-service.ts:379-383 | expired and used codes and expired refresh tokens go |
| OAuth.OAuthService.RemoveOrphans | src/oauth/oauth-service.ts:385-393 | day-old clients without codes or tokens go |

## Left out

- Identifier validation: blank or over-long scopes, keys and ids are refused by the source before anything is written; the model starts after those checks.
- Columns that decide nothing: timestamps other than lease expiry, key age and run end, stored evidence and its redaction, task checkpoints, Git references and command records.
- Errors thrown by the database itself between two statements: only as a crash.
- The mutation guard of maintenance mode, disk checks, permission tables and project validation; of a project record only the id is kept, and it is never removed, as archiving leaves the row.
- Retention of audit, health and validation rows and of job log files, which no modelled decision reads.
- RunsInvariant.CountIsMax: nothing is claimed for validation attempts or for terminal tasks, where retention can make the count differ from the maximum.
- Guarantees.OneSectionPerProject: holds under the clock assumptions above; a section that outlives its TTL can overlap the next holder.
- Guarantees.RollbackRunsOnceChecked: after a crash between `setDeployment` and `setRollbackState` the version from before the deployment is not what is checked; Guarantees.CutRecordIff says when.
- Guarantees.UnknownIsForGood: docs/recovery.md speaks of checking whether a job still lives after a restart; the code marks every RUNNING job UNKNOWN, and the model follows the code.
- `JobManager.shutdown`, which aborts every attached job as `cancel` does and waits for them.
- Guards.GuardedMutations.Begin: stands for `guardedWrite` and for `restart`, which differ only in scope, names and stored result.
- Guarantees.SucceededMeansDone: says nothing about what a validation operation or the run of a recovery operation found; a rollback operation is started as the tool does it, with the task of its plan.
- Decisions.ResumeIff: decisions are not tied to what a run's evidence was; the transition system lets an assessment decide anything, so its guarantees hold for any decision rule.
- Redactor.DrainIsBatch: the per-line redaction is a parameter, with no claim that it removes every secret; the UTF-8 decoder is any byte-by-byte transducer.
- SqlScanner.CommentChangesNothing: the keyword rules are a parameter.
- FileService.MutualExclusion: for this process only; a writer outside it may still change the file between the second read and the rename.
- RateLimiter.AtMostTwiceTheLimit: says nothing about a key that was evicted while its window was open.
- OAuth.NormalizedScopeIsNormal: the authorization form stores the scope it is posted, which need not be normalized; the other results do not need it to be.
- HTTP, JSON-RPC and MCP plumbing, HTML pages, configuration, real processes, Git, systemd, sockets, DNS and file system paths.
