# Verification of the run platform's core

This project models the core of an agent-run platform in Dafny 4.11 and proves what its protocols
and algorithms keep. `dafny verify dfyconfig.toml` checks all of it.

It covers six parts of the system.

1. **Run control.** A run moves between PENDING, RUNNING, PAUSED, COMPLETED, FAILED and CANCELLED by
   compare-and-swap on its status and control version. The API queues jobs stamped with the new
   version, workers claim them and fence every write with a token, sweepers expire, remind and purge,
   and all writers append to one numbered event log that the server-sent event stream replays.
   `RunRecord` holds the transactions as functions, `RunRepository` the same as methods on the stored
   rows, `RunProcessor` the worker program, and `RunHistory` the whole system as histories: any
   sequence of API actions, deliveries, redeliveries, worker transactions, crashes, sweeper reads and
   sweeper writes. `RunLaws`, `RunEvents`, `RunTasks`, `RunApproval`, `RunGates`, `RunOrder`,
   `RunEffects`, `RunOnce`, `RunProgress`, `RunOverlap`, `RunFiles`, `RunRepairs` and `RunSweeps` prove
   what every history keeps; `RunWrites`, `RunAttempts`, `RunTrace` and `RunStamps` what its log and
   its stamps say, `RunReminders` how long a reminded run has waited; `ExpirySweeper`, `EventStream`
   and `EventStreamEnd` are the sweeper's batch loops and the stream.
2. **Generated databases.** `DatabaseLifecycle`, `DatabaseProcessor` and `DatabaseHistory` model the
   instance row, the job program and their interleavings; `DatabaseLaws`, `DatabaseExits`,
   `DatabaseRecovery`, `DatabaseOutcomes`, `DatabaseOverlap` and `DatabaseMigrations` prove what they keep. `ReconciliationFindings` and
   `FindingHistory` model the findings and overlapping sweeps, with `FindingLaws`, `FindingClaims` and
   `FindingOverlap`;
   `ReconcilePasses` and `Reconciler` one whole sweep with its loops and failure paths.
3. **Crash-safe provisioning.** `SecretStore`, `Provisioning`, `ProvisioningLaws`,
   `ProvisioningOutcome`.
4. **Provider budget.** `BudgetPricing`, `BudgetLedger`, `BudgetGateway`, `BudgetCaps`.
5. **File revisions.** `FileRevisions`, `FileLaws`.
6. **Memory text algorithms.** `Text`, `Normalize`, `NormalizeGaps`, `Chunker`, `ChunkerLaws`,
   `ChunkerBreaks`, `ChunkerRoundTrip`, `Fusion`, `FusionLaws`, `FusionOrder`.

Each history module folds a deterministic `Apply` over a sequence of steps, and the main results hold
for every such sequence. Classes carry the imperative form of the source; each of their methods is
tied to the function the histories use.

Assumptions: one database transaction, and one guarded update, is one atomic step, and its answer
reaches the caller or the caller stops. Clocks are monotone; a handler may stamp a time and commit
later. A new run is PENDING with version 0, no error and event sequence 0. At most one RUNNING sweep
per provider is a uniqueness constraint, as is one owner per provider resource. File paths inside one
patch are distinct; a repeated path is a uniqueness violation that rolls the transaction back. Queued
jobs may be delivered any number of times, late or never. A new job may be handed any outputs that
agents of the same run produced earlier.

Nine properties do not hold of the code without a condition. For each the project has a concrete input
that shows it, where one is needed, and the exact condition:

- A COMPLETED task stays COMPLETED only while deliveries of one job do not overlap
  (`RunOverlap.OverlapTakesACompletionBack`, `RunOverlap.OnlyALateFailureRegresses`).
- An expired run had been PAUSED since before the cutoff exactly when the pause had committed before
  it; the stamp that is compared may be older than the commit (`RunSweeps.ALaggingPauseExpiresEarly`,
  `RunSweeps.ExpiryIsTimelyExactlyWhenThePauseWas`). If pauses commit within a known lag of their
  stamp, the pause covers everything from the cutoff plus that lag on, and with no lag from the cutoff
  (`RunSweeps.ExpiryIsTimelyUpToTheLag`).
- A run that is reminded of had been PAUSED since before the cutoff exactly when it is still at the
  version the sweeper saw, which the reminder does not compare, and that version had committed before
  the cutoff (`RunReminders.AReminderCanComeEarly`, `RunReminders.ReminderIsTimelyExactly`).
- A stream that has closed holds the whole log exactly when no event was added after its last read of
  the log; the end of the run is looked up later (`EventStreamEnd.TheLastEventCanBeMissed`,
  `EventStreamEnd.ClosedStreamIsCompleteExactly`).
- A READY or DELETED instance becomes FAILED exactly when a failure of its own version is recorded
  late, or its resource has been missed twice (`DatabaseOverlap.SettledFailsExactly`). Two overlapping
  deliveries can do it (`DatabaseOverlap.OverlapFailsAServedInstance`); without overlap no worker does
  (`DatabaseOverlap.SettledStaysWithoutOverlap`).
- A destroy that is recovered goes on as a provision exactly when it has failed before
  (`DatabaseOverlap.ARequestedDestroyCanProvision`, `DatabaseOverlap.DestroyIsRecoveredAsProvisionExactly`).
- The migration run of an instance that is migrating is marked as failed exactly when a worker of an
  earlier version fails late (`DatabaseMigrations.AStaleFailureBreaksAMigration`,
  `DatabaseMigrations.MigrationIsBrokenExactly`); that a READY instance has a succeeded run holds always.
- A granted cleanup claim is the only one on its resource exactly when no sweep that has ended or was
  abandoned still holds one (`FindingOverlap.TwoSweepsCanDestroyOneResource`,
  `FindingOverlap.GrantedClaimIsSoleExactly`).
- A model call within its token bounds costs no more than its reservation exactly when the worst call
  within those bounds does, where all input counts as cached if the cached rate is the dearer one
  (`BudgetPricing.CostCoveredExactly`). A cached rate no dearer than the input rate is enough
  (`BudgetPricing.CheapCacheIsCovered`); a dearer one can break it
  (`BudgetPricing.DearCachedRateBreaksBound`).

## Model

| member | source | states |
|---|---|---|
| RunRepository.PrismaRunRepository.ClaimRun | apps/orchestrator-worker/src/repository.ts:74-134 | A claim gives back the RUNNING run at version + 1 on redelivery, takes a PENDING run at exactly the job's version to RUNNING one version up with its event, and is stale otherwise; a missing run is reported. |
| RunRepository.PrismaRunRepository.TouchActiveRun | apps/orchestrator-worker/src/repository.ts:1009-1024 | The fence: true exactly while the run is RUNNING at the token, and then only the heartbeat moves. |
| RunRepository.PrismaRunRepository.AppendEvent | apps/orchestrator-worker/src/repository.ts:1026-1048 | The counter is raised by one and the new event carries the raised number. |
| RunRepository.PrismaRunRepository.PrepareRunTask | apps/orchestrator-worker/src/repository.ts:136-170 | Stopped without an active token; an existing task is returned untouched; otherwise a pending task and its event are added. |
| RunRepository.PrismaRunRepository.SkipRunTask | apps/orchestrator-worker/src/repository.ts:173-209 | As PrepareRunTask, with a skipped task. |
| RunRepository.PrismaRunRepository.StartRunTask | apps/orchestrator-worker/src/repository.ts:212-249 | A COMPLETED task is returned untouched; any other becomes RUNNING with its attempt raised and an event. |
| RunRepository.PrismaRunRepository.CompleteRunTask | apps/orchestrator-worker/src/repository.ts:252-457 | Without an active token nothing changes; a completed task is returned; otherwise the file patch, the task row and all events commit together, or a conflict or error leaves files and task as they were. |
| RunRepository.PrismaRunRepository.Settle | apps/orchestrator-worker/src/repository.ts:284-457 | What follows the file patch: commit of task and events, or roll-back of run and files. |
| RunRepository.PrismaRunRepository.CommitCompletion | apps/orchestrator-worker/src/repository.ts:371-454 | The task becomes COMPLETED with its output and every completion event is appended in order. |
| RunRepository.PrismaRunRepository.AppendCompletionEvents | apps/orchestrator-worker/src/repository.ts:416-453 | The completion events go into the log in order, one number each. |
| RunRepository.PrismaRunRepository.FailRunTask | apps/orchestrator-worker/src/repository.ts:534-566 | Stopped without an active token; a missing task raises and changes nothing; otherwise the task becomes FAILED whatever it was, with its event. |
| RunRepository.PrismaRunRepository.ApplyRepairFiles | apps/orchestrator-worker/src/repository.ts:460-531 | A repair patch commits all its files and one event and lists the paths written, or nothing but the heartbeat on a conflict, or nothing at all. |
| RunRepository.PrismaRunRepository.RequestRunApproval | apps/orchestrator-worker/src/repository.ts:919-948 | RUNNING at the token becomes PAUSED one version up, stamped, with the approval event. |
| RunRepository.PrismaRunRepository.CompleteAgentRun | apps/orchestrator-worker/src/repository.ts:950-975 | RUNNING at the token becomes COMPLETED one version up with its event. |
| RunRepository.PrismaRunRepository.FailAgentRun | apps/orchestrator-worker/src/repository.ts:977-1002 | RUNNING at the token becomes FAILED one version up with the worker's error and its event. |
| RunRepository.PrismaRunRepository.CreateRun | apps/control-api/src/repository.ts:260-358 | One run per idempotency key: the same request again gives back its run, a different one is a conflict; an attachment that is not among the project's clean ones is refused; otherwise a PENDING run at version 0 is created. |
| RunRepository.PrismaRunRepository.Transition | apps/control-api/src/repository.ts:425-486 | Compare-and-swap on the status and version read before: the patch applies and the version rises by one, or nothing changes. |
| RunRepository.PrismaRunRepository.MarkFailed | apps/control-api/src/repository.ts:488-505 | A PENDING run at exactly that version becomes FAILED, at the same version. |
| RunRepository.PrismaRunRepository.ExpireRun | apps/orchestrator-worker/src/approval-expiry.ts:45-57 | A PAUSED run at the listed version becomes CANCELLED one version up with the expiry error. |
| RunRepository.PrismaRunRepository.RemindRun | apps/orchestrator-worker/src/approval-expiry.ts:218-229 | A PAUSED run without a reminder gets its stamp and one event. |
| RunRepository.PrismaRunRepository.PurgeRun | apps/orchestrator-worker/src/approval-expiry.ts:354-375 | A CANCELLED run not yet purged loses its prompt, checkpoint and attachment links in one go with every task's input and output, and gets one event. |
| RunLaws.CompletedKeeps | apps/orchestrator-worker/src/repository.ts:371-454 | A completion changes nothing of the control row and only its own task. |
| RunLaws.InactiveWorkerWritesNothing | apps/orchestrator-worker/src/repository.ts:1009-1024 | Without an active token no worker step changes the run or a file. |
| RunLaws.AdvanceMoves | apps/orchestrator-worker/src/repository.ts:136-1002 | Every worker step needs an active token and either keeps the control row or makes one exit from RUNNING, one version up. |
| RunLaws.LeftTokenStaysFenced | apps/orchestrator-worker/src/repository.ts:1009-1024 | Once the run has left RUNNING at a token, no step under that token ever writes again, whatever happens in between. |
| RunLaws.WorkerWritesOnlyUnderItsToken | apps/orchestrator-worker/src/repository.ts:919-1002 | A worker write commits only while the run is RUNNING at the worker's own token. |
| RunLaws.HistoryConsistent | apps/orchestrator-worker/src/repository.ts:74-134 | In every history the last entry fixes the status, claims follow PENDING versions, jobs and tokens belong to their entries, and errors to failures and expiries. |
| RunLaws.VersionsNeverFall | apps/control-api/src/repository.ts:449-480 | Control versions never fall and what produced a version is never rewritten. |
| RunLaws.OneJobPerVersion | apps/control-api/src/app.ts:484-500 | At most one job carries a version, and it is the job of the create or action that produced that version. |
| RunLaws.PendingOnlyWithANewVersion | apps/control-api/src/repository.ts:449-486 | Each version is PENDING at most once: PENDING is entered only together with a new version. |
| RunLaws.WorkerRunsTheAcceptedAction | apps/orchestrator-worker/src/repository.ts:81-111 | Any worker, first delivery or redelivery, runs exactly the command and scope of the accepted action that produced the PENDING version just below its token. |
| RunLaws.OneTokenOneJob | apps/orchestrator-worker/src/repository.ts:81-86 | Workers that hold one token run one job. |
| RunLaws.FinalStatusesStay | apps/control-api/src/app.ts:920-974 | COMPLETED and CANCELLED are never left, and keep their version. |
| RunLaws.ErrorsMarkFailuresAndExpiries | apps/orchestrator-worker/src/approval-expiry.ts:64-74 | An error is stored exactly on failed runs and on runs that expiry cancelled. |
| RunLaws.ActionJobFits | apps/control-api/src/app.ts:692-704 | The command and scope an action queues are those its entry stands for. |
| RunEvents.EventsAreNumbered | apps/orchestrator-worker/src/repository.ts:1026-1048 | With all writers interleaved a run's events are numbered exactly 1 to eventSequence. |
| RunEvents.LogIsAppendOnly | apps/orchestrator-worker/src/repository.ts:1040-1047 | The event log of an earlier state is a prefix of every later one. |
| RunTrace.LogTellsTheControlHistory | apps/orchestrator-worker/src/repository.ts:1026-1048 | In every history the claims with their command and version, the approval requests, the completions and the failures in the log are, in order, exactly those that gave the run its versions; each reminder and the purge are in it once. |
| RunAttempts.AttemptsAreLogged | apps/orchestrator-worker/src/repository.ts:136-457 | In every history, overlapping deliveries included, each agent's task is created once in the log, its attempts are logged as 1 to n with n the number on its row, and each completion and failure under the attempt it ends. |
| RunStamps.StampsFollowTheStatus | apps/control-api/src/app.ts:934-973 | In every history a run has a start exactly if it was claimed since its creation or last retry, an end exactly if it is COMPLETED or FAILED, a cancellation exactly if it is CANCELLED, and no pause or reminder outlives its pause. |
| RunStamps.WorkerBeatsTheHeart | apps/orchestrator-worker/src/repository.ts:1009-1024 | A worker that changes its run leaves its own clock as the heartbeat and the start as it was. |
| RunStamps.ClaimKeepsTheStart | apps/orchestrator-worker/src/repository.ts:95-111 | A claim stamps the start only if there is none. |
| RunStamps.ActionIsTakenExactly | apps/control-api/src/app.ts:920-974 | An action goes through exactly if the run is still as the handler read it and in a status that allows the action; then the version rises by one and, if the run is PENDING, its job exists. |
| RunStamps.MarkHitsOnlyTheWaitingVersion | apps/control-api/src/repository.ts:488-505 | A mark for a failed enqueue fails exactly the PENDING run at its version, and never one that was claimed or has moved on. |
| RunTasks.AdvanceTasks | apps/orchestrator-worker/src/graph.ts:112-266 | A worker step changes at most the task of the agent it stands at, and only as its phase allows. |
| RunTasks.AdvanceOutputs | apps/orchestrator-worker/src/graph.ts:172-194 | A worker's outputs grow only by what it restored from a completed task or has just handed in. |
| RunTasks.OutputsAreSourced | apps/orchestrator-worker/src/graph.ts:47-50 | Every output carried or stored was handed in by an agent of this run. |
| RunApproval.AlexNeedsClearance | apps/orchestrator-worker/src/graph.ts:268-299 | Alex gets a task row or is executed only if a plan gate of this run saw a plan of Mike's that asks for no approval and found no references, or the API accepted an approve with scope plan. |
| RunApproval.ReferencesForceApproval | apps/orchestrator-worker/src/graph.ts:272-278 | In a history whose every plan gate finds references, Alex gets a task row or is executed only after the API accepted an approve with scope plan, whatever Mike's plan says. |
| RunApproval.AdvancePhases | apps/orchestrator-worker/src/graph.ts:333-354 | Only the plan gate leads from before it to beyond it, and only by Alex's earlier output, an opening, or a plan approval. |
| RunApproval.PlanJobMeansApproval | apps/control-api/src/app.ts:941-947 | A worker whose job is a plan approval goes back to the accepted approve with scope plan that produced the job's version. |
| RunGates.VariantsNeedApproval | apps/orchestrator-worker/src/graph.ts:301-331 | No worker checks routes, validates or completes a project for which Adrian proposed copy variants unless the API accepted an approve with scope content and the worker runs that very job. |
| RunGates.CompletionWithVariantsIsApproved | apps/orchestrator-worker/src/processor.ts:164-224 | A run completes with copy variants in hand only after the content was approved. |
| RunGates.ContentGateAsksExactly | apps/orchestrator-worker/src/graph.ts:301-331 | A worker at the content gate parks the run for approval exactly if there are variants and its job is no unused content approval, and goes on exactly otherwise. |
| RunGates.PlanGateAsksExactly | apps/orchestrator-worker/src/graph.ts:268-299 | The same of the plan gate, for a worker that has Mike's plan. |
| RunGates.EveryGatePauseWasAsked | apps/orchestrator-worker/src/repository.ts:919-948 | Every pause for an approval goes back to a worker at that gate that had to ask: for content, one whose output of Adrian's has variants and whose job is no unused content approval. |
| RunOrder.AgentsComeInOrder | apps/orchestrator-worker/src/graph.ts:333-354 | In every history a worker stands at an agent only when each agent ahead of it has a task row, and behind the content gate only when all eight have. |
| RunOrder.ContentGateComesLast | apps/orchestrator-worker/src/graph.ts:349-354 | The content gate is reached only after Alex, David, Sarah and Adrian, and the four planners before them, have a task row. |
| RunEffects.CompletionCounts | apps/orchestrator-worker/src/repository.ts:416-453 | A completion writes each effect of its agent once, the SEO and content packages only for Sarah and Adrian, and nothing of another agent. |
| RunEffects.AdvanceEffects | apps/orchestrator-worker/src/repository.ts:252-457 | A worker step writes no agent effect and completes nothing, or completes one task with all its effects. |
| RunOnce.EffectsHappenExactlyOnce | apps/orchestrator-worker/src/graph.ts:156-194 | While deliveries of one job do not overlap: across redelivery, pause, resume and retry each completion, artifact and code event is in the log exactly once if the task is COMPLETED, else not at all. |
| RunOnce.CompletedOutputIsFinal | apps/orchestrator-worker/src/repository.ts:266-271 | While deliveries of one job do not overlap a COMPLETED task stays COMPLETED with the same output, until purging redacts it. |
| RunOnce.CompletedIsRestored | apps/orchestrator-worker/src/graph.ts:173-194 | Whatever the world answers, a worker that comes to a COMPLETED task never executes its agent and changes no task, event or file; with nothing in the way it goes on with the stored output. |
| RunProgress.ThrownForGoodFails | apps/orchestrator-worker/src/processor.ts:225-244 | A worker that throws for good with its token active leaves the run FAILED one version up with its error; with an attempt left, or without its token, it leaves the run as it is. |
| RunProgress.FailedExecutionIsRecorded | apps/orchestrator-worker/src/graph.ts:213-262 | An execution under an active token completes its task and goes on, or goes on to record that it failed with the error as raised. |
| RunProgress.FailureReachesTheTask | apps/orchestrator-worker/src/repository.ts:534-566 | The failure is then on the task's row and on no other, and the error goes to the catch block with its retryability. |
| RunProgress.StoppedWorkerEnds | apps/orchestrator-worker/src/graph.ts:141-172 | Without its token a worker ends at the next transaction it tries for an agent. |
| RunProgress.LastAttemptSettles | apps/orchestrator-worker/src/processor.ts:119-245 | On its last attempt an undisturbed worker never ends with its run still RUNNING: the run is PAUSED, COMPLETED or FAILED, one version above the token. |
| RunProgress.ClaimedRunArrives | apps/orchestrator-worker/src/processor.ts:119-224 | Any claimed run, whatever earlier workers had completed, is completed or parked at a gate within 35 transactions if nothing goes wrong and nobody interferes. |
| RunProgress.DeliveryResumes | apps/orchestrator-worker/src/repository.ts:74-134 | In every history exactly two kinds of delivery start a worker: of the pending version, and again of the run's own claim; any other changes nothing. |
| RunFiles.PatchCommitsWithTheTask | apps/orchestrator-worker/src/repository.ts:284-323 | An executing worker's step completes the task and lands its whole patch, with the paths written in the newest event, or leaves task and files as they were. |
| RunFiles.PatchesCommitExactlyOnce | apps/orchestrator-worker/src/repository.ts:252-457 | While deliveries of one job do not overlap: one step of the history completes Alex's or David's task if it is COMPLETED and none otherwise, and that step lands the whole patch and logs the paths it wrote. |
| RunFiles.OnlyTheseWriteFiles | apps/orchestrator-worker/src/repository.ts:284-531 | Files change only by the completion of Alex or David, by a repair under an active token, or by a user's edit. |
| RunFiles.FilesFollowTheFileLaws | apps/orchestrator-worker/src/repository.ts:312-323 | The files of every run history are those of a history of patches and edits, so per path their versions are exactly 1 to n. |
| RunFiles.RepairIsLogged | apps/orchestrator-worker/src/repository.ts:460-531 | A repair that commits leaves the paths it wrote in the newest event. |
| RunFiles.RejectedWorkIsNotCompleted | apps/orchestrator-worker/src/graph.ts:213-240 | David's work is never completed against his own checks of it. |
| RunRepairs.RepairsAreBounded | apps/orchestrator-worker/src/processor.ts:163-206 | In every history a worker writes at most as many repairs as it may spend, the one for missing routes included. |
| RunRepairs.RouteRepairIsAdvisory | apps/orchestrator-worker/src/processor.ts:75-117 | A repair for missing routes never fails a run: validation follows, unless the run was stopped. |
| RunRepairs.RouteRepairCountsExactly | apps/orchestrator-worker/src/processor.ts:82-117 | The repair for missing routes uses up one repair exactly when it has changed a file. |
| RunRepairs.RoundGoesOnExactly | apps/orchestrator-worker/src/processor.ts:164-224 | A round that does not validate is followed by another exactly when its repair has changed a file; otherwise the validation's error is thrown, or the run has been taken away. |
| RunRepairs.CompletionIsValidated | apps/orchestrator-worker/src/processor.ts:164-224 | A run becomes COMPLETED only by a worker whose token is active and whose project has just passed validation. |
| RunOverlap.OnlyALateFailureRegresses | apps/orchestrator-worker/src/repository.ts:547-554 | In any history a completed task is taken back exactly when a worker with the active token fails it after another delivery completed it. |
| RunOverlap.OverlapTakesACompletionBack | apps/orchestrator-worker/src/repository.ts:81-86 | A concrete history with two overlapping deliveries of one job in which a COMPLETED task becomes FAILED. |
| RunSweeps.ExpiryFindsAnUnbrokenPause | apps/orchestrator-worker/src/approval-expiry.ts:33-59 | An expiry cancels the version the sweeper saw, whose pause is stamped before the cutoff, and at that version the run was PAUSED throughout. |
| RunSweeps.ExpiryIsTimelyExactlyWhenThePauseWas | apps/orchestrator-worker/src/approval-expiry.ts:33-51 | The expired run had been PAUSED without interruption since before a time, such as the cutoff, if and only if the pausing transaction had committed before that time. |
| RunSweeps.ExpiryIsTimelyUpToTheLag | apps/orchestrator-worker/src/approval-expiry.ts:33-51 | If the pause committed within a lag of its stamp, the expired run had been PAUSED without interruption since before the cutoff plus that lag; without lag, since before the cutoff. |
| RunSweeps.ALaggingPauseExpiresEarly | apps/orchestrator-worker/src/approval-expiry.ts:36-36 | A concrete history: the pause stamp is taken before the commit, so a run can expire although it was paused after the cutoff. |
| RunSweeps.OnlyExpiredRunsAreRedacted | apps/orchestrator-worker/src/approval-expiry.ts:338-363 | Purging redacts only runs that expiry itself cancelled. |
| RunStamps.RedactionIsComplete | apps/orchestrator-worker/src/approval-expiry.ts:354-375 | A redacted run holds no agent's input or output any more, in every history. |
| RunSweeps.OneReminderPerPause | apps/orchestrator-worker/src/approval-expiry.ts:219-223 | At most one reminder is recorded per pause, and only paused versions get one. |
| RunReminders.ReminderIsTimelyExactly | apps/orchestrator-worker/src/approval-expiry.ts:191-229 | For any recorded reminder: the run had been PAUSED without interruption since before the cutoff if and only if it is still at the version the sweeper saw and that version had committed before the cutoff. |
| RunReminders.ReminderOfTheSeenPause | apps/orchestrator-worker/src/approval-expiry.ts:191-229 | If the pause that was seen committed within a lag of its stamp and is still the present one, it covers everything from the cutoff plus that lag on. |
| RunReminders.AReminderCanComeEarly | apps/orchestrator-worker/src/approval-expiry.ts:218-223 | A concrete history: the run is resumed and paused again between look and write, and the reminder is recorded for a pause that has just begun. |
| ExpirySweeper.ApprovalExpirySweeper.ExpirePausedRuns | apps/orchestrator-worker/src/approval-expiry.ts:28-61 | Left alone, one batch expires exactly the first candidates, each at the version it was listed with, and returns them. |
| ExpirySweeper.ApprovalExpirySweeper.SweepOnce | apps/orchestrator-worker/src/approval-expiry.ts:109-133 | A sweep expires only overdue runs; unless the ten-batch bound stopped it, no overdue run is left. |
| RunProcessor.RunGraphWorker.RunAgent | apps/orchestrator-worker/src/graph.ts:112-266 | A whole agent node: skip or prepare, start, execute, complete or fail, stopping where its answers end. |
| RunProcessor.RunGraphWorker.PlanGate | apps/orchestrator-worker/src/graph.ts:268-299 | Passes on Alex's output, an unneeded approval without references, or an unused plan approval; otherwise asks for approval and stops. |
| RunProcessor.RunGraphWorker.ContentGate | apps/orchestrator-worker/src/graph.ts:301-331 | Passes without copy variants or on an unused content approval; otherwise asks for approval and stops. |
| RunProcessor.RunGraphWorker.RepairMissingRoutes | apps/orchestrator-worker/src/processor.ts:82-117 | At most one repair, and only if the worker may spend one; a conflict or error is swallowed, and only a repair that wrote something counts. |
| RunProcessor.RunGraphWorker.ValidateRound | apps/orchestrator-worker/src/processor.ts:164-224 | Validation passes and the run completes; or a repair within the bound that wrote something starts the next round; or the validation's error goes to the catch block. |
| RunProcessor.RunGraphWorker.Catch | apps/orchestrator-worker/src/processor.ts:225-244 | A retryable error with attempts left leaves the run to the queue; any other fails the run. |
| RunProcessor.RunGraphWorker.Process | apps/orchestrator-worker/src/processor.ts:119-245 | From a claim on, the program does what its step machine does, cut off anywhere. |
| RunProcessor.ProgramIsAHistory | apps/orchestrator-worker/src/processor.ts:133-161 | The worker program is one of the histories the other results range over. |
| EventStream.ParseLastEventId | apps/control-api/src/app.ts:858-871 | An absent header is 0, a safe integer from 0 to 2147483647 is itself, and anything else is an error. |
| EventStream.StreamRunEvents | apps/control-api/src/app.ts:594-638 | The polling loop with its cursor writes what the batches after the cursor hold, batch after batch, until a short batch meets a terminal run. |
| EventStream.BatchFollows | apps/control-api/src/repository.ts:507-531 | A query returns the next events after the cursor, at most 100 of them. |
| EventStream.ConnectionEmitsConsecutively | apps/control-api/src/app.ts:595-619 | A connection writes events cursor + 1, cursor + 2, … in order without gap or repetition. |
| EventStream.RoundsCatchUp | apps/control-api/src/app.ts:621-623 | n rounds give a reader the next 100 n events or all there are, whether the run goes on or has ended. |
| EventStream.EmitSplits | apps/control-api/src/app.ts:594-638 | What a connection writes over two stretches of rounds is what it writes over the first, and then, if no round closed it, over the second from the last written event on. |
| EventStream.OpenConnectionGoesOn | apps/control-api/src/app.ts:621-638 | A connection that no round has closed writes in the next round what the log then holds beyond the last written event, at most 100 events. |
| EventStream.ClosedConnectionWritesNothing | apps/control-api/src/app.ts:625-631 | After the first round that reads fewer than 100 events of a terminal run nothing more is written. |
| EventStream.ReconnectionHasNoGapOrDuplicate | apps/control-api/src/app.ts:565-565 | Over any disconnects and reconnects with the last id received, what was received is a prefix of the log. |
| EventStream.StreamFollowsTheRun | apps/control-api/src/app.ts:594-638 | The same for a real run whose log grows while it is read. |
| EventStreamEnd.ClosedStreamHasWhatWasRead | apps/control-api/src/app.ts:594-631 | A connection that has closed has written exactly what its closing round had read of the log beyond the cursor. |
| EventStreamEnd.ClosedStreamIsCompleteExactly | apps/control-api/src/app.ts:621-631 | It holds the whole log if and only if the closing round had read the whole log. |
| EventStreamEnd.TheLastEventCanBeMissed | apps/control-api/src/app.ts:625-631 | A concrete run whose failure commits between the two reads of a round: the stream closes without the event that ended it. |
| DatabaseLifecycle.DatabaseInstances.ClaimJob | apps/orchestrator-worker/src/database-repository.ts:30-82 | A job is missing, stale (other version, no artifact or region, wrong status for its command), or claimed: a destroy touches only the heartbeat and attempt, a provision sets PROVISIONING and clears the error. |
| DatabaseLifecycle.DatabaseInstances.Provisioned | apps/orchestrator-worker/src/database-repository.ts:84-143 | PROVISIONING at the job's version becomes HEALTH_CHECK with its resource, unless another instance holds it. |
| DatabaseLifecycle.DatabaseInstances.HealthChecked | apps/orchestrator-worker/src/database-repository.ts:145-169 | Only HEALTH_CHECK at the job's version is touched. |
| DatabaseLifecycle.DatabaseInstances.MigrationStarted | apps/orchestrator-worker/src/database-repository.ts:171-216 | HEALTH_CHECK at the job's version becomes MIGRATING. |
| DatabaseLifecycle.DatabaseInstances.MigrationCompleted | apps/orchestrator-worker/src/database-repository.ts:231-283 | MIGRATING at the job's version becomes READY. |
| DatabaseLifecycle.DatabaseInstances.DestroyCompleted | apps/orchestrator-worker/src/database-repository.ts:285-320 | DELETING at the job's version becomes DELETED. |
| DatabaseLifecycle.DatabaseInstances.OperationFailed | apps/orchestrator-worker/src/database-repository.ts:322-339 | Whatever the status, the row at the job's version becomes FAILED. |
| DatabaseLifecycle.DatabaseInstances.CreateDatabaseOperation | apps/control-api/src/database-repository.ts:186-203 | A new instance is QUEUED at version 0; an existing one is untouched. |
| DatabaseLifecycle.DatabaseInstances.RequestDatabaseAction | apps/control-api/src/database-repository.ts:294-346 | A serving or failed instance becomes DELETING one version up with its recovery count kept; DELETING and DELETED are accepted as they are; other statuses are refused. |
| DatabaseLifecycle.DatabaseInstances.RecoverStaleOperations | apps/orchestrator-worker/src/database-reconciliation-repository.ts:126-244 | Each listed stale operation is skipped, exhausted or moved one version up with its dispatch, compare-and-swap on what was listed. |
| DatabaseLifecycle.CandidatesAreDistinct | apps/orchestrator-worker/src/database-reconciliation-repository.ts:135-146 | Every stale recoverable row is a candidate, exactly once. |
| DatabaseProcessor.DatabaseOperationProcessor.Process | apps/orchestrator-worker/src/database-processor.ts:54-175 | The job program does what its step machine does, cut off anywhere: claim, provision or destroy, health polls, migration, failure. |
| DatabaseProcessor.DatabaseOperationProcessor.AwaitHealthAndMigrate | apps/orchestrator-worker/src/database-processor.ts:100-166 | The health-poll loop ends healthy, unhealthy, timed out or stale, and only a healthy one migrates. |
| DatabaseProcessor.UndisturbedJobSettles | apps/orchestrator-worker/src/database-processor.ts:54-175 | A claimed job nobody disturbs is never skipped: it ends READY with its provider resource or DELETED, FAILED with its error, or crashed, at its own version. |
| DatabaseLaws.VersionsNeverFall | apps/orchestrator-worker/src/database-reconciliation-repository.ts:202-216 | The operation version never falls, has one log entry for every version, and the log is never rewritten. |
| DatabaseLaws.VersionRisesByOne | apps/orchestrator-worker/src/database-reconciliation-repository.ts:202-216 | The version of an instance rises by one for its dispatch in a recovery sweep and by one for an accepted destroy request; no other step moves it, and a sweep dispatches an instance at most once. |
| DatabaseLaws.RecoveriesAreFresh | apps/orchestrator-worker/src/database-reconciliation-repository.ts:202-224 | Every recovery is queued under a version above that of every job the instance had before, in the same sweep included. |
| DatabaseLaws.OldWorkersAreFenced | apps/orchestrator-worker/src/database-repository.ts:84-355 | Once an instance has moved past a job's version, no transaction for that job changes any row again. |
| DatabaseLaws.RecoveriesAreBounded | apps/orchestrator-worker/src/database-reconciliation-repository.ts:154-224 | Over a whole history, destroy requests included, an instance is dispatched for recovery exactly as often as its counter says and at most as often as the largest limit used. |
| DatabaseLaws.VersionIsAnAccount | apps/control-api/src/database-repository.ts:324-332 | The version equals recoveries plus accepted destroy requests. |
| DatabaseLaws.VersionFixesCommand | apps/orchestrator-worker/src/database-reconciliation-repository.ts:218-224 | Jobs that carry the same version carry the same command. |
| DatabaseLaws.DestroyWasRequested | apps/orchestrator-worker/src/database-processor.ts:65-76 | A worker destroys a resource only on a destroy request accepted for that instance, with only retries of it in between. |
| DatabaseLaws.ReadyMeansHealthyAndMigrated | apps/orchestrator-worker/src/database-processor.ts:118-166 | A READY instance was made so under its present version by a worker whose provider reported HEALTHY and whose migration succeeded. |
| DatabaseLaws.ResourcesHaveOneOwner | apps/orchestrator-worker/src/database-repository.ts:114-133 | No two instances hold one provider resource, and a serving instance holds one. |
| DatabaseExits.StatusMovesAlongEdges | apps/orchestrator-worker/src/database-repository.ts:30-355 | In every history, recovery sweeps included, a status changes only along the listed edges, each by its own kind of step. |
| DatabaseExits.ReadyExits | apps/orchestrator-worker/src/database-repository.ts:59-61 | A READY instance stays READY at its version, is failed at its version, or is taken for destruction one version up; no delivery provisions it again and no sweep touches it. |
| DatabaseExits.DeletedExits | apps/orchestrator-worker/src/database-repository.ts:45-48 | A DELETED instance stays DELETED at its version, or is marked by a failure recorded for that version. |
| DatabaseExits.SettledJobIsStale | apps/orchestrator-worker/src/database-repository.ts:45-61 | A delivery of a provision job to a serving or deleted instance, or of a destroy job to one in any status but DELETING, changes no row and its worker does nothing more. |
| DatabaseExits.CreatedJobIsTaken | apps/control-api/src/database-repository.ts:186-203 | The job of a new instance is taken as soon as it is delivered. |
| DatabaseExits.RequestedDestroyIsTaken | apps/control-api/src/database-repository.ts:294-346 | The job of an accepted destroy request is taken as soon as it is delivered. |
| DatabaseExits.DispatchedJobIsTaken | apps/orchestrator-worker/src/database-reconciliation-repository.ts:202-224 | Whatever a recovery sweep hands to the queue is taken when delivered, as what it was: provision or destroy. |
| DatabaseExits.DeletedMeansDestroyed | apps/orchestrator-worker/src/database-processor.ts:65-76 | An instance becomes DELETED only by a worker whose provider has just destroyed the very resource it held, if any. |
| DatabaseRecovery.EveryTransactionBeatsTheHeart | apps/orchestrator-worker/src/database-repository.ts:84-339 | A row that a transaction changes carries that transaction's time; only the mark for a missing resource does not. |
| DatabaseRecovery.OnlyFailuresAreRetryable | apps/orchestrator-worker/src/database-repository.ts:322-339 | In every history only a FAILED row has a retryable error stored. |
| DatabaseRecovery.RecoveryIsExact | apps/orchestrator-worker/src/database-reconciliation-repository.ts:126-244 | A sweep takes up exactly the stale instances, up to its limit: one given up is left alone, one whose recoveries are used up is failed for good and counted, any other is moved one version up and queued under it, as a destroy exactly if it was being deleted; every other row stays. |
| DatabaseRecovery.RepeatedDestroyChangesNoRow | apps/control-api/src/database-repository.ts:294-346 | A destroy request on an instance that is being deleted, is deleted or is still under way changes no row. |
| DatabaseRecovery.WorkerNeedsItsStatus | apps/orchestrator-worker/src/database-repository.ts:84-320 | A worker goes on, or writes anything but a failure, only while the row is at its version and in its status. |
| DatabaseOutcomes.UndisturbedJobEndsAsAnswered | apps/orchestrator-worker/src/database-processor.ts:54-175 | An undisturbed claimed job ends as the provider answers: which failure, resource conflict, poll or migration ends it, and with which error, or completes; a destroy asks the provider only if there is a resource. |
| DatabaseOverlap.SettledFailsExactly | apps/orchestrator-worker/src/database-repository.ts:322-339 | In every history a READY or DELETED instance becomes FAILED exactly by a failure recorded for its own version, or, if READY, by a second absence of its resource. |
| DatabaseOverlap.SettledStaysWithoutOverlap | apps/orchestrator-worker/src/database-processor.ts:54-175 | While no two deliveries of one operation are at work at once, no worker changes an instance that is READY or DELETED. |
| DatabaseOverlap.OverlapFailsAServedInstance | apps/orchestrator-worker/src/database-repository.ts:59-78 | A concrete history with two overlapping deliveries: one makes the instance READY, the other's failure makes it FAILED. |
| DatabaseOverlap.DestroyIsRecoveredAsProvisionExactly | apps/orchestrator-worker/src/database-reconciliation-repository.ts:202-224 | A recovered operation that is a destroy is dispatched as a provision if and only if the row is FAILED. |
| DatabaseOverlap.ARequestedDestroyCanProvision | apps/orchestrator-worker/src/database-reconciliation-repository.ts:202-224 | A concrete history: an accepted destroy request, nothing asked for since, and the instance is PROVISIONING. |
| DatabaseMigrations.ReadyMeansMigrationSucceeded | apps/orchestrator-worker/src/database-repository.ts:231-266 | In every history, stale and overlapping workers included, a READY instance has a succeeded migration run. |
| DatabaseMigrations.MigrationIsBrokenExactly | apps/orchestrator-worker/src/database-repository.ts:340-346 | The run of an instance that is and stays MIGRATING is marked failed exactly when a worker of another version records its failure. |
| DatabaseMigrations.AStaleFailureBreaksAMigration | apps/orchestrator-worker/src/database-repository.ts:340-346 | A concrete history: a fenced worker fails late and the migration under way is marked failed while the instance goes on migrating. |
| ReconciliationFindings.DatabaseReconciliationRepository.Begin | apps/orchestrator-worker/src/database-reconciliation-repository.ts:44-98 | Sweeps past their lease fail, their claims go back to APPROVED and a new sweep starts, unless another sweep still runs: then nothing changes. |
| ReconciliationFindings.DatabaseReconciliationRepository.ObserveOrphanResource | apps/orchestrator-worker/src/database-reconciliation-repository.ts:353-385 | An orphan is opened, reopened with its count, boundary and approval reset, or counted up with its boundary kept. |
| ReconciliationFindings.DatabaseReconciliationRepository.ObserveMissingResource | apps/orchestrator-worker/src/database-reconciliation-repository.ts:283-333 | A missing instance is observed, and its serving row fails from the second observation on if it has not moved. |
| ReconciliationFindings.DatabaseReconciliationRepository.ResolveMissingResource | apps/orchestrator-worker/src/database-reconciliation-repository.ts:335-351 | An open missing finding is resolved. |
| ReconciliationFindings.DatabaseReconciliationRepository.ResolveOrphanResource | apps/orchestrator-worker/src/database-reconciliation-repository.ts:438-452 | An unresolved orphan finding is resolved, whatever its status. |
| ReconciliationFindings.DatabaseReconciliationRepository.ResolveUnseenOrphanResources | apps/orchestrator-worker/src/database-reconciliation-repository.ts:454-474 | Every orphan finding outside the inventory is resolved. |
| ReconciliationFindings.DatabaseReconciliationRepository.ClaimOrphanCleanup | apps/orchestrator-worker/src/database-reconciliation-repository.ts:387-426 | A claim succeeds exactly for a running sweep that last observed an approved finding, seen twice, past its boundary, whose resource no live instance holds. |
| ReconciliationFindings.DatabaseReconciliationRepository.ReleaseOrphanCleanupClaim | apps/orchestrator-worker/src/database-reconciliation-repository.ts:428-436 | A cleaning finding goes back to APPROVED, whoever asks. |
| ReconciliationFindings.DatabaseReconciliationRepository.ApproveOrphanCleanup | apps/orchestrator-worker/src/database-reconciliation-repository.ts:503-547 | An open finding observed twice is approved in the person's name; an approval stands; all else is not ready. |
| ReconciliationFindings.DatabaseReconciliationRepository.FinishSweep | apps/orchestrator-worker/src/database-reconciliation-repository.ts:476-501 | Only a running sweep ends. |
| FindingLaws.DestroyIsAuthorised | apps/orchestrator-worker/src/database-reconciler.ts:149-176 | Whatever sweeps overlap, expire or crash, every destroy call follows a claim by the same sweep, resting on an opening, a second observation and then a person's approval with no closing in between, the sweep's own latest observation, an elapsed grace period and no live instance. |
| FindingLaws.ApprovalNeverSurvivesClosing | apps/orchestrator-worker/src/database-reconciliation-repository.ts:589-609 | A claim after a closing rests on a later opening and a later approval. |
| FindingLaws.FailedAsMissingTwice | apps/orchestrator-worker/src/database-reconciliation-repository.ts:304-313 | An instance is failed as missing only after two absences in a row with no presence between, while serving and unmoved. |
| FindingLaws.SecondAbsenceFails | apps/orchestrator-worker/src/database-reconciliation-repository.ts:304-321 | The second absence in a row does fail a serving instance that has not moved. |
| FindingLaws.UnresolvedFindingsAreDated | apps/orchestrator-worker/src/database-reconciliation-repository.ts:375-377 | Every unresolved orphan finding has its cleanup boundary, so the missing-boundary error is never raised. |
| FindingClaims.FindingIsItsHistory | apps/orchestrator-worker/src/database-reconciliation-repository.ts:562-622 | In every history each orphan finding is exactly what its events amount to: openings, reopenings, observations, claims, releases, approvals and resolutions. |
| FindingClaims.OneSweepRuns | apps/orchestrator-worker/src/database-reconciliation-repository.ts:77-97 | No two sweeps ever run at once. |
| FindingClaims.EndedSweepStays | apps/orchestrator-worker/src/database-reconciliation-repository.ts:476-501 | A sweep that has ended, by itself or as abandoned, is never changed again. |
| FindingClaims.SweepBeginsExactlyWhenFree | apps/orchestrator-worker/src/database-reconciliation-repository.ts:44-98 | A sweep begins exactly when no other runs that has not been abandoned; then it alone runs and no claim of an earlier sweep stands; otherwise nothing changes. |
| FindingClaims.ClaimIsGrantedExactly | apps/orchestrator-worker/src/database-reconciliation-repository.ts:387-426 | A claim is granted exactly when the sweep runs and holds no other, the events of the resource make its finding ready for this sweep, and no live instance holds it; a refused claim changes nothing. |
| FindingClaims.ApprovalIsTakenExactly | apps/orchestrator-worker/src/database-reconciliation-repository.ts:503-547 | An approval takes effect exactly on an open finding observed twice, stands where it stood, and is refused on all else. |
| FindingClaims.FailedDestroyIsReturned | apps/orchestrator-worker/src/database-reconciler.ts:158-176 | A failed destroy gives the claim back to its approval, unless someone else has moved the finding on. |
| FindingClaims.SuccessfulDestroyResolves | apps/orchestrator-worker/src/database-reconciler.ts:158-176 | After a destroy that succeeded the finding is resolved. |
| FindingOverlap.AllButOneHolderHaveEnded | apps/orchestrator-worker/src/database-reconciliation-repository.ts:54-76 | Of the sweeps that hold a claim on one resource all but one have ended or been abandoned. |
| FindingOverlap.GrantedClaimIsSoleExactly | apps/orchestrator-worker/src/database-reconciliation-repository.ts:387-436 | A granted claim makes its sweep the only holder of the resource if and only if no ended or abandoned sweep still holds it. |
| FindingOverlap.OneCleanerWhileSweepsEndIdle | apps/orchestrator-worker/src/database-reconciler.ts:149-176 | While no sweep ends or is abandoned in the middle of a claim, every claim is the only one on its resource. |
| FindingOverlap.TwoSweepsCanDestroyOneResource | apps/orchestrator-worker/src/database-reconciliation-repository.ts:54-76 | A concrete history: a stalled sweep is abandoned, the next one claims the same resource, and both send a destroy. |
| Reconciler.DatabaseReconciler.Dispatch | apps/orchestrator-worker/src/database-reconciler.ts:91-104 | Dispatches go to the queue in order; the first one refused marks that instance failed and stops the sweep. |
| Reconciler.DatabaseReconciler.Recover | apps/orchestrator-worker/src/database-reconciler.ts:83-104 | Recovery changes no serving instance and no holder of a resource. |
| Reconciler.DatabaseReconciler.ReconcileTracked | apps/orchestrator-worker/src/database-reconciler.ts:113-128 | Every tracked instance is resolved or observed missing by its own presence, and the missing ones are counted. |
| Reconciler.DatabaseReconciler.SettleResource | apps/orchestrator-worker/src/database-reconciler.ts:132-177 | A resource is adopted, left, cleaned or put back; it is destroyed only with cleanup on and a cleanable finding. |
| Reconciler.DatabaseReconciler.ReconcileProvider | apps/orchestrator-worker/src/database-reconciler.ts:130-177 | The inventory loop settles each resource once, destroys nothing that is not cleanable, and leaves nothing cleanable when cleanup is on. |
| Reconciler.DatabaseReconciler.SettleInventory | apps/orchestrator-worker/src/database-reconciler.ts:130-181 | After the inventory pass exactly the untracked resources that were not destroyed are unresolved. |
| Reconciler.DatabaseReconciler.RunSweep | apps/orchestrator-worker/src/database-reconciler.ts:78-195 | The body of a sweep refines the two set differences between tracked instances and inventory. |
| Reconciler.DatabaseReconciler.Reconcile | apps/orchestrator-worker/src/database-reconciler.ts:59-206 | A sweep is locked and changes nothing, fails closed without an inventory, or completes with both differences counted, recorded and rightly cleaned. |
| ReconcilePasses.ListingMeasures | apps/orchestrator-worker/src/database-reconciliation-repository.ts:100-124 | The tracked listing carries the whole set difference: its resources, the missing instances and the orphans. |
| SecretStore.InMemorySecretStore.Put | packages/database-provider/src/secret-store.ts:29-43 | A value is stored under its reference with the given expiry, replacing what was there. |
| SecretStore.InMemorySecretStore.Get | packages/database-provider/src/secret-store.ts:45-64 | A live value is returned; a missing one is an error; an expired one is removed and an error. |
| SecretStore.InMemorySecretStore.Revoke | packages/database-provider/src/secret-store.ts:82-84 | The reference is gone, whether it was there or not. |
| SecretStore.InMemorySecretStore.CreateLease | packages/database-provider/src/secret-store.ts:66-80 | A lease copies a live value under a new reference with an expiry. |
| Provisioning.SupabaseDatabaseProvider.Find | packages/database-provider/src/supabase-database-provider.ts:110-114 | The first of our projects with this operation's name, or none. |
| Provisioning.SupabaseDatabaseProvider.Provision | packages/database-provider/src/supabase-database-provider.ts:105-137 | An attempt does what its step machine does, cut off after any outside call. |
| Provisioning.SupabaseDatabaseProvider.EnsureOperationSecret | packages/database-provider/src/supabase-database-provider.ts:305-323 | The operation secret is kept if it exists and created otherwise. |
| Provisioning.SupabaseDatabaseProvider.CreateNew | packages/database-provider/src/supabase-database-provider.ts:119-137 | Password, project, connection secret and revocation in that order. |
| Provisioning.SupabaseDatabaseProvider.RecoverExisting | packages/database-provider/src/supabase-database-provider.ts:241-303 | An existing project is served from its connection secret, or from the operation secret. |
| ProvisioningLaws.ProvisioningIsCrashSafe | packages/database-provider/src/supabase-database-provider.ts:105-137 | Over any attempts cut off anywhere: at most one project, no orphaned secret, and every returned reference holds the URI with that project's own password. |
| ProvisioningLaws.AlwaysSafe | packages/database-provider/src/supabase-database-provider.ts:241-303 | The invariant behind it: the connection secret is right, or the operation secret is the project's password. |
| ProvisioningLaws.AttemptLeftAloneSucceeds | packages/database-provider/src/supabase-database-provider.ts:105-137 | From any safe state an attempt left alone succeeds with the project that exists. |
| ProvisioningOutcome.AttemptEndsAsItsStateSays | packages/database-provider/src/supabase-database-provider.ts:105-303 | From any state of provider and secret store an attempt that is not cut off ends as that state says: created, reconciled from either secret, orphaned when both are gone, or broken by an expired or foreign secret; and the operation secret is revoked unless the connection was already there. |
| ProvisioningOutcome.StoredPasswordIsNeverReplaced | packages/database-provider/src/supabase-database-provider.ts:305-323 | Over any attempts cut off anywhere the operation's stored password is kept until it is revoked. |
| ProvisioningOutcome.LeaseRunsOut | packages/database-provider/src/secret-store.ts:45-80 | A lease reads as its value strictly before its end, is expired from then on, and is gone once that has been seen. |
| BudgetPricing.BoundedTextReferenceBytes | apps/orchestrator-worker/src/model-budget.ts:414-442 | The byte sum of the text references, or the first problem among them. |
| BudgetPricing.CostCoveredExactly | apps/orchestrator-worker/src/model-budget.ts:367-412 | With legal rates, every call within the token bounds costs at most its reservation if and only if the worst one does: all input at the dearer of the two input rates, and the whole output. |
| BudgetPricing.CheapCacheIsCovered | packages/model-gateway/src/openai-model-gateway.ts:241-265 | That condition holds whenever cached input is no dearer than input. |
| BudgetPricing.CostWithinReservation | packages/model-gateway/src/openai-model-gateway.ts:241-265 | Within the token bounds and with cached input no dearer than input, a call costs no more than its reservation. |
| BudgetPricing.DearCachedRateBreaksBound | packages/model-gateway/src/openai-model-gateway.ts:246-262 | A concrete request and pricing with a dearer cached rate whose cost exceeds the reservation. |
| BudgetPricing.KeptCoversCost | apps/orchestrator-worker/src/model-budget.ts:147-154 | For every reservation and cost: what is kept is all of it if no sensible cost is known, else the smaller of the reservation and 1.25 times the cost rounded up, never below the cost. |
| BudgetPricing.CostIsNearest | packages/model-gateway/src/openai-model-gateway.ts:241-265 | A cost is the nearest whole number of micro-USD to the price of its tokens, halves rounded up. |
| BudgetPricing.OddCountsAreClamped | packages/model-gateway/src/openai-model-gateway.ts:241-265 | Negative counts cost what 0 costs, and more cached than input what all input cached costs. |
| BudgetPricing.ReservationExactly | apps/orchestrator-worker/src/model-budget.ts:342-442 | A reservation is made exactly for a positive output limit, a known price and model limit, a multiplier of at least 1 and references that can be bounded; it is the least whole number of micro-USD, at least 1, that covers the multiplied cost of every sent byte plus 2048 as uncached input and the smaller of the two output limits. |
| BudgetPricing.EveryReferenceCounts | apps/orchestrator-worker/src/model-budget.ts:414-442 | The byte sum grows by exactly what any one reference grows by. |
| BudgetLedger.PostgresRunProviderBudgetStore.ReserveBudget | apps/orchestrator-worker/src/model-budget.ts:462-597 | One reservation on both ledgers: illegal input, run exceeded, window unavailable (rolled back), workspace exceeded, or both charged. |
| BudgetLedger.PostgresRunProviderBudgetStore.ReleaseBudget | apps/orchestrator-worker/src/model-budget.ts:599-629 | Both rows give back the amount, clamped at 0; an illegal amount changes nothing. |
| BudgetLedger.PostgresRunProviderBudgetStore.RecordActualCost | apps/orchestrator-worker/src/model-budget.ts:631-646 | The actual cost is added to the run's row. |
| BudgetGateway.BudgetedModelGateway.Generate | apps/orchestrator-worker/src/model-budget.ts:213-325 | Disabled, no context, no estimate, refused by a ledger, failed by the provider, or answered and settled. |
| BudgetGateway.SettleIsRecordThenGiveBack | apps/orchestrator-worker/src/model-budget.ts:230-258 | What the gateway does after an answer is the transaction that records the cost and then the one that gives back, or the first alone; without a record or a sensible cost it is neither, and the whole reservation stays charged. |
| BudgetGateway.ClampNeverTruncates | apps/orchestrator-worker/src/model-budget.ts:599-629 | The clamp at 0 never truncates. |
| BudgetGateway.BudgetConserved | apps/orchestrator-worker/src/model-budget.ts:485-629 | Over concurrent calls and changing ceilings each ledger row equals the sum over accepted calls of reservation minus released, within the run's first ceiling. |
| BudgetGateway.CeilingIsFinal | apps/orchestrator-worker/src/model-budget.ts:485-520 | The ceiling first recorded for a run is never changed. |
| BudgetGateway.SpendWithinCeiling | apps/orchestrator-worker/src/model-budget.ts:230-258 | If every plan is covered, which is decided before the call, and every provider keeps to its call's token bounds, then in every interleaving actual cost of finished calls plus full reservations in flight stay within the run's first ceiling. |
| BudgetCaps.ReservationIsDecidedByHeldAmounts | apps/orchestrator-worker/src/model-budget.ts:485-597 | In every history a reservation is refused for the run exactly if what the run's calls hold leaves too little under its ceiling, for the workspace exactly if what the calls of that workspace and day hold leaves too little under the cap, and accepted otherwise. |
| BudgetCaps.RefusalChargesNobody | apps/orchestrator-worker/src/model-budget.ts:485-597 | A refused request adds no call and charges nobody. |
| BudgetCaps.RefusalLeavesTheRows | apps/orchestrator-worker/src/model-budget.ts:485-597 | A failed reservation changes no row; a rejected one adds at most its own empty rows. |
| BudgetCaps.DayStaysWithinCap | apps/orchestrator-worker/src/model-budget.ts:562-580 | If every cap used for a workspace and day is at most a bound, what its calls hold of that day never exceeds the bound. |
| BudgetCaps.ActualCostIsTheSum | apps/orchestrator-worker/src/model-budget.ts:631-646 | The actual cost on a run's row is the sum of the costs its finished calls reported, each counted once. |
| FileRevisions.ProjectFiles.PlanFiles | apps/orchestrator-worker/src/repository.ts:286-309 | Every file is checked before anything is written: the first conflict, or all plans. |
| FileRevisions.ProjectFiles.ApplyGeneratedFiles | apps/orchestrator-worker/src/repository.ts:284-323 | Check every file, then write the changed ones, or nothing. |
| FileRevisions.ProjectFiles.PutProjectFile | apps/control-api/src/repository.ts:629-688 | A user edit on the declared version adds one revision, and conflicts otherwise. |
| FileRevisions.AlignExpectedVersions | packages/agents/src/model-agent-runtime.ts:158-176 | The declared versions come from the snapshot the model was shown. |
| FileLaws.VersionsAreConsecutive | apps/orchestrator-worker/src/repository.ts:312-323 | Per path the stored versions are exactly 1 to n. |
| FileLaws.PatchIsAtomic | apps/orchestrator-worker/src/repository.ts:284-323 | A patch of distinct paths commits exactly when every declared version is the stored one, and then adds all its changed files. |
| FileLaws.PatchIsReadBack | apps/orchestrator-worker/src/repository.ts:284-323 | After a committed patch each of its files reads as the patch gave it, one version up if its content differs from what was stored and at the same version if not, and every other file reads as before. |
| FileLaws.WritersDeclaredPredecessor | apps/control-api/src/repository.ts:640-675 | Revision v + 1 is written only by a writer that declared v. |
| FileLaws.AgentPatchSeesNoStaleFile | packages/agents/src/model-agent-runtime.ts:158-176 | An aligned agent patch commits exactly when no touched path got a new revision since the snapshot. |
| FileLaws.PatchListsWhatItWrote | apps/orchestrator-worker/src/repository.ts:306-323 | A committed patch lists exactly the paths of the rows it added, in order. |
| FileLaws.EditIsSavedExactly | apps/control-api/src/repository.ts:629-688 | A user's edit is saved exactly when it declares the stored version, 0 for a new file; a conflict names the stored version. |
| Normalize.NormalizeShape | packages/memory/src/chunker.ts:33-41 | The output has the normal form and the same visible units in order. |
| Normalize.NormalizeFixedPoints | packages/memory/src/chunker.ts:33-41 | The fixed points are exactly the texts in normal form. |
| Normalize.NormalizeIdempotent | packages/memory/src/chunker.ts:33-41 | Normalising twice is normalising once. |
| NormalizeGaps.NormalizeIsRespacing | packages/memory/src/chunker.ts:33-41 | The passes amount to one: each gap between two words becomes a space, a line feed or a blank line as 0, 1 or more lines end in it, every other unit is kept, and the ends are trimmed. |
| NormalizeGaps.LineEndsDoNotMatter | packages/memory/src/chunker.ts:33-41 | A text reads the same whether its lines end in LF, CR or CR LF. |
| Chunker.SplitLongParagraph | packages/memory/src/chunker.ts:50-68 | The sentence and cutting loop yields the specified pieces. |
| Chunker.CollectPieces | packages/memory/src/chunker.ts:96-100 | Every paragraph is kept or split, in order. |
| Chunker.PackBodies | packages/memory/src/chunker.ts:102-113 | The packing loop yields the specified bodies. |
| Chunker.ChunkText | packages/memory/src/chunker.ts:83-121 | Illegal options are an error; otherwise the specified chunks. |
| ChunkerLaws.BodiesLossless | packages/memory/src/chunker.ts:83-121 | Without whitespace the concatenated bodies are the text without whitespace. |
| ChunkerLaws.PiecesFit | packages/memory/src/chunker.ts:50-68 | Every piece fits and nothing visible is lost. |
| ChunkerLaws.BodiesGreedy | packages/memory/src/chunker.ts:102-113 | No body could have taken the next piece. |
| ChunkerLaws.GreedyPackingUnique | packages/memory/src/chunker.ts:102-113 | Any greedy packing of the pieces is the one computed. |
| ChunkerLaws.ChunkBounds | packages/memory/src/chunker.ts:115-120 | Bodies fit maxChars, chunks maxChars plus overlap, and a chunk ends in its body. |
| ChunkerLaws.OverlapWordAligned | packages/memory/src/chunker.ts:70-76 | A non-empty overlap is the longest suffix within the limit that starts just after a space. |
| ChunkerLaws.OverlapMissing | packages/memory/src/chunker.ts:70-76 | There is no overlap exactly when none is allowed, the text is no longer than it, or no space lies where a word could start. |
| ChunkerLaws.ChunksOfNormalForm | packages/memory/src/chunker.ts:83-94 | A text and its normal form have the same chunks. |
| ChunkerBreaks.LongParagraphIsSplit | packages/memory/src/chunker.ts:47-68 | The pieces of a long paragraph are slices of it in order, with only white units between them; every break follows a sentence end or cuts a sentence longer than maxChars, at the last space of its second half or at maxChars if there is none. |
| ChunkerBreaks.NoBreakInside | packages/memory/src/chunker.ts:47-55 | No piece has a white unit right after a sentence end inside. |
| ChunkerBreaks.SplitIsUnique | packages/memory/src/chunker.ts:50-68 | A paragraph has one split by these rules. |
| ChunkerBreaks.FittingParagraphIsWhole | packages/memory/src/chunker.ts:96-100 | A paragraph that fits is one piece, a blank one is none. |
| ChunkerBreaks.ParagraphsAreParagraphing | packages/memory/src/chunker.ts:96-97 | A text is cut into paragraphs exactly at its runs of two or more line feeds. |
| ChunkerBreaks.ParagraphingIsUnique | packages/memory/src/chunker.ts:96-97 | There is one such cut. |
| ChunkerRoundTrip.SplittingUndoesJoining | packages/memory/src/chunker.ts:96-113 | Splitting at blank lines undoes joining with them. |
| ChunkerRoundTrip.BodyIsItsOwnPassage | packages/memory/src/chunker.ts:83-121 | The body of any passage, chunked again with the same options, is one passage: itself, without an overlap. |
| ChunkerRoundTrip.PassageIsOverlapAndBody | packages/memory/src/chunker.ts:115-120 | A passage is its body behind an overlap and a line feed; the overlap is what follows the first space among the last overlapChars units of a longer previous body, and is missing exactly when there is no such body, space or rest. |
| ChunkerRoundTrip.TokensRoundUp | packages/memory/src/chunker.ts:115-120 | A passage counts a token for every three units of its whole text, or part of three. |
| Fusion.Accumulate | packages/memory/src/fusion.ts:38-50 | Once all lists are read each id has one entry, with the sum of its shares and its first rank in each list. |
| Fusion.SortHits | packages/memory/src/fusion.ts:52-58 | The entries are sorted by score, then rank, then id, none lost. |
| Fusion.ReciprocalRankFusion | packages/memory/src/fusion.ts:22-60 | Illegal options are an error; otherwise the fusion of the lists cut to the limit. |
| Fusion.Fuse | packages/memory/src/fusion.ts:38-58 | Every id of the union once, with the sum of its shares, sorted. |
| FusionLaws.FusionUnique | packages/memory/src/fusion.ts:22-60 | The definition of a fusion has one answer. |
| FusionOrder.DominatingHitIsEarlier | packages/memory/src/fusion.ts:38-58 | For any lists and legal weights, a hit ranked no later than another in every list comes before it. |
| FusionOrder.SingleListIsKept | packages/memory/src/fusion.ts:38-58 | Fusing one list keeps its order and gives rank r the score weight / (k + r). |
| FusionOrder.TieGoesToSmallerId | packages/memory/src/fusion.ts:55-58 | Of two hits that two equal lists rank first, the smaller id comes first, whichever list it is in. |
| FusionLaws.VectorPrefixKept | packages/memory/src/repository.ts:62-72 | As long as the gap holds, the results begin with the vector list. |
| FusionLaws.ProductionGap | packages/memory/src/repository.ts:62-72 | With the production constants the gap holds exactly up to rank 5. |
| FusionLaws.FirstFiveAreVector | packages/memory/src/repository.ts:171-178 | The first five results are the vector list's first five, for any keyword list. |
| FusionLaws.SixthCanBeOvertaken | packages/memory/src/repository.ts:62-72 | Five is tight: a keyword hit can move the seventh vector hit before the sixth. |
| FusionLaws.VectorHitsComeFirst | packages/memory/src/repository.ts:171-178 | With at most 76 vector candidates no keyword-only hit precedes a vector hit. |
| FusionLaws.KeywordOnlyIsLater | packages/memory/src/repository.ts:62-72 | Up to rank 76 a vector hit beats any keyword-only hit. |
| FusionLaws.KeywordOnlyWinsAt77 | packages/memory/src/repository.ts:62-72 | 76 is tight: a keyword-only hit beats the vector hit at rank 77. |
| FusionLaws.SearchQuick | packages/memory/src/repository.ts:139-188 | Bad limits and a negative keyword weight are errors; otherwise the answer is the fusion of the two candidate lists cut to the limit, and with the production weight it begins with the first five of the vector search and, up to 76 candidates, puts nothing before what that search found. |

## Left out

- Redis and BullMQ, Fastify, SQL text, LangGraph internals, S3, ClamAV, E2B and model providers: replaced by nondeterministic success, failure or crash.
- Authorisation of users, workspaces and roles: every modelled request is an authorised one.
- JSON schemas, response mappers, prompts, admin, meeting and go-to-market routes, web UI.
- Sandbox and preview sessions: their events are arbitrary events of other writers, their rows are not modelled.
- Migration artifacts, secret-reference rows and the RECOVERY_EXHAUSTED finding: side rows of modelled transactions that no modelled decision reads.
- Status events of database workers, fenced ones included: arbitrary events of other writers in a run's log.
- The reminder and purge sweepers' batch loops: the same loop as the expiry sweeper's; their row updates are modelled.
- The Vault adapter: the in-memory store is the secret-store contract; a missing key under another code is not modelled.
- Project-name derivation: names are taken as one-to-one with operations; the provider never reuses an external id.
- The embedding budget and its day rollover.
- A lost commit acknowledgement after which the same worker goes on: the answer reaches the caller or the worker stops.
- Unicode normalisation to NFC is taken as the identity; strings are sequences of UTF-16 units; floating-point numbers are exact reals; ids are ordered as numbers where the source compares them as text.
- Rows are values: a class method replaces a row in a map, as the source's updates do through the database; object aliasing is not modelled.
- Reconciler.DatabaseReconciler.Reconcile: states one sweep with nothing running beside it; what overlapping sweeps keep is stated by the lemmas of FindingLaws.
- ExpirySweeper.ApprovalExpirySweeper.SweepOnce: states the batches with nothing running beside them; the interleaved swaps are stated by the lemmas of RunSweeps.
- BudgetPricing.CostCoveredExactly: takes the token bounds as given, as the estimate does; that a provider keeps them is outside the code.
