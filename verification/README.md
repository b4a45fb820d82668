# Shipyard control plane: a verified model

This project models how the Shipyard control plane owns jobs and keeps its state, and proves what
its protocols guarantee over whole runs. It covers

* the **versioned task store** with its indexes, the plain store it stands in for, and writing the
  whole state out and reading it back (`RedisBackend.dfy`, `RedisKeys.dfy`, `CoreState.dfy`);
* **job ownership**: leases, concurrency slots and resource locks, dispatch, the handling of worker
  results, retries and rework, and the orphan scan (`LeaseManager.dfy`, `ConcurrencyManager.dfy`,
  `OrphanScanner.dfy`, `RetryManager.dfy`, `TaskStates.dfy`, `JobControl.dfy`, `Orchestrators.dfy`,
  `ReportFields.dfy`, `CallMeanings.dfy`, `JobRuns.dfy`, `BoundedFailure.dfy`, `RepeatedReports.dfy`, `JobOwnership.dfy`, `Durability.dfy`,
  `Witnesses.dfy`, `StrandedSlots.dfy`, `LostWorkers.dfy`);
* the **rate and loop guards** (`SpawnController.dfy`, `SpawnMeanings.dfy`, `SpawnLimits.dfy`,
  `DoomLoopDetector.dfy`);
* **cursor pagination** over observations (`ImprovementObservations.dfy`, `ExportMeanings.dfy`);
* **acknowledgement references** and **stage durations** (`AckRefs.dfy`, `StageDurations.dfy`).

`Prelude.dfy` and `Strings.dfy` hold shared vocabulary.

Code that changes state in place is modelled by classes whose methods are proved equal to a step of a
specification; the lemmas are about runs, that is, arbitrary sequences of such steps. Clocks, random
draws, drawn ids, collation and timestamp parsing are parameters. Times are milliseconds that do not
run backwards where a lemma says so; token counts, delays and rates are exact reals.

How the parts fit together: `JobControl` says what one dispatch, one report, one heartbeat and one
orphan scan do to the world of tasks, jobs, leases, slots and retry counts. `Orchestrators.ControlPlane`
is the same in the original's steps, over the real lease, concurrency and loop managers, and every method
of it is proved to do exactly what `JobControl` says. `ReportFields` and `CallMeanings` say the same once
more, from the fields of the report, the request or the task alone: which report frees the slot, which
state follows, what a scan blocks. `SpawnMeanings` and `ExportMeanings` do that for spawning and for
observations. `JobRuns` and the modules after it prove what every
run of such events keeps; `Witnesses` and `LostWorkers` build the runs that reach the states in which a
promise fails, from any start with a task to dispatch (`Witnesses.FirstStarts` names one).

## What the proofs found out about the code

Where the code does not do what its design promises, the model follows the code, and the lemma named
gives the exact condition.

* A report that moves its task to another state raises the version by two, once in `applyTaskUpdate`
  and once in `transitionTask`; so does the scan that blocks an orphan. The store takes only the next
  version, so a persistence pass after it is refused, and no later record of that task is ever stored
  (`Durability.WritableIff`, `Durability.NeverWrittenAgain`); so is a pass after two single steps
  (`Durability.WritableLaterIff`). From every start the first failed report
  or the first silent acceptance job is enough (`Witnesses.FirstFailureSticks`,
  `Witnesses.FirstSilenceJumps`).
* Setting `active_job_id` to `undefined` in an update has no effect, so a finished job stays the
  task's active job. A repeated report on it is applied again, every time
  (`RepeatedReports.AppliedAgain`, `RepeatedReports.AppliedEveryTime`), and ignored exactly if a new
  job of the task was handed over in between (`RepeatedReports.IgnoredIffHandedOver`).
* Retry and failover leave the task in its active state, from which nothing can be dispatched, and
  keep the slot. The orphan scan does not see the task, because the lease is gone, and only another
  report on the same job moves it on (`JobOwnership.RetryIsNeverDispatched`,
  `JobOwnership.ScanFindsExactlyTheSilent`). The first retryable failure does this from every start
  (`Witnesses.FirstFailureSticks`).
* When handing a new job to its worker fails, its slot is never given back: an occupied slot can be given
  back exactly if its job was handed over (`StrandedSlots.GivenBackIffSubmitted`). A worker can still be
  sent a job one day exactly while fewer jobs are stranded at it than it has slots, fewer in all than all
  workers have together, and some task may be dispatched or still has a job (`StrandedSlots.ServedIff`).
  From every start failed hand-overs can shut out any one worker, or, spread over many, all of them
  (`LostWorkers.LosesWorker`, `LostWorkers.LosesEveryWorker`).
* The bound on retries and reworks holds as long as no report brings a retry count below the tracked one
  and no rework of another stage wipes out an attempt, and an event that does either breaks the account
  (`BoundedFailure.SpendsIff`). Reports with low counts of their own are retried for ever
  (`BoundedFailure.AskedForever`, from every start by `Witnesses.FirstJobAsksForever`). A failure blocks
  exactly as the third in a row (`BoundedFailure.BlockedIffThirdInARow`), and two stages failing in turn
  are sent back without end (`Witnesses.ReworkedForever`).
* The transition loop test never fires on a dispatched job: it needs two recorded transitions, and
  dispatch records one for each new job id (`BoundedFailure.NeverLoops`).
* A fingerprint is not always warned about before it is blocked: `DoomLoop.WarnsFirstIff` gives the
  thresholds for which it is. The defaults are among them.
* An allowed spawn reserves no place among the active agents (`SpawnLimits.PlacesNotReserved`). The
  limit is kept exactly when every newly registered agent finds a place (`SpawnLimits.LimitKeptIff`),
  for instance when each allowed agent is registered before the next evaluation
  (`SpawnLimits.DisciplineKeepsLimit`). Two agents allowed before either is registered exceed any limit
  (`SpawnLimits.LimitOvershot`).
* The store's listing returns at most a hundred tasks unless told otherwise and nothing for a limit of
  zero, the plain one everything in both cases (`Store.CountsAgreeIff`). Moving a stored job to
  another task leaves its id in the old task's set (`Store.JobIndexKeptIff`).

## Model

| member | source | states |
|---|---|---|
| `Leases.LeaseManager.Acquire` | src/domain/lease/lease-manager.ts:12-36 | granted iff there is no lease, its expiry is reached, or the same owner holds it; a grant stores and returns a lease of one duration from now |
| `Leases.LeaseManager.Heartbeat` | src/domain/lease/lease-manager.ts:38-62 | refused iff not the owner or already marked orphaned, even when expired otherwise accepted; on success the new expiry and next due time are returned |
| `Leases.LeaseManager.DetectOrphan` | src/domain/lease/lease-manager.ts:78-96 | an expired lease is marked once and returned with its mark; nothing else changes |
| `Leases.LeaseManager.Release` | src/domain/lease/lease-manager.ts:98-107 | only the owner removes the lease |
| `Leases.LeaseManager.GetExpiredLeases` | src/domain/lease/lease-manager.ts:126-140 | lists exactly the expired unmarked jobs, each once, marking none |
| `Leases.LeaseManager.CheckAndMarkExpired` | src/domain/lease/lease-manager.ts:146-162 | returns exactly what the expired listing would at that instant, each once, and marks exactly those |
| `Leases.LeaseSafety` | src/domain/lease/lease-manager.ts:12-62 | in every run, after an owner was granted an expiry no other owner acquires the job before it unless the first released it |
| `Leases.FormerOwnerRefused` | src/domain/lease/lease-manager.ts:38-107 | after a takeover the former owner's heartbeats and releases are refused until it acquires again |
| `Leases.MarksStayLate` | src/domain/lease/lease-manager.ts:78-96 | in every run an orphan mark is never earlier than the lease's expiry |
| `Leases.MarkedUntilAcquired` | src/domain/lease/lease-manager.ts:44-48 | a mark stays until a fresh acquire |
| `Leases.MarksAreSet` | src/domain/lease/lease-manager.ts:78-96 | a sweep marks exactly the leases whose expiry is reached, a check the one it looks at |
| `Leases.SweepReturnsOnce` | src/domain/lease/lease-manager.ts:126-162 | a sweep leaves nothing overdue at its instant; until a fresh acquire a swept job is swept no more and accepts no heartbeat |
| `Leases.LeaseReflectsLastSign` | src/domain/lease/lease-manager.ts:23-55 | in every run a lease expires exactly one duration after its last acquire or accepted heartbeat |
| `Leases.TakenOverIff` | src/domain/lease/lease-manager.ts:12-36 | in every run anyone may take a job over iff it is not leased, its own, or its worker has been silent for one duration |
| `Orphans.FlaggedIffSilent` | src/domain/orphan/orphan-recovery.ts:72-93 | the two tests flag a leased job iff its silence exceeds the lease or five heartbeat intervals; takeover opens one instant earlier |
| `Orphans.EveryOrphanTreatedOnce` | src/domain/orphan/orphan-scanner.ts:104-199 | a recovery is reported iff some scanned job is silent too long; it is a retry iff the job is a plan job retried less than twice or a dev job retried less than three times, and either below the configured limit |
| `Orphans.DefaultPatience` | src/domain/orphan/orphan-recovery.ts:72-93 | by default a job may be silent two and a half minutes |
| `Orphans.TasksTreatedOnce` | src/domain/orphan/orphan-scanner.ts:104-199 | where the scanned jobs are of different tasks, so are the recoveries: no task is acted on twice |
| `Orphans.OrphanScanner.Scan` | src/domain/orphan/orphan-scanner.ts:104-199 | a scan under way returns empty; otherwise every silent job is retried or blocked as its stage and its retries say, in order and counted, and the flag is reset |
| `Concurrency.StartKeepsPartitionIff` | src/domain/concurrency/concurrency-manager.ts:71-87 | starting keeps the per-worker sets a partition iff the job does not run for another worker |
| `Concurrency.CompleteKeepsPartitionIff` | src/domain/concurrency/concurrency-manager.ts:89-98 | completing does so iff the caller names the worker that runs it |
| `Concurrency.AdmissionKeepsCapacity` | src/domain/concurrency/concurrency-manager.ts:54-87 | a fresh job admitted by the capacity check never exceeds either limit |
| `Concurrency.DefaultCapacity` | src/domain/concurrency/concurrency-manager.ts:54-69 | by default a worker takes twenty jobs, all together two hundred |
| `Concurrency.CompletionKeepsCapacity` | src/domain/concurrency/concurrency-manager.ts:89-98 | completing keeps both limits and the partition |
| `Concurrency.ConcurrencyManager.CanAccept` | src/domain/concurrency/concurrency-manager.ts:54-69 | refuses for the global limit first, then for the worker's |
| `Concurrency.ConcurrencyManager.RecordStart` | src/domain/concurrency/concurrency-manager.ts:71-87 | both slot tables take the job |
| `Concurrency.ConcurrencyManager.RecordComplete` | src/domain/concurrency/concurrency-manager.ts:89-98 | both slot tables drop the job |
| `Concurrency.ConcurrencyManager.Enqueue` | src/domain/concurrency/concurrency-manager.ts:126-140 | the worker's queue grows at its end, other queues are unchanged |
| `Concurrency.ConcurrencyManager.Dequeue` | src/domain/concurrency/concurrency-manager.ts:152-167 | takes the oldest job and nothing else; empty iff the queue is |
| `Concurrency.HeldUntilEnd` | src/domain/concurrency/concurrency-manager.ts:179-252 | the very lock handed out stays until released by its owner or until its seconds are over |
| `Concurrency.HoldsDisjoint` | src/domain/concurrency/concurrency-manager.ts:179-252 | two holds of one key never overlap in any run, not even by one owner |
| `Concurrency.DefaultLock` | src/domain/concurrency/concurrency-manager.ts:179-216 | by default a lock lasts five minutes |
| `Concurrency.HeldKeyIsRefused` | src/domain/concurrency/concurrency-manager.ts:179-216 | while a lock is held every other request for its key is refused, and granted as soon as its seconds are over |
| `Concurrency.LateReleaseHarmless` | src/domain/concurrency/concurrency-manager.ts:223-252 | a former owner's release never touches its successor's lock |
| `Concurrency.ConcurrencyManager.AcquireLock` | src/domain/concurrency/concurrency-manager.ts:179-216 | succeeds iff no unexpired lock is on the key; returns the lock now in place; counts a conflict otherwise |
| `Concurrency.ConcurrencyManager.ReleaseLock` | src/domain/concurrency/concurrency-manager.ts:223-238 | only the owner removes the lock |
| `Concurrency.ConcurrencyManager.ReleaseLocksForJob` | src/domain/concurrency/concurrency-manager.ts:243-252 | removes exactly the owner's locks and counts them |
| `Concurrency.ConcurrencyManager.CleanupExpiredLocks` | src/domain/concurrency/concurrency-manager.ts:375-388 | removes exactly the expired locks and counts them |
| `Concurrency.ConcurrencyManager.CheckAndUpdateVersion` | src/domain/concurrency/concurrency-manager.ts:359-371 | the version moves iff the task is unknown or its version is the expected one; a refusal is counted |
| `Retry.DelaysGrowToTheCap` | src/domain/retry/retry-manager.ts:39-52 | without jitter delays never shrink, stay at the cap once there, and a base above one gets there |
| `Retry.DelaysMultiply` | src/domain/retry/retry-manager.ts:39-52 | without jitter the first delay is one base and every further one the base times the one before, up to the cap |
| `Retry.DelaysBelowZero` | src/domain/retry/retry-manager.ts:39-52 | a count below zero divides by the base instead; with a base of zero the cap applies |
| `Retry.JitterScales` | src/domain/retry/retry-manager.ts:46-49 | with jitter the delay is the random share of the delay without |
| `Retry.JitterOnlyShortens` | src/domain/retry/retry-manager.ts:39-52 | with jitter the delay lies between zero and the delay without, for any retry count |
| `Retry.PowerGrows` | src/domain/retry/retry-manager.ts:41 | powers of a base of at least one never shrink and outgrow a line |
| `Orchestrators.UpdateThenMove` | src/domain/task/task-update.ts:43-123 | an update and a transition make the task change of a handling: two versions, the active job kept, rework and retry counts as the handling says |
| `Orchestrators.ControlPlane.TransitionTask` | src/store/services/task-service.ts:140-182 | the task is stored, one version on, iff the state machine allows the move |
| `Orchestrators.ControlPlane.FinalizeJob` | src/domain/result/result-orchestrator.ts:882-890 | the lease goes back, and the slot where asked for |
| `Orchestrators.ControlPlane.HandleRunSystemGateBlocked` | src/domain/result/result-orchestrator.ts:198-238 | outcome and new state are those of a gate block: task blocked, lease and slot back |
| `Orchestrators.ControlPlane.HandleBlockedResult` | src/domain/result/result-orchestrator.ts:475-528 | task blocked, lease and slot kept |
| `Orchestrators.ControlPlane.HandleDoomLoop` | src/domain/result/result-orchestrator.ts:585-622 | task blocked, lease back, slot kept |
| `Orchestrators.ControlPlane.HandleRetry` | src/domain/result/result-orchestrator.ts:627-680 | retry counted even if the transition is refused; otherwise active state, lease back, slot kept, delay from the count before |
| `Orchestrators.ControlPlane.HandleFailover` | src/domain/result/result-orchestrator.ts:685-725 | lease back even if the transition is refused; job and slot kept |
| `Orchestrators.ControlPlane.HandleFinalFailure` | src/domain/result/result-orchestrator.ts:730-812 | blocked after two attempts at this stage, else sent back with one attempt more; lease and slot back |
| `Orchestrators.ControlPlane.HandleSucceededStage` | src/domain/result/stage-result-handlers.ts:7-84 | next state by stage and verdict; an accepted acceptance result stays where it is; lease and slot back |
| `Orchestrators.ControlPlane.DetectsLoop` | src/domain/result/result-orchestrator.ts:547-551 | true iff a state repeats too often, two states alternate, or the job came back to its start |
| `Orchestrators.ControlPlane.HandleFailedResult` | src/domain/result/result-orchestrator.ts:533-580 | loop first, then failover for plan, then retry, then final failure; outcome and new state are those of the choice |
| `Orchestrators.ControlPlane.HandleValidationFailure` | src/domain/result/result-orchestrator.ts:244-362 | schema errors retry up to the limit unless policy is violated; then block or rework |
| `Orchestrators.ControlPlane.ApplyResult` | src/store/control-plane-store.ts:605-664 | outcome and new state of every report, stale, mismatched and unknown ones included, equal the specified ones; the result is stored iff the report passes the guards |
| `Orchestrators.ControlPlane.Dispatch` | src/domain/dispatch/dispatch-orchestrator.ts:106-279 | outcome and new state of every dispatch request, refused ones included, equal the specified ones |
| `Orchestrators.ControlPlane.SettleSubmission` | src/store/services/job-service.ts:324-394 | the task becomes active with the job, blocked, or stays as it was, as the hand-over went |
| `Orchestrators.ControlPlane.Heartbeat` | src/store/services/job-service.ts:459-481 | unknown jobs are refused; otherwise one lease heartbeat |
| `Orchestrators.ControlPlane.GetActiveJobsForOrphanScan` | src/store/control-plane-store.ts:416-446 | one entry per task in an active state whose active job is known and leased, and no other |
| `Orchestrators.ControlPlane.ScanForOrphans` | src/domain/orphan/orphan-scanner.ts:104-199 | a scan acts on exactly the flagged tasks; of these it blocks, two versions on, those not to be retried, and changes nothing else |
| `Orchestrators.ControlPlane.BlockOrphanedTask` | src/store/control-plane-store.ts:490-511 | the task is blocked, two versions on, everything else on it unchanged |
| `CallMeanings.ReportAnswered` | src/domain/result/result-orchestrator.ts:109-139 | a report is not found, ignored, mismatched, or passes the guards; then it is refused iff the state machine does not allow the move its fields ask for |
| `CallMeanings.ReportMoves` | src/domain/result/result-orchestrator.ts:475-812 | an applied report changes its task alone: state, version, rework context and counts as its fields and what is left of retries and reworks say |
| `CallMeanings.ReportCounts` | src/domain/result/result-orchestrator.ts:627-680 | a retry granted is counted even where refused, and waits its backoff; nothing else is counted or waits |
| `CallMeanings.SlotFreedIff` | src/domain/result/result-orchestrator.ts:739-812 | an applied report frees the slot iff it is malformed and not retried, gate-blocked, a success, or a valid failure that neither loops, fails over nor is retried |
| `CallMeanings.LeaseFreedIff` | src/domain/result/result-orchestrator.ts:882-890 | it frees the lease iff the worker does not say it is blocked; a refused one only if it fails over |
| `CallMeanings.RestIsKept` | src/domain/result/result-orchestrator.ts:882-890 | every slot and lease left after a report was there before and is unchanged |
| `CallMeanings.DispatchAnswered` | src/domain/dispatch/dispatch-orchestrator.ts:106-210 | a dispatch is admitted iff the task waits for the stage, the worker is capable, both limits leave room and nobody else holds an unexpired lease; each refusal told apart |
| `CallMeanings.RefusedChangesNothing` | src/domain/dispatch/dispatch-orchestrator.ts:106-210 | a refused dispatch changes nothing, except that an incapable worker blocks the task |
| `CallMeanings.AdmittedTakes` | src/domain/dispatch/dispatch-orchestrator.ts:152-258 | an admitted one stores the job with its stage's policy, its lease, its slot, and the task as the hand-over went |
| `CallMeanings.AdmittedCounts` | src/domain/dispatch/dispatch-orchestrator.ts:182-210 | the job counts against its worker and no other |
| `CallMeanings.AdmittedRecords` | src/domain/dispatch/dispatch-orchestrator.ts:260-266 | and its one transition, from the task's state to the stage's active state, is recorded last |
| `CallMeanings.HeartbeatRenews` | src/store/services/job-service.ts:459-481 | a heartbeat renews the lease of a known job iff it comes from its owner and no mark is on it |
| `CallMeanings.ScanBlocksIff` | src/domain/orphan/orphan-recovery.ts:95-148 | a scan blocks, two versions on, exactly the silent tasks past development and those whose recorded retries reached two for planning, three for developing or the configured number |
| `CallMeanings.FlaggedIff` | src/domain/orphan/orphan-recovery.ts:72-93 | a scan flags a task iff it is at work on a known and leased job that was silent too long |
| `TaskStates.ComesFrom` | src/domain/state-machine/state-machine.ts:9-23 | where a task may come from, state by state: the table read the other way |
| `TaskStates.DispatchedFrom` | src/domain/state-machine/state-machine.ts:42-58 | a task may be dispatched to a stage iff its active state follows and it is neither there already nor blocked |
| `TaskStates.LabelsName` | src/domain/state-machine/state-machine.ts:9-23 | every state is told by its label |
| `JobRuns.EnactKeepsConsistent` | src/domain/result/result-orchestrator.ts:109-139 | no outcome of a report breaks the agreement of slots, leases, jobs and active jobs |
| `JobRuns.DispatchKeepsConsistent` | src/domain/dispatch/dispatch-orchestrator.ts:152-258 | no dispatch with a fresh job id breaks it |
| `JobRuns.StepOnJob` | src/domain/dispatch/dispatch-orchestrator.ts:182-258 | one event changes a job's slot and lease exactly when it dispatches, ends or settles that job |
| `JobRuns.RunStaysConsistent` | src/domain/concurrency/concurrency-manager.ts:54-98 | in every run with fresh job ids, scans included, the per-worker sets partition the running jobs, neither limit is exceeded, leases and slots are held by the dispatched worker, and the known jobs are the dispatched ones |
| `JobRuns.SlotsAndLeasesExact` | src/domain/result/result-orchestrator.ts:882-890 | in every run the occupied slots are exactly the dispatched jobs not ended by an applied report that is malformed and not retried, gate-blocked, a success, or a final failure, and the leases exactly those not settled by any applied report but a worker-reported block or by a refused failover |
| `BoundedFailure.FailuresBounded` | src/domain/result/result-orchestrator.ts:542-579 | in every run where no retry starts below the tracked count and no other stage's rework wipes out an attempt, the retries (after malformed reports too) and reworks granted to a task at a stage use up allowance and number at most max_retries plus two |
| `BoundedFailure.SpendsIff` | src/domain/result/result-orchestrator.ts:739-783 | retries left plus rework attempts left strictly decreases with every failure forgiven and never rises, iff no retry starts below the tracked count and no other stage's rework wipes out an attempt |
| `BoundedFailure.BlockedIffSpent` | src/domain/result/result-orchestrator.ts:553-579 | a valid dev or acceptance failure blocks the task iff its rework attempts are gone and it cannot be retried; for a retryable one, iff the allowance is used up |
| `BoundedFailure.NeverLoops` | src/domain/dispatch/dispatch-orchestrator.ts:260-266 | with at most one recorded transition per job the loop test finds nothing |
| `BoundedFailure.AttemptsAreTheStreak` | src/domain/result/result-orchestrator.ts:739-783 | in every run the attempts held against a stage are its unbroken streak of reworks, never more than two |
| `BoundedFailure.BlockedIffThirdInARow` | src/domain/result/result-orchestrator.ts:739-776 | in every run a final failure of any stage, retryable or not, blocks iff the task's last two reworks were both of its stage |
| `BoundedFailure.FinalIff` | src/domain/result/result-orchestrator.ts:542-580 | a failure is final iff it is valid, its worker has no successor and it cannot be retried or has no retry left |
| `BoundedFailure.DelaysWithinBudget` | src/domain/result/result-orchestrator.ts:640-677 | in every run where no retry starts below the tracked count the delays scheduled for a task at a stage add up to no more than the capped powers up to the limit, and what is left shrinks accordingly |
| `BoundedFailure.BudgetsInSeconds` | src/domain/retry/retry-manager.ts:15-21 | that is six, fourteen and two seconds for plan, dev and acceptance |
| `BoundedFailure.AskedForever` | src/domain/result/result-orchestrator.ts:542-567 | a report with a low retry count of its own is retried, and a plan job whose worker has a successor fails over, any number of times |
| `RepeatedReports.GuardsDecide` | src/store/control-plane-store.ts:605-664 | a report is applied or refused iff it passes the guards, and refused iff its handling asks for a move that is not allowed |
| `RepeatedReports.AppliedAgain` | src/store/control-plane-store.ts:608-625 | an applied report sent again at once is applied again, never ignored or refused |
| `RepeatedReports.AppliedEveryTime` | src/store/control-plane-store.ts:608-625 | and so any number of times |
| `RepeatedReports.IgnoredIffHandedOver` | src/store/control-plane-store.ts:608-625 | in every run a report that once passed the guards is later ignored iff a new job of the task was handed over in between |
| `JobOwnership.LeaseRunsFromLastSign` | src/domain/lease/lease-manager.ts:23-55 | in every run a job's lease expires one duration after its dispatch or its worker's latest heartbeat, and is never marked |
| `JobOwnership.ScanFindsExactlyTheSilent` | src/store/control-plane-store.ts:416-446 | in every run the scan flags an active task iff its job is unsettled and its worker silent longer than the shorter of lease and five intervals |
| `JobOwnership.StrandedForever` | src/store/services/job-service.ts:324-350 | a slot taken for a job that could not be handed over stays taken in every continuation of the run |
| `JobOwnership.WorkerLostForever` | src/store/services/job-service.ts:324-350 | as many failed hand-overs as the worker has slots, and no dispatch to it is ever admitted again |
| `JobOwnership.AllLostForever` | src/domain/concurrency/concurrency-manager.ts:54-69 | as many failed hand-overs to any workers as there are slots in all, and no dispatch at all is ever admitted again |
| `StrandedSlots.RunStaysSound` | src/domain/result/result-orchestrator.ts:109-139 | in every run a task is at work on its active job or blocked, or may be dispatched anew, the last only once the job's slot is free |
| `StrandedSlots.EndableIff` | src/domain/result/result-orchestrator.ts:198-238 | an occupied slot can be given back iff its job is its task's active job, and then by one gate-blocked report |
| `StrandedSlots.GivenBackIffSubmitted` | src/store/services/job-service.ts:324-350 | in every run a job that occupies a slot can give it back iff it was handed to its worker |
| `StrandedSlots.StrandedIff` | src/store/services/job-service.ts:324-350 | in every run the stranded jobs of a worker are exactly those whose hand-over to it failed |
| `StrandedSlots.ServedIff` | src/domain/concurrency/concurrency-manager.ts:54-69 | after every run some continuation dispatches to the worker iff fewer jobs are stranded at it than its limit, fewer in all than the global limit, and some task may be dispatched or has an active job |
| `LostWorkers.Loses` | src/store/services/job-service.ts:324-350 | from every start hand-overs to any list of workers within the limits can fail in turn, each leaving its slot taken |
| `LostWorkers.LosesWorker` | src/store/services/job-service.ts:324-350 | from every start a run of failed hand-overs, as many as the lower limit, after which no continuation dispatches to the worker |
| `LostWorkers.LosesEveryWorker` | src/domain/concurrency/concurrency-manager.ts:57-59 | from every start a run of failed hand-overs, each to another worker, that shuts every worker out though each lost at most one slot |
| `JobOwnership.RetryIsNeverDispatched` | src/domain/result/result-orchestrator.ts:650-670 | after a scheduled retry or failover the task stands still: every dispatch of it is refused, no scan flags it and its slot stays as it is until the next report on it is applied |
| `Durability.VersionSteps` | src/domain/task/task-update.ts:118-122 | an event leaves a task alone, or raises its version by two iff its report passes the guards and moves the task or a scan blocks it, or by one iff a dispatch moves it or its report passes the guards and moves nothing |
| `Durability.WritableIff` | src/store/control-plane-store.ts:343-351 | with the record before an event stored, the record after it is accepted iff no report moved the task and no scan blocked it |
| `Durability.WritableLaterIff` | src/store/control-plane-store.ts:343-351 | in every run the record after any event is accepted over the record before any earlier one iff at most one version step lies between |
| `Durability.VersionsGrow` | src/store/services/task-service.ts:163-169 | a task's version never falls in any run |
| `Durability.NeverWrittenAgain` | src/store/redis-backend.ts:65-86 | after such an event no later record of the task is ever accepted, whatever is written in whatever order, and the stored one stands still |
| `Witnesses.FirstFailureSticks` | src/domain/result/result-orchestrator.ts:650-670 | from every start the first retryable failure of the first job both raises the version by two and leaves the task waiting for ever |
| `Witnesses.FirstSilenceJumps` | src/store/control-plane-store.ts:490-511 | from every start with a task ready for acceptance, a first job that falls silent makes a scan raise its version by two |
| `Witnesses.FirstJobAsksForever` | src/domain/result/result-orchestrator.ts:553-567 | from every start one dispatch is enough for a report that is granted a retry for ever |
| `Witnesses.ReworkedForever` | src/domain/result/result-orchestrator.ts:739-783 | from every start there are runs of any length in which acceptance and development fail in turn and every failure is sent back |
| `Store.RefinesPlainStore` | src/store/redis-backend.ts:65-86 | through its task map one call is the plain store's, or nothing where it is rejected |
| `Store.RunRefinesPlainStore` | src/store/redis-backend.ts:65-86 | after any run of any number of writers the store holds what the plain store holds after the accepted calls alone |
| `Store.ListingsAgree` | src/store/redis-backend.ts:192-225 | so a listing by state with room for all holds the same tasks in both |
| `Store.StepKeepsIndex` | src/store/redis-backend.ts:76-85 | every set, rejected or not, and every delete keeps state sets and global list in agreement with the records |
| `Store.IndexesAgree` | src/store/redis-backend.ts:162-190 | so they agree in every run of any number of writers |
| `Store.VersionCountsChanges` | src/store/redis-backend.ts:65-86 | while the key exists its version counts the changes of its record one by one: no update is lost |
| `Store.OneRecordPerVersion` | src/store/redis-backend.ts:70-74 | of two different records at one version at most one is ever accepted |
| `Store.ResendIsIdempotent` | src/store/redis-backend.ts:71-73 | sending an accepted record again is accepted and changes nothing |
| `Store.SkippedVersionNeverRecovers` | src/store/redis-backend.ts:74 | a writer that skips a version is refused for good while it moves on |
| `Store.JobIndexKeptIff` | src/store/redis-backend.ts:239-248 | the job index stays exact iff no stored job is moved to another task |
| `Store.DeleteJobKeepsIndex` | src/store/redis-backend.ts:250-258 | deleting a job keeps it exact |
| `Store.JobsReadBack` | src/store/redis-backend.ts:239-258 | a job set can be read back, a deleted one no more, and other jobs stay |
| `Store.RecordIndexKept` | src/store/redis-backend.ts:342-352 | storing a record keeps its family's index exact |
| `Store.CountsAgreeIff` | src/store/redis-backend.ts:192-203 | the two backends return equally many tasks iff no limit means at most a hundred tasks and a limit of zero means none |
| `Store.CountsInNumbers` | src/store/redis-backend.ts:192-203 | how many tasks each returns for no limit, for zero, for a positive and for a negative one |
| `Store.FullListingIsTheSelection` | src/store/store-backend.ts:71-80 | with room for all, any listing by state from either backend holds exactly the tasks the filter selects |
| `Store.KeptIsTheSelection` | src/store/store-backend.ts:71-80 | the in-memory filter keeps exactly the selected tasks, each once |
| `Store.RedisBackend.SetTask` | src/store/redis-backend.ts:162-180 | answers and acts as one step of the compare-and-set |
| `Store.RedisBackend.DeleteTask` | src/store/redis-backend.ts:182-190 | removes the record, its index entries and its log |
| `Store.RedisBackend.ListTasks` | src/store/redis-backend.ts:192-225 | different tasks of the selection, as many as the limit or a hundred allow |
| `Store.RedisBackend.SetJob` | src/store/redis-backend.ts:239-248 | record and task index take the job |
| `Store.RedisBackend.DeleteJob` | src/store/redis-backend.ts:250-258 | record and task index drop the job |
| `Store.RedisBackend.ListJobsByTask` | src/store/redis-backend.ts:260-285 | exactly the task's jobs, each once |
| `Store.RedisBackend.SetResult` | src/store/redis-backend.ts:299-303 | the job's result is replaced |
| `Store.RedisBackend.AddEvent` | src/store/redis-backend.ts:326-331 | the log grows by one event at its end |
| `Store.RedisBackend.ReplaceEvents` | src/store/redis-backend.ts:333-339 | the log becomes the one given, in order; an empty one leaves no key |
| `Store.RedisBackend.SetRecord` | src/store/redis-backend.ts:342-352 | record and family index take the record |
| `Store.RedisBackend.DeleteRecord` | src/store/redis-backend.ts:384-387 | record and family index drop the record |
| `Store.RedisBackend.ListRecords` | src/store/redis-backend.ts:365-382 | batches of a hundred give exactly the family's records, each once |
| `Store.InMemoryBackend.SetTask` | src/store/store-backend.ts:62-64 | the map takes every task, whatever its version |
| `Store.InMemoryBackend.DeleteTask` | src/store/store-backend.ts:66-69 | task and log go |
| `Store.InMemoryBackend.ListTasks` | src/store/store-backend.ts:71-80 | different tasks of the selection, as many as the limit allows |
| `RedisKeys.KeysCollideIff` | src/store/redis-backend.ts:110-147 | two addresses share a key iff they are the same address, whatever ids and states contain, as long as no record kind has a colon |
| `RedisKeys.ColonInKindCollides` | src/store/redis-backend.ts:141-143 | with a colon in a kind two different records would share one |
| `RedisKeys.KeysAreWritten` | src/store/redis-backend.ts:110-136 | the keys of tasks, jobs, results, logs and retries as they are written |
| `RedisKeys.IndexKeysAreWritten` | src/store/redis-backend.ts:130-140 | those of the indexes |
| `RedisKeys.RecordKeysAreWritten` | src/store/redis-backend.ts:141-147 | those of records and their indexes |
| `CoreState.SurvivesWholeIff` | src/store/control-plane-store.ts:343-370 | a state survives a restart whole iff logs are kept for exactly the tasks, every job's task exists and every result's job does |
| `CoreState.RoundTrip` | src/store/control-plane-store.ts:271-370 | over any earlier contents, what was persisted is restored entry for entry, beside older tasks |
| `CoreState.RoundTripFromEmpty` | src/store/control-plane-store.ts:271-370 | from an empty store and with at most ten thousand tasks, what is restored is exactly what survives, and the same state again iff it is closed |
| `CoreState.ReadsEveryTask` | src/store/control-plane-store.ts:274 | with at most ten thousand tasks none is left out |
| `CoreState.AnswersAreIndependent` | src/store/control-plane-store.ts:346-347 | whether the store takes a task does not depend on the tasks written before it |
| `CoreState.WrittenMeans` | src/store/control-plane-store.ts:346-353 | writing tasks, logs and jobs in any order overlays exactly those of the tasks written, and keeps the indexes exact |
| `CoreState.ControlPlaneStore.PersistCoreState` | src/store/control-plane-store.ts:343-370 | succeeds iff the store takes every task; then the store is overlaid with the state; otherwise results and records are untouched; indexes stay exact |
| `CoreState.ControlPlaneStore.PersistTasks` | src/store/control-plane-store.ts:346-353 | stops at the first refused task, having written the ones before it completely |
| `CoreState.ControlPlaneStore.RestoreCoreState` | src/store/control-plane-store.ts:271-306 | the maps become exactly what is reachable from up to ten thousand stored tasks, and all records |
| `CoreState.Restart` | src/store/control-plane-store.ts:271-370 | persisting over an empty store and restoring into a new control plane gives exactly what survives, and the same state iff it is closed |
| `Spawning.TokenBucket.Consume` | src/domain/agent/index.ts:109-116 | refills, then takes the tokens iff they are there |
| `Spawning.TokenBucket.GetTokens` | src/domain/agent/index.ts:123-126 | refills and tells the level |
| `Spawning.TokenBucket.Reset` | src/domain/agent/index.ts:136-139 | the bucket is full as of now |
| `Spawning.ResetRefills` | src/domain/agent/index.ts:136-139 | a drained bucket refuses, and grants the whole burst right after a reset: the rate bound needs runs without |
| `Spawning.RefillsCompose` | src/domain/agent/index.ts:128-134 | refilling on the way changes nothing |
| `Spawning.LevelRises` | src/domain/agent/index.ts:128-134 | the level rises by no more than the rate allows and stays within the burst |
| `SpawnMeanings.RefillAddsExactly` | src/domain/agent/index.ts:128-134 | a refill brings a bucket up to the burst or adds exactly what the rate brought in |
| `Spawning.ScopesShareIff` | src/domain/agent/index.ts:248-257 | two requests share limits iff they are of one kind and name the same job or worker, none counting as "unknown" |
| `Spawning.TokensStayInBounds` | src/domain/agent/index.ts:109-134 | in every run every scope's tokens stay between zero and the burst |
| `Spawning.DecidedByLevel` | src/domain/agent/index.ts:311-317 | below the agent limit a spawn is allowed iff a whole token is there at the time of taking |
| `SpawnMeanings.EvaluationAnswered` | src/domain/agent/index.ts:282-360 | a request is allowed iff limits are on, agents are below the limit and a whole token is there; reason, decision, counts and expiry otherwise told field by field |
| `SpawnMeanings.EvaluationLeaves` | src/domain/agent/index.ts:282-323 | an evaluation takes exactly one token iff it allows, from its own scope, and changes nothing else any later moment could tell |
| `SpawnMeanings.IdleIsAllowed` | src/domain/agent/index.ts:109-134 | in every run, with room among the agents and a burst of one, a spawn is allowed once its scope was left alone long enough for one token |
| `SpawnMeanings.DefaultMinute` | src/domain/agent/index.ts:39-56 | by default a scope left alone for a minute has its whole burst again |
| `SpawnMeanings.DefaultAnswers` | src/domain/agent/index.ts:39-56 | by default three hundred agents to a job, and who comes too many waits a minute |
| `SpawnMeanings.ScopeNames` | src/domain/agent/index.ts:248-257 | the names of the scopes |
| `Spawning.EvaluationSpends` | src/domain/agent/index.ts:282-323 | an evaluation costs a token exactly when it allows |
| `Spawning.RateBound` | src/domain/agent/index.ts:184-226 | in every run the spawns allowed at one scope between any two allowed ones number at most the burst plus rate times the time between |
| `Spawning.IntervalBound` | src/domain/agent/index.ts:184-226 | in every run the spawns allowed at one scope within any stretch of time number at most the burst plus rate times its length |
| `Spawning.ConfiguredBound` | src/domain/agent/index.ts:184-199 | so at the configured burst and spawns per window |
| `Spawning.DefaultBound` | src/domain/agent/index.ts:39-56 | with the default limits at most three hundred in any minute |
| `Spawning.PeekIsInvisible` | src/domain/agent/index.ts:118-126 | reading any scope's tokens at any moment changes no later decision in any run |
| `SpawnLimits.PlacesNotReserved` | src/domain/agent/index.ts:311-323 | with one place left, as many spawns in a row are allowed as there are tokens |
| `SpawnLimits.StepKeepsLimitIff` | src/domain/agent/index.ts:206-209 | within the limit, an operation stays within it iff it registers no new agent or there is a place left |
| `SpawnLimits.LimitKeptIff` | src/domain/agent/index.ts:362-374 | a run keeps the limit throughout iff every agent it newly registers finds a place |
| `SpawnLimits.DisciplineKeepsLimit` | src/domain/agent/index.ts:311-323 | registering each allowed agent before the next evaluation, and none besides, keeps the limit |
| `SpawnLimits.LimitOvershot` | src/domain/agent/index.ts:311-323 | from nothing, for any limit and a burst of two or more, evaluating twice before registering ends one agent over the limit |
| `Spawning.AttemptsAccountedFor` | src/domain/agent/index.ts:403-421 | every attempt is counted once as allowed, queued or rejected, except while limits are disabled |
| `Spawning.NotedOnce` | src/domain/agent/index.ts:403-421 | each counter moves on its own occasion and under its own kind |
| `Spawning.FirstNoted` | src/domain/agent/index.ts:403-421 | every counter starts from nothing |
| `Spawning.ScopeManager.GetScopeState` | src/domain/agent/index.ts:184-199 | a scope is created on first use, full |
| `Spawning.ScopeManager.GetRemainingTokens` | src/domain/agent/index.ts:218-221 | refills and tells one scope's tokens |
| `Spawning.ScopeManager.TryConsumeToken` | src/domain/agent/index.ts:223-226 | takes one token of one scope iff it is there; other scopes are unchanged |
| `Spawning.ScopeManager.RegisterAgent` | src/domain/agent/index.ts:206-209 | the agent joins the scope, which is created if need be |
| `Spawning.ScopeManager.UnregisterAgent` | src/domain/agent/index.ts:211-216 | the agent leaves a scope that exists |
| `Spawning.SpawnController.EvaluateSpawn` | src/domain/agent/index.ts:282-360 | decision, reason, agents and tokens seen, queue expiry, tokens left and counters of every request are the specified ones |
| `DoomLoop.Pigeonhole` | src/domain/doom-loop/doom-loop-detector.ts:155-184 | two or more transitions and more than max_repeats visits per distinct state mean a repeated state |
| `DoomLoop.RepeatsIsPermanent` | src/domain/doom-loop/doom-loop-detector.ts:155-184 | a history reported as a repeat stays one however it goes on |
| `DoomLoop.RepeatsIff` | src/domain/doom-loop/doom-loop-detector.ts:155-184 | a state repeats iff the job was in it at more than max_repeats places |
| `DoomLoop.OscillatesIff` | src/domain/doom-loop/doom-loop-detector.ts:199-211 | a job alternates iff it was in two states and in no third |
| `DoomLoop.ReturnsIff` | src/domain/doom-loop/doom-loop-detector.ts:227-254 | it returns iff it was at its start again three or more places on, in at least four transitions |
| `DoomLoop.ShortIsNoLoop` | src/domain/doom-loop/doom-loop-detector.ts:155-160 | fewer than two transitions are no loop of any kind |
| `DoomLoop.DoomLoopDetector.TrackTransition` | src/domain/doom-loop/doom-loop-detector.ts:128-149 | the job's history grows by one transition |
| `DoomLoop.DoomLoopDetector.DetectLoop` | src/domain/doom-loop/doom-loop-detector.ts:155-225 | the first of the three tests that fires, with its evidence, or none iff none fires |
| `DoomLoop.DoomLoopDetector.CountVisits` | src/domain/doom-loop/doom-loop-detector.ts:163-171 | exact visit counts and the order of first visits |
| `DoomLoop.DoomLoopDetector.DetectComplexLoop` | src/domain/doom-loop/doom-loop-detector.ts:227-254 | found iff there are five visits and the start recurs three or more places on; the stretch to its last recurrence |
| `DoomLoop.WindowIsTailOfLog` | src/domain/doom-loop/doom-loop-detector.ts:335-404 | in every run the trimmed history is the last window of the full log |
| `DoomLoop.BlockedUntilCleared` | src/domain/doom-loop/doom-loop-detector.ts:456-469 | a block stands until it is cleared |
| `DoomLoop.AnsweredExactly` | src/domain/doom-loop/doom-loop-detector.ts:335-404 | every answer read off the run alone: blocked iff blocked before and not cleared, or called at the same stage often enough among the last calls; warned at most once between clears |
| `DoomLoop.DefaultAnswers` | src/domain/doom-loop/doom-loop-detector.ts:335-404 | by default the third sighting among the last twenty warns and the fourth blocks |
| `DoomLoop.WarnsFirstIff` | src/domain/doom-loop/doom-loop-detector.ts:335-404 | in every run of calls and complete clears every block is preceded by a warning since the last clear, iff the window is too small to block or the warn threshold is below a block threshold of at least two |
| `DoomLoop.DoomLoopDetector.CheckLoop` | src/domain/doom-loop/doom-loop-detector.ts:335-404 | answer, window, warnings and blocks of one call |
| `DoomLoop.DoomLoopDetector.ClearFingerprintState` | src/domain/doom-loop/doom-loop-detector.ts:456-460 | one fingerprint's verdicts go, the window stays |
| `DoomLoop.DoomLoopDetector.ClearAllFingerprintState` | src/domain/doom-loop/doom-loop-detector.ts:465-469 | everything goes |
| `Observations.ItemIdsDistinct` | src/domain/improvement/improvement-observation-service.ts:99-119 | different events and retrospectives give items with different ids |
| `Observations.SelectionMeans` | src/domain/improvement/improvement-observation-service.ts:46-48 | the selection is exactly the readable items of the window in strictly increasing order of time and id |
| `ExportMeanings.SelectedIff` | src/domain/improvement/improvement-observation-service.ts:186-193 | an item is selected iff a record gives it and its time can be read and lies between the bounds, both included |
| `ExportMeanings.ItemsAreOnRecord` | src/domain/improvement/improvement-observation-service.ts:99-119 | which events and retrospectives give an item, and which item |
| `ExportMeanings.PageHolds` | src/domain/improvement/improvement-observation-service.ts:35-52 | an answered page holds only items on record within the bounds, in order of time and then of id, and no more than asked for |
| `ExportMeanings.NextIff` | src/domain/improvement/improvement-observation-service.ts:49-52 | another page follows iff something asked for comes after this one's last item, and then this one is full |
| `ExportMeanings.WalkReturns` | src/domain/improvement/improvement-observation-service.ts:35-52 | a finished walk has returned every item asked for that was on record when it began |
| `ExportMeanings.RefusedIff` | src/domain/improvement/improvement-observation-service.ts:177-209 | which error answers which query, and which query is answered |
| `Observations.ResolveCursor` | src/domain/improvement/improvement-observation-service.ts:202-209 | an accepted cursor gives the place right behind the item it names; refused is exactly a cursor that names no selected item |
| `Observations.NoItemTwice` | src/domain/improvement/improvement-observation-service.ts:35-52 | while records are only added, following the cursor returns no item twice |
| `Observations.EveryItemReturned` | src/domain/improvement/improvement-observation-service.ts:35-52 | when the walk ends every item selected at its start has been returned |
| `Observations.CursorStaysGood` | src/domain/improvement/improvement-observation-service.ts:202-209 | while records are only added a cursor handed out is always accepted |
| `Observations.StillWalk` | src/domain/improvement/improvement-observation-service.ts:49-52 | over unchanging records every walk goes through the pages of the selection in order; there are max(1, ceil(n / limit)) of them, they concatenate to the selection, and exactly the last has no next cursor |
| `Observations.WalkEnds` | src/domain/improvement/improvement-observation-service.ts:35-52 | every walk over unchanging records can be finished, and then has taken exactly that many pages |
| `Observations.FirstRequest` | src/domain/improvement/improvement-observation-service.ts:35-52 | the first request of a query with sound bounds is answered |
| `Observations.NextRequest` | src/domain/improvement/improvement-observation-service.ts:49-52 | while the last page has a next cursor the next request is answered |
| `AckRefs.ParseUndoesBuildIff` | src/domain/resolver/resolver-service.ts:120-228 | parsing a built reference gives its parts iff neither task nor version has a colon, for any doc |
| `AckRefs.RebuildsParsed` | src/domain/resolver/resolver-service.ts:204-228 | rebuilding any accepted reference gives it back unchanged |
| `AckRefs.ParsesIff` | src/domain/resolver/resolver-service.ts:204-223 | accepted iff the prefix is there and at least two colons follow |
| `AckRefs.ParseAckRefs` | src/domain/resolver/resolver-service.ts:191-202 | keeps one version per doc, the one acknowledged last |
| `AckRefs.LastAcknowledgementCounts` | src/domain/resolver/resolver-service.ts:191-202 | the newest reference to a doc decides, whatever came before |
| `AckRefs.CheckStale` | src/domain/resolver/resolver-service.ts:127-189 | without references nothing is stale; otherwise exactly the documents asked about, or else those acknowledged, that are missing or differ from their last acknowledged version, with both versions |
| `AckRefs.ReportedIff` | src/domain/resolver/resolver-service.ts:160-186 | a document is reported iff it was looked at and is missing, or present at another version than the last acknowledged; a missing one with the last acknowledged version or unknown |
| `AckRefs.ReportedInOrder` | src/domain/resolver/resolver-service.ts:160-186 | documents are reported in the order they were looked at |
| `AckRefs.BuildNames` | src/domain/resolver/resolver-service.ts:120-122 | a reference is the prefix, task, document and version, with colons between |
| `Durations.CalculateStageDurations` | src/domain/retrospective/retrospective-service.ts:314-333 | per state left behind, the time from each event that entered it to the next |
| `Durations.NextCounts` | src/domain/retrospective/retrospective-service.ts:314-333 | one more event adds the time since the one before to that one's state |
| `Durations.SameTimeKeepsOrder` | src/domain/retrospective/retrospective-service.ts:318-320 | events at one time stay in the order they were recorded |
| `Durations.Telescopes` | src/domain/retrospective/retrospective-service.ts:314-333 | for every event list the durations and the time in the nameless state add up to last minus first |
| `Durations.NeverNegative` | src/domain/retrospective/retrospective-service.ts:318-326 | after sorting no duration is negative where timestamps sort by time |
| `Durations.SummariseDurations` | src/domain/retrospective/retrospective-service.ts:249-250 | the reported total is last minus first, less the time in a nameless state |
| `Durations.TotalIsElapsed` | src/domain/retrospective/retrospective-service.ts:249-250 | where every event names its state the total is earliest to latest, never negative, zero for fewer than two events |

## Left out

- HTTP routes, sockets, the command line and user interface, authentication, configuration loading, process spawning and service clients: plumbing, or foreign calls without visible semantics.
- Expiry of stored keys, JSON encoding and fingerprint hashing: keys never expire, a value is its own serialisation, a fingerprint is opaque.
- Interleavings of the several commands of one `deleteTask`, `setJob` or `setRecord` with other writers: each is one step; only the script is atomic in the original.
- Changes to memory while a persistence pass or a dispatch awaits the network: a pass writes one state, and the task a dispatch began with is the one it ends with.
- Crash recovery of running jobs at the end of `restoreCoreState`, and retry counters kept in the store.
- Job, result and record maps of the in-memory backend: its task map is what the versioned store refines.
- Lease and lock records are values in a map; callers that keep a reference to a record and change it are not modelled.
- Audit events, task events, metrics gauges, artifacts, blocked contexts and other payload carried along by updates; the run-system gate and the validation rules themselves are inputs of a report.
- Completing an acceptance, integration, publishing and cancelling: tasks in those states occur in runs, but runs consist of dispatches, reports, heartbeats and orphan scans.
- Orchestrators.ControlPlane.SettleSubmission: what happens to other jobs while the hand-over awaits the network is not modelled; an admission is settled before the next event.
- Risk levels, capability tables, permission maps, cooldowns and recommended actions: finite tables.
- Retrying an orphan dispatches again and so fails on a task in an active state; nothing counts orphan retries, so no bound on them is claimed.
- Floating point: delays, rates and tokens are exact; a rate window of zero seconds is not modelled.
- Timestamps that do not parse, in stage durations; collation and parsing are parameters there and in pagination.
- The split of an exported page into three lists by kind, the gate catalogue and the contents of each observation.
- The waiting queue of the spawn controller: the original never puts a request into it, and neither does the model.
