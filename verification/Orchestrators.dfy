/** The step-by-step form of dispatching and of applying results: the classes of
    src/domain/dispatch/dispatch-orchestrator.ts and src/domain/result/result-orchestrator.ts over the
    managers they share. Every method is proved against what JobControl says the call does. */
module Orchestrators {
  import opened Prelude
  import opened TaskStates
  import opened JobControl
  import L = Leases
  import C = Concurrency
  import D = DoomLoop
  import O = Orphans
  import R = Retry

  /** The part of a task update that matters here; a field without a value changes nothing. */
  datatype TaskUpdate = TaskUpdate(activeJob: Option<JobId>, rework: Option<ReworkContext>, retryCounts: map<Stage, int>)

  const NO_UPDATE := TaskUpdate(None, None, map[])

  function ApplyTaskUpdate(task: Task, u: TaskUpdate): Task {
    Task(
      task.state, task.version + 1,
      if u.activeJob.Some? then u.activeJob else task.activeJob,
      if u.rework.Some? then u.rework else task.rework,
      task.retryCounts + u.retryCounts)
  }

  function UpdatesFromResult(s: Stage, r: Result): TaskUpdate {
    if r.retryCount.Some? then NO_UPDATE.(retryCounts := map[s := r.retryCount.value]) else NO_UPDATE
  }

  /** The update each handling makes; a job id that is to be cleared is not among its effects. */
  function UpdateFor(task: Task, s: Stage, r: Result, h: Handling): TaskUpdate {
    var updates := if r.errors == [] && !h.GateBlock? then UpdatesFromResult(s, r) else NO_UPDATE;
    if h.Rework? then updates.(rework := Some(ReworkContext(s, PreviousAttempt(task.rework, s) + 1))) else updates
  }

  /** Update and transition together, one version step each, are the change a handling makes. */
  lemma UpdateThenMove(task: Task, s: Stage, r: Result, h: Handling)
    ensures var updated, target := ApplyTaskUpdate(task, UpdateFor(task, s, r, h)), Target(h, s, r.verdict);
      && UpdatedTask(task, s, r, h) == (if target.Some? then Moved(updated, target.value) else updated)
      && updated.state == task.state
  {}

  class ControlPlane {
    const leaseManager: L.LeaseManager
    const concurrencyManager: C.ConcurrencyManager
    const doomLoopDetector: D.DoomLoopDetector
    var tasks: map<TaskId, Task>
    var jobs: map<JobId, Job>
    var retryTracker: map<(TaskId, Stage), int>
    /** The report last accepted for each job; nothing here depends on it. */
    var results: map<JobId, Result>

    constructor (tasks: map<TaskId, Task>, leases: L.LeaseManager, concurrency: C.ConcurrencyManager, loops: D.DoomLoopDetector)
      ensures this.tasks == tasks && jobs == map[] && retryTracker == map[] && results == map[]
      ensures leaseManager == leases && concurrencyManager == concurrency && doomLoopDetector == loops
    {
      this.tasks, jobs, retryTracker, results := tasks, map[], map[], map[];
      leaseManager, concurrencyManager, doomLoopDetector := leases, concurrency, loops;
    }

    function State(): World
      reads this, leaseManager, concurrencyManager, doomLoopDetector
    {
      World(tasks, jobs, leaseManager.leases, concurrencyManager.SlotTables(), retryTracker, doomLoopDetector.transitions)
    }

    function Settings(): Config {
      Config(leaseManager.durationMs, concurrencyManager.config, doomLoopDetector.maxRepeats)
    }

    /** The report is on the task's active job. */
    predicate Current(t: TaskId, r: Result)
      reads this
    {
      t in tasks && tasks[t].activeJob == Some(r.job) && r.job in jobs
    }

    function Tracked(t: TaskId, s: Stage): int
      reads this
    {
      if (t, s) in retryTracker then retryTracker[(t, s)] else 0
    }

    // -------------------------------------------------------------- shared steps

    /** The store keeps the task only if the transition is allowed. */
    method TransitionTask(t: TaskId, task: Task, to: TaskState) returns (ok: bool)
      modifies this`tasks
      ensures ok == CanTransition(task.state, to)
      ensures tasks == if ok then old(tasks)[t := Moved(task, to)] else old(tasks)
    {
      ok := CanTransition(task.state, to);
      if ok {
        tasks := tasks[t := task.(state := to, version := task.version + 1)];
      }
    }

    method ReleaseLeaseOf(r: Result)
      requires r.job in jobs
      modifies leaseManager
      ensures leaseManager.leases == ReleaseLease(old(leaseManager.leases), r.job, jobs[r.job].worker)
    {
      var _ := leaseManager.Release(r.job, jobs[r.job].worker);
    }

    method FinalizeJob(r: Result, releaseConcurrency: bool)
      requires r.job in jobs
      modifies leaseManager, concurrencyManager`active, concurrencyManager`perWorker
      ensures leaseManager.leases == ReleaseLease(old(leaseManager.leases), r.job, jobs[r.job].worker)
      ensures concurrencyManager.SlotTables() ==
        if releaseConcurrency then old(concurrencyManager.SlotTables()).Complete(r.job, jobs[r.job].worker)
        else old(concurrencyManager.SlotTables())
    {
      ReleaseLeaseOf(r);
      if releaseConcurrency {
        concurrencyManager.RecordComplete(r.job, jobs[r.job].worker);
      }
    }

    // -------------------------------------------------------------- one handler per handling

    method HandleRunSystemGateBlocked(t: TaskId, r: Result) returns (o: Outcome)
      requires Current(t, r) && r.errors == []
      modifies this`tasks, leaseManager, concurrencyManager`active, concurrencyManager`perWorker
      ensures o == Judge(old(State()), t, r, GateBlock, 0.0)
      ensures State() == Enact(old(State()), t, r, o)
    {
      UpdateThenMove(tasks[t], jobs[r.job].stage, r, GateBlock);
      var ok := TransitionTask(t, ApplyTaskUpdate(tasks[t], NO_UPDATE), Blocked);
      if !ok {
        return Refused(GateBlock);
      }
      FinalizeJob(r, true);
      o := Applied(GateBlock, 0.0);
    }

    method HandleBlockedResult(t: TaskId, r: Result, update: TaskUpdate) returns (o: Outcome)
      requires Current(t, r) && update == UpdateFor(tasks[t], jobs[r.job].stage, r, WorkerBlock)
      modifies this`tasks
      ensures o == Judge(old(State()), t, r, WorkerBlock, 0.0)
      ensures State() == Enact(old(State()), t, r, o)
    {
      UpdateThenMove(tasks[t], jobs[r.job].stage, r, WorkerBlock);
      var ok := TransitionTask(t, ApplyTaskUpdate(tasks[t], update), Blocked);
      o := if ok then Applied(WorkerBlock, 0.0) else Refused(WorkerBlock);
    }

    method HandleDoomLoop(t: TaskId, r: Result, update: TaskUpdate) returns (o: Outcome)
      requires Current(t, r) && update == UpdateFor(tasks[t], jobs[r.job].stage, r, LoopBlock)
      modifies this`tasks, leaseManager, concurrencyManager`active, concurrencyManager`perWorker
      ensures o == Judge(old(State()), t, r, LoopBlock, 0.0)
      ensures State() == Enact(old(State()), t, r, o)
    {
      UpdateThenMove(tasks[t], jobs[r.job].stage, r, LoopBlock);
      var ok := TransitionTask(t, ApplyTaskUpdate(tasks[t], update), Blocked);
      if !ok {
        return Refused(LoopBlock);
      }
      FinalizeJob(r, false);
      o := Applied(LoopBlock, 0.0);
    }

    /** The retry is counted before the transition is tried, the lease given back after it. */
    method HandleRetry(t: TaskId, r: Result, current: int, update: TaskUpdate, random: real) returns (o: Outcome)
      requires Current(t, r) && current == RetryCount(State(), t, jobs[r.job].stage, r)
      requires update == UpdateFor(tasks[t], jobs[r.job].stage, r, Retry)
      modifies this`tasks, this`retryTracker, leaseManager
      ensures o == Judge(old(State()), t, r, Retry, random)
      ensures State() == Enact(old(State()), t, r, o)
    {
      var job := jobs[r.job];
      retryTracker := retryTracker[(t, job.stage) := current + 1];
      UpdateThenMove(tasks[t], job.stage, r, Retry);
      var ok := TransitionTask(t, ApplyTaskUpdate(tasks[t], update), ActiveState(job.stage));
      if !ok {
        return Refused(Retry);
      }
      ReleaseLeaseOf(r);
      o := Applied(Retry, R.CalculateBackoff(current, PolicyOf(job), random));
    }

    /** The lease is given back before the transition is tried. */
    method HandleFailover(t: TaskId, r: Result, next: Worker, update: TaskUpdate) returns (o: Outcome)
      requires Current(t, r) && update == UpdateFor(tasks[t], jobs[r.job].stage, r, Failover(next))
      modifies this`tasks, leaseManager
      ensures o == Judge(old(State()), t, r, Failover(next), 0.0)
      ensures State() == Enact(old(State()), t, r, o)
    {
      ReleaseLeaseOf(r);
      UpdateThenMove(tasks[t], jobs[r.job].stage, r, Failover(next));
      var ok := TransitionTask(t, ApplyTaskUpdate(tasks[t], update), ActiveState(jobs[r.job].stage));
      o := if ok then Applied(Failover(next), 0.0) else Refused(Failover(next));
    }

    method HandleFinalFailure(t: TaskId, r: Result, update: TaskUpdate) returns (o: Outcome)
      requires Current(t, r) && ValidReport(r) && update == UpdatesFromResult(jobs[r.job].stage, r)
      modifies this`tasks, leaseManager, concurrencyManager`active, concurrencyManager`perWorker
      ensures var h := if PreviousAttempt(old(tasks[t]).rework, jobs[r.job].stage) >= MAX_REWORK_ATTEMPTS
                       then ReworkExhausted else Rework;
        o == Judge(old(State()), t, r, h, 0.0)
      ensures State() == Enact(old(State()), t, r, o)
    {
      if PreviousAttempt(tasks[t].rework, jobs[r.job].stage) >= MAX_REWORK_ATTEMPTS {
        o := BlockExhausted(t, r, update);
      } else {
        o := SendBack(t, r, update);
      }
    }

    method BlockExhausted(t: TaskId, r: Result, update: TaskUpdate) returns (o: Outcome)
      requires Current(t, r) && ValidReport(r) && update == UpdatesFromResult(jobs[r.job].stage, r)
      modifies this`tasks, leaseManager, concurrencyManager`active, concurrencyManager`perWorker
      ensures o == Judge(old(State()), t, r, ReworkExhausted, 0.0)
      ensures State() == Enact(old(State()), t, r, o)
    {
      UpdateThenMove(tasks[t], jobs[r.job].stage, r, ReworkExhausted);
      var ok := TransitionTask(t, ApplyTaskUpdate(tasks[t], update), Blocked);
      if !ok {
        return Refused(ReworkExhausted);
      }
      FinalizeJob(r, true);
      o := Applied(ReworkExhausted, 0.0);
    }

    method SendBack(t: TaskId, r: Result, update: TaskUpdate) returns (o: Outcome)
      requires Current(t, r) && ValidReport(r) && update == UpdatesFromResult(jobs[r.job].stage, r)
      modifies this`tasks, leaseManager, concurrencyManager`active, concurrencyManager`perWorker
      ensures o == Judge(old(State()), t, r, Rework, 0.0)
      ensures State() == Enact(old(State()), t, r, o)
    {
      var stage := jobs[r.job].stage;
      var context := ReworkContext(stage, PreviousAttempt(tasks[t].rework, stage) + 1);
      UpdateThenMove(tasks[t], stage, r, Rework);
      var ok := TransitionTask(t, ApplyTaskUpdate(tasks[t], update.(rework := Some(context))), ReworkRequired);
      if !ok {
        return Refused(Rework);
      }
      FinalizeJob(r, true);
      o := Applied(Rework, 0.0);
    }

    static predicate ValidReport(r: Result) {
      r.errors == [] && !r.gateBlocks
    }

    method HandleSucceededStage(t: TaskId, r: Result, update: TaskUpdate) returns (o: Outcome)
      requires Current(t, r) && ValidReport(r) && update == UpdatesFromResult(jobs[r.job].stage, r)
      modifies this`tasks, leaseManager, concurrencyManager`active, concurrencyManager`perWorker
      ensures o == Judge(old(State()), t, r, Success, 0.0)
      ensures State() == Enact(old(State()), t, r, o)
    {
      var stage := jobs[r.job].stage;
      var ok := true;
      var updated := ApplyTaskUpdate(tasks[t], update);
      UpdateThenMove(tasks[t], stage, r, Success);
      if stage.Plan? {
        ok := TransitionTask(t, updated, Planned);
      } else if stage.Dev? {
        ok := TransitionTask(t, updated, DevCompleted);
      } else if r.verdict == Some(Reject) || r.verdict == Some(ReworkVerdict) {
        ok := TransitionTask(t, updated, ReworkRequired);
      } else {
        tasks := tasks[t := updated];
      }
      if !ok {
        return Refused(Success);
      }
      FinalizeJob(r, true);
      o := Applied(Success, 0.0);
    }

    method DetectsLoop(j: JobId) returns (loops: bool)
      modifies doomLoopDetector`loopResults
      ensures loops == Loops(State(), Settings(), j)
    {
      var loop := doomLoopDetector.DetectLoop(j);
      loops := loop.Some?;
    }

    method HandleFailedResult(t: TaskId, r: Result, update: TaskUpdate, random: real) returns (o: Outcome)
      requires Current(t, r) && ValidReport(r) && update == UpdatesFromResult(jobs[r.job].stage, r)
      modifies this`tasks, this`retryTracker, leaseManager, concurrencyManager`active, concurrencyManager`perWorker,
               doomLoopDetector`loopResults
      ensures o == Judge(old(State()), t, r, HandleFailed(old(State()), Settings(), t, old(jobs[r.job]), r), random)
      ensures State() == Enact(old(State()), t, r, o)
    {
      var job := jobs[r.job];
      var loops := DetectsLoop(r.job);
      if loops {
        o := HandleDoomLoop(t, r, update);
        return;
      }
      if job.stage.Plan? {
        var next := FailoverWorker(job.stage, job.worker);
        if next.Some? {
          o := HandleFailover(t, r, next.value, update);
          return;
        }
      }
      o := RetryOrGiveUp(t, r, update, random);
    }

    method RetryOrGiveUp(t: TaskId, r: Result, update: TaskUpdate, random: real) returns (o: Outcome)
      requires Current(t, r) && ValidReport(r) && update == UpdatesFromResult(jobs[r.job].stage, r)
      modifies this`tasks, this`retryTracker, leaseManager, concurrencyManager`active, concurrencyManager`perWorker
      ensures var job := old(jobs[r.job]);
              var h := if R.ShouldRetry(r.failure, RetryCount(old(State()), t, job.stage, r), PolicyOf(job).maxRetries) then Retry
                       else if PreviousAttempt(old(tasks[t]).rework, job.stage) >= MAX_REWORK_ATTEMPTS then ReworkExhausted
                       else Rework;
        o == Judge(old(State()), t, r, h, random)
      ensures State() == Enact(old(State()), t, r, o)
    {
      var job := jobs[r.job];
      var current := r.retryCount.GetOr(Tracked(t, job.stage));
      if R.ShouldRetry(r.failure, current, PolicyOf(job).maxRetries) {
        o := HandleRetry(t, r, current, update, random);
        return;
      }
      o := HandleFinalFailure(t, r, update);
    }

    method HandleValidationFailure(t: TaskId, r: Result, random: real) returns (o: Outcome)
      requires Current(t, r) && r.errors != []
      modifies this`tasks, this`retryTracker, leaseManager, concurrencyManager`active, concurrencyManager`perWorker
      ensures o == Judge(old(State()), t, r, HandleInvalid(old(State()), t, old(jobs[r.job]), r), random)
      ensures State() == Enact(old(State()), t, r, o)
    {
      var job := jobs[r.job];
      var isPolicyViolation := HasCode(r.errors, {PolicyViolation, AuthorityConflict});
      var isRetryable := !isPolicyViolation && HasCode(r.errors, {SchemaError, ParseError});
      if isRetryable {
        var current := Tracked(t, job.stage);
        if R.ShouldRetry(R.RetryableTransient, current, PolicyOf(job).maxRetries) {
          o := RetryInvalid(t, r, current, random);
          return;
        }
      }
      var needsManualGate := job.stage.Acceptance?
        && (HasPath(r.errors, "evidence") || HasPath(r.errors, "verdict.outcome") || HasCode(r.errors, {PolicyViolation}));
      o := RejectInvalid(t, r, if isPolicyViolation || needsManualGate then ValidationBlock else ValidationRework);
    }

    method RejectInvalid(t: TaskId, r: Result, h: Handling) returns (o: Outcome)
      requires Current(t, r) && r.errors != [] && (h.ValidationBlock? || h.ValidationRework?)
      modifies this`tasks, leaseManager, concurrencyManager`active, concurrencyManager`perWorker
      ensures o == Judge(old(State()), t, r, h, 0.0)
      ensures State() == Enact(old(State()), t, r, o)
    {
      UpdateThenMove(tasks[t], jobs[r.job].stage, r, h);
      var ok := TransitionTask(t, ApplyTaskUpdate(tasks[t], NO_UPDATE), if h.ValidationBlock? then Blocked else ReworkRequired);
      if !ok {
        return Refused(h);
      }
      FinalizeJob(r, true);
      o := Applied(h, 0.0);
    }

    method RetryInvalid(t: TaskId, r: Result, current: int, random: real) returns (o: Outcome)
      requires Current(t, r) && r.errors != [] && current == Tracked(t, jobs[r.job].stage)
      modifies this`tasks, this`retryTracker, leaseManager
      ensures o == Judge(old(State()), t, r, SchemaRetry, random)
      ensures State() == Enact(old(State()), t, r, o)
    {
      var job := jobs[r.job];
      retryTracker := retryTracker[(t, job.stage) := current + 1];
      UpdateThenMove(tasks[t], job.stage, r, SchemaRetry);
      var ok := TransitionTask(t, ApplyTaskUpdate(tasks[t], NO_UPDATE), ActiveState(job.stage));
      if !ok {
        return Refused(SchemaRetry);
      }
      ReleaseLeaseOf(r);
      o := Applied(SchemaRetry, R.CalculateBackoff(current, PolicyOf(job), random));
    }

    // -------------------------------------------------------------- the entry points

    method ApplyResult(t: TaskId, r: Result, random: real) returns (o: Outcome)
      modifies this`tasks, this`retryTracker, this`results, leaseManager, concurrencyManager`active, concurrencyManager`perWorker,
               doomLoopDetector`loopResults
      ensures o == OutcomeOf(old(State()), Settings(), t, r, random)
      ensures State() == JobControl.ApplyResult(old(State()), Settings(), t, r, random)
      ensures results == if o.Applied? || o.Refused? then old(results)[r.job := r] else old(results)
    {
      if t !in tasks {
        return NotFound;
      }
      if tasks[t].activeJob.None? || tasks[t].activeJob.value != r.job {
        return Ignored;
      }
      if !r.refMatches {
        return Mismatch;
      }
      if r.job !in jobs {
        return NotFound;
      }
      results := results[r.job := r];
      if |r.errors| > 0 {
        o := HandleValidationFailure(t, r, random);
        return;
      }
      if r.gateBlocks {
        o := HandleRunSystemGateBlocked(t, r);
        return;
      }
      var update := UpdatesFromResult(jobs[r.job].stage, r);
      match r.status
      case ReportBlocked => o := HandleBlockedResult(t, r, update);
      case ReportFailed => o := HandleFailedResult(t, r, update, random);
      case ReportSucceeded => o := HandleSucceededStage(t, r, update);
    }

    /** Takes the slot and records the job and its transition. */
    method RecordJob(t: TaskId, q: Request, now: int)
      requires t in tasks
      modifies this`jobs, concurrencyManager`active, concurrencyManager`perWorker, doomLoopDetector`transitions
      ensures var admitted := Admit(old(State()), Settings(), t, q, now);
        State() == admitted.(tasks := old(tasks), leases := old(leaseManager.leases))
    {
      jobs := jobs[q.job := NewJob(t, q)];
      concurrencyManager.RecordStart(q.job, WorkerFor(q), StageName(q.stage), now);
      doomLoopDetector.TrackTransition(q.job, Label(tasks[t].state), Label(ActiveState(q.stage)));
    }

    method Dispatch(t: TaskId, q: Request, now: int) returns (o: DispatchOutcome)
      modifies this`tasks, this`jobs, leaseManager, concurrencyManager`active, concurrencyManager`perWorker,
               doomLoopDetector`transitions
      ensures o == DispatchOutcomeOf(old(State()), Settings(), t, q, now)
      ensures State() == JobControl.Dispatch(old(State()), Settings(), t, q, now)
    {
      if t !in tasks {
        return TaskNotFound;
      }
      var task := tasks[t];
      if DispatchStage(task.state) != Some(q.stage) {
        return WrongState;
      }
      if !q.capable {
        var _ := TransitionTask(t, task, Blocked);
        return Incapable;
      }
      var refusal := concurrencyManager.CanAccept(WorkerFor(q));
      if refusal.Some? {
        return NoCapacity;
      }
      o := LeaseAndHandOver(t, q, now);
    }

    /** What follows once there is a slot: the lease, the records, and the hand-over. */
    method LeaseAndHandOver(t: TaskId, q: Request, now: int) returns (o: DispatchOutcome)
      requires t in tasks && DispatchStage(tasks[t].state) == Some(q.stage)
      modifies this`tasks, this`jobs, leaseManager, concurrencyManager`active, concurrencyManager`perWorker,
               doomLoopDetector`transitions
      ensures o == if L.Granted(old(leaseManager.leases), L.At(now, L.Acquire(q.job, WorkerFor(q))))
                   then Admitted(q.submission) else LeaseRefused
      ensures State() == if o.Admitted? then Admit(old(State()), Settings(), t, q, now) else old(State())
    {
      var lease := leaseManager.Acquire(q.job, WorkerFor(q), now);
      if lease.None? {
        return LeaseRefused;
      }
      RecordJob(t, q, now);
      SettleSubmission(t, q);
      o := Admitted(q.submission);
    }

    /** What becomes of the task once its job was handed to a worker, or could not be. */
    method SettleSubmission(t: TaskId, q: Request)
      requires t in tasks && DispatchStage(tasks[t].state) == Some(q.stage)
      modifies this`tasks
      ensures tasks == old(tasks)[t := DispatchedTask(old(tasks)[t], q)]
    {
      match q.submission
      case Submitted =>
        var _ := TransitionTask(t, tasks[t].(activeJob := Some(q.job)), ActiveState(q.stage));
      case BackendUnavailable =>
        var _ := TransitionTask(t, tasks[t], Blocked);
      case SubmissionFailed =>
    }

    method Heartbeat(j: JobId, worker: Worker, now: int) returns (ok: bool)
      modifies leaseManager
      ensures ok == (j in jobs && L.Granted(old(leaseManager.leases), L.At(now, L.Heartbeat(j, worker))))
      ensures State() == JobControl.Heartbeat(old(State()), Settings(), j, worker, now)
    {
      if j !in jobs {
        return false;
      }
      var response := leaseManager.Heartbeat(j, worker, now);
      ok := response.Some?;
    }

    // -------------------------------------------------------------- the orphan scan

    /** One entry per task in an active state whose active job still has its lease. */
    method GetActiveJobsForOrphanScan() returns (infos: seq<O.JobInfo>)
      ensures forall info :: info in infos <==> ScanEntry(State(), info.task) == Some(info)
      ensures forall i, k :: 0 <= i < k < |infos| ==> infos[i].task != infos[k].task
    {
      var ids := Enumerate(tasks.Keys);
      infos := [];
      for i := 0 to |ids|
        invariant forall info :: info in infos <==> info.task in ids[..i] && ScanEntry(State(), info.task) == Some(info)
        invariant forall a, b :: 0 <= a < b < |infos| ==> infos[a].task != infos[b].task
      {
        assert ids[..i + 1] == ids[..i] + [ids[i]];
        var entry := EntryOf(ids[i]);
        if entry.Some? {
          infos := infos + [entry.value];
        }
      }
      assert ids[..|ids|] == ids;
    }

    method EntryOf(t: TaskId) returns (entry: Option<O.JobInfo>)
      requires t in tasks
      ensures entry == ScanEntry(State(), t)
      ensures entry.Some? ==> entry.value.task == t
    {
      var task := tasks[t];
      var stage := ScannedStage(task.state);
      if stage.None? || task.activeJob.None? {
        return None;
      }
      var j := task.activeJob.value;
      if j !in jobs || j !in leaseManager.leases {
        return None;
      }
      var lease := leaseManager.leases[j];
      var retries := if jobs[j].stage in task.retryCounts then task.retryCounts[jobs[j].stage] else 0;
      entry := Some(O.JobInfo(j, t, stage.value, lease.expiresAt, Some(lease.lastHeartbeatAt), retries));
    }

    /** One transition and one update. */
    method BlockOrphanedTask(t: TaskId)
      requires t in tasks && ScannedStage(tasks[t].state).Some?
      modifies this`tasks
      ensures tasks == old(tasks)[t := OrphanBlocked(old(tasks)[t])]
    {
      var _ := TransitionTask(t, tasks[t], Blocked);
      assert tasks[t].retryCounts + map[] == tasks[t].retryCounts;
      tasks := tasks[t := ApplyTaskUpdate(tasks[t], NO_UPDATE)];
    }

    /** A scan that is not already under way acts on exactly the tasks that are flagged, and blocks
        those that are not to be retried. */
    method ScanForOrphans(scanner: O.OrphanScanner, now: int) returns (actions: seq<O.Recovery>)
      requires !scanner.isScanning
      modifies this`tasks, scanner
      ensures forall t :: (exists a :: a in actions && a.task == t) <==> Flagged(old(State()), scanner.config, now, t)
      ensures State() == Scan(old(State()), scanner.config, now)
    {
      var infos := GetActiveJobsForOrphanScan();
      var scanned, found;
      scanned, found, actions := scanner.Scan(infos, now);
      FlaggedAreTreated(State(), scanner.config, now, infos);
      O.TasksTreatedOnce(scanner.config, now, infos);
      BlockAll(scanner.config, now, actions);
    }

    /** Carries out the block actions of a scan. */
    method BlockAll(ghost scan: O.Config, ghost now: int, actions: seq<O.Recovery>)
      requires forall i, k :: 0 <= i < k < |actions| ==> actions[i].task != actions[k].task
      requires forall t :: (exists a :: a in actions && a.task == t && a.decision.Block?) <==> BlockedByScan(State(), scan, now, t)
      modifies this`tasks
      ensures State() == Scan(old(State()), scan, now)
    {
      ghost var blocked: set<TaskId> := {};
      for i := 0 to |actions|
        invariant tasks.Keys == old(tasks).Keys && blocked <= tasks.Keys
        invariant forall t :: t in blocked <==> exists k :: 0 <= k < i && actions[k].task == t && actions[k].decision.Block?
        invariant forall t :: t in tasks ==> tasks[t] == if t in blocked then OrphanBlocked(old(tasks)[t]) else old(tasks)[t]
      {
        var t := actions[i].task;
        assert t !in blocked;
        if actions[i].decision.Block? {
          assert actions[i] in actions && BlockedByScan(old(State()), scan, now, t);
          BlockOrphanedTask(t);
          blocked := blocked + {t};
        }
      }
      forall t ensures t in blocked <==> BlockedByScan(old(State()), scan, now, t) {
        if a :| a in actions && a.task == t && a.decision.Block? {
          var k :| 0 <= k < |actions| && actions[k] == a;
        }
      }
      assert tasks == Scan(old(State()), scan, now).tasks;
    }
  }

  /** The actions of a scan are on the flagged tasks, its block actions on those it is to block. */
  lemma FlaggedAreTreated(w: World, scan: O.Config, now: int, infos: seq<O.JobInfo>)
    requires forall info :: info in infos <==> ScanEntry(w, info.task) == Some(info)
    ensures var actions := O.Recoveries(scan, now, infos);
      && (forall t :: (exists a :: a in actions && a.task == t) <==> Flagged(w, scan, now, t))
      && (forall t :: (exists a :: a in actions && a.task == t && a.decision.Block?) <==> BlockedByScan(w, scan, now, t))
  {
    var actions := O.Recoveries(scan, now, infos);
    O.RecoveriesTreat(scan, now, infos);
    forall t | Flagged(w, scan, now, t)
      ensures exists a :: a in actions && a.task == t && a == O.Treat(scan, now, ScanEntry(w, t).value).value
    {
      var info := ScanEntry(w, t).value;
      assert info.task == t && info in infos;
      var i :| 0 <= i < |infos| && infos[i] == info;
      assert O.Treat(scan, now, infos[i]).value in actions;
    }
    forall a | a in actions
      ensures Flagged(w, scan, now, a.task) && a == O.Treat(scan, now, ScanEntry(w, a.task).value).value
    {
      var i :| 0 <= i < |infos| && O.Treat(scan, now, infos[i]) == Some(a);
      assert infos[i] in infos;
    }
  }
}
