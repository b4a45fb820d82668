/** Dispatching jobs and applying their results: src/domain/dispatch/dispatch-orchestrator.ts,
    src/domain/result/result-orchestrator.ts, and the guards and bookkeeping around them in
    src/store/services/job-service.ts, src/store/services/task-service.ts and
    src/store/control-plane-store.ts. This module says what one call does; JobRuns says what runs of
    calls keep, and Orchestrators holds the step-by-step form. */
module JobControl {
  import opened Prelude
  import opened TaskStates
  import L = Leases
  import C = Concurrency
  import D = DoomLoop
  import O = Orphans
  import R = Retry

  type JobId = string
  type TaskId = string
  type Worker = string

  const MAX_REWORK_ATTEMPTS := 2

  datatype Config = Config(leaseMs: int, slots: C.Config, maxRepeats: int)

  datatype ReworkContext = ReworkContext(stage: Stage, attempt: int)

  datatype Task = Task(
    state: TaskState, version: int, activeJob: Option<JobId>, rework: Option<ReworkContext>, retryCounts: map<Stage, int>)

  datatype Job = Job(task: TaskId, stage: Stage, worker: Worker, policy: Option<R.Policy>)

  // ---------------------------------------------------------------- results

  datatype ErrorCode = SchemaError | ParseError | SemanticError | PolicyViolation | AuthorityConflict
  datatype ValidationError = ValidationError(code: ErrorCode, path: string)

  datatype Status = ReportSucceeded | ReportFailed | ReportBlocked
  datatype Verdict = Accept | Reject | ReworkVerdict | NeedsManualReview

  /** A worker's report. `errors` is what validation found, `gateBlocks` what the run-system gate
      decided, `failure` the reported or derived failure class. */
  datatype Result = Result(
    job: JobId, refMatches: bool, errors: seq<ValidationError>, gateBlocks: bool, status: Status,
    failure: R.FailureClass, retryCount: Option<int>, verdict: Option<Verdict>)

  // ---------------------------------------------------------------- the world

  datatype World = World(
    tasks: map<TaskId, Task>, jobs: map<JobId, Job>,
    leases: L.Table, slots: C.Slots,
    tracker: map<(TaskId, Stage), int>, visits: map<JobId, seq<D.Transition>>)
  {
    function Tracked(t: TaskId, s: Stage): int {
      if (t, s) in tracker then tracker[(t, s)] else 0
    }

    function VisitsOf(j: JobId): seq<D.Transition> {
      if j in visits then visits[j] else []
    }
  }

  function DefaultMaxRetries(s: Stage): int {
    match s case Plan => 2 case Dev => 3 case Acceptance => 1
  }

  /** The policy dispatch gives every job of a stage. */
  function DefaultPolicy(s: Stage): R.Policy {
    R.Policy(DefaultMaxRetries(s), 2.0, 60.0, true)
  }

  function PolicyOf(job: Job): R.Policy {
    job.policy.GetOr(DefaultPolicy(job.stage))
  }

  // ---------------------------------------------------------------- how a result is handled

  datatype Handling =
    | SchemaRetry | ValidationBlock | ValidationRework
    | GateBlock | WorkerBlock
    | LoopBlock | Failover(next: Worker) | Retry | ReworkExhausted | Rework
    | Success

  const FAILOVER_ORDER: seq<Worker> := ["codex", "claude_code", "google_antigravity"]

  /** The next worker in line, for the plan stage only. */
  function FailoverWorker(s: Stage, w: Worker): Option<Worker> {
    if !s.Plan? then None
    else if w == FAILOVER_ORDER[0] then Some(FAILOVER_ORDER[1])
    else if w == FAILOVER_ORDER[1] then Some(FAILOVER_ORDER[2])
    else None
  }

  /** The attempts already spent on this stage; another stage's context does not count. */
  function PreviousAttempt(rework: Option<ReworkContext>, s: Stage): int {
    if rework.Some? && rework.value.stage == s then rework.value.attempt else 0
  }

  function RetryCount(w: World, t: TaskId, s: Stage, r: Result): int {
    r.retryCount.GetOr(w.Tracked(t, s))
  }

  predicate HasCode(errors: seq<ValidationError>, codes: set<ErrorCode>) {
    exists i :: 0 <= i < |errors| && errors[i].code in codes
  }

  predicate HasPath(errors: seq<ValidationError>, path: string) {
    exists i :: 0 <= i < |errors| && errors[i].path == path
  }

  function HandleInvalid(w: World, t: TaskId, job: Job, r: Result): Handling {
    var policyViolation := HasCode(r.errors, {PolicyViolation, AuthorityConflict});
    var retryable := !policyViolation && HasCode(r.errors, {SchemaError, ParseError});
    var manualGate := job.stage.Acceptance?
      && (HasPath(r.errors, "evidence") || HasPath(r.errors, "verdict.outcome") || HasCode(r.errors, {PolicyViolation}));
    if retryable && R.ShouldRetry(R.RetryableTransient, w.Tracked(t, job.stage), PolicyOf(job).maxRetries) then SchemaRetry
    else if policyViolation || manualGate then ValidationBlock
    else ValidationRework
  }

  /** Any of the three loop tests fires on the job's recorded transitions. */
  ghost predicate Loops(w: World, cfg: Config, j: JobId) {
    D.Repeats(w.VisitsOf(j), cfg.maxRepeats) || D.Oscillates(w.VisitsOf(j)) || D.ReturnsToStart(w.VisitsOf(j))
  }

  ghost function HandleFailed(w: World, cfg: Config, t: TaskId, job: Job, r: Result): Handling
    requires t in w.tasks
  {
    if Loops(w, cfg, r.job) then LoopBlock
    else if FailoverWorker(job.stage, job.worker).Some? then Failover(FailoverWorker(job.stage, job.worker).value)
    else if R.ShouldRetry(r.failure, RetryCount(w, t, job.stage, r), PolicyOf(job).maxRetries) then Retry
    else if PreviousAttempt(w.tasks[t].rework, job.stage) >= MAX_REWORK_ATTEMPTS then ReworkExhausted
    else Rework
  }

  ghost function Handle(w: World, cfg: Config, t: TaskId, job: Job, r: Result): Handling
    requires t in w.tasks
  {
    if r.errors != [] then HandleInvalid(w, t, job, r)
    else if r.gateBlocks then GateBlock
    else match r.status
      case ReportBlocked => WorkerBlock
      case ReportFailed => HandleFailed(w, cfg, t, job, r)
      case ReportSucceeded => Success
  }

  /** The transition a handling asks for; accepting a result of the acceptance stage asks for none. */
  function Target(h: Handling, s: Stage, verdict: Option<Verdict>): Option<TaskState> {
    match h
    case SchemaRetry | Retry | Failover(_) => Some(ActiveState(s))
    case ValidationBlock | GateBlock | WorkerBlock | LoopBlock | ReworkExhausted => Some(Blocked)
    case ValidationRework | Rework => Some(ReworkRequired)
    case Success =>
      match s
      case Plan => Some(Planned)
      case Dev => Some(DevCompleted)
      case Acceptance => if verdict == Some(Reject) || verdict == Some(ReworkVerdict) then Some(ReworkRequired) else None
  }

  predicate CountsRetry(h: Handling) {
    h.SchemaRetry? || h.Retry?
  }

  /** Every handling but a worker-reported block gives the job's lease back. */
  predicate FreesLease(h: Handling) {
    !h.WorkerBlock?
  }

  /** Retry, failover, loop block and worker-reported block keep the concurrency slot. */
  predicate FreesSlot(h: Handling) {
    !(CountsRetry(h) || h.Failover? || h.LoopBlock? || h.WorkerBlock?)
  }

  /** The count a retry of this handling starts from. */
  function RetryFrom(w: World, t: TaskId, s: Stage, r: Result, h: Handling): int {
    if h.SchemaRetry? then w.Tracked(t, s) else RetryCount(w, t, s, r)
  }

  function BumpTracker(w: World, t: TaskId, s: Stage, r: Result, h: Handling): map<(TaskId, Stage), int> {
    if CountsRetry(h) then w.tracker[(t, s) := RetryFrom(w, t, s, r, h) + 1] else w.tracker
  }

  /** One update and, where asked for, one transition; each raises the version by one. The active
      job stays recorded: an update to "no job" is dropped. */
  function UpdatedTask(task: Task, s: Stage, r: Result, h: Handling): Task {
    var target := Target(h, s, r.verdict);
    Task(
      if target.Some? then target.value else task.state,
      task.version + 1 + (if target.Some? then 1 else 0),
      task.activeJob,
      if h.Rework? then Some(ReworkContext(s, PreviousAttempt(task.rework, s) + 1)) else task.rework,
      if r.retryCount.Some? && r.errors == [] && !h.GateBlock? then task.retryCounts[s := r.retryCount.value] else task.retryCounts)
  }

  datatype Outcome =
    | NotFound              // no such task or job
    | Ignored               // the task has no active job, or another one
    | Mismatch              // the typed reference differs
    | Refused(handling: Handling)                // the transition is not allowed
    | Applied(handling: Handling, delay: real)   // `delay`: seconds until the retry, zero otherwise

  ghost function OutcomeOf(w: World, cfg: Config, t: TaskId, r: Result, random: real): Outcome {
    if t !in w.tasks then NotFound
    else if w.tasks[t].activeJob != Some(r.job) then Ignored
    else if !r.refMatches then Mismatch
    else if r.job !in w.jobs then NotFound
    else
      Judge(w, t, r, Handle(w, cfg, t, w.jobs[r.job], r), random)
  }

  /** A handling comes through exactly when the transition it asks for is allowed. */
  function Judge(w: World, t: TaskId, r: Result, h: Handling, random: real): Outcome
    requires t in w.tasks && r.job in w.jobs
  {
    var job := w.jobs[r.job];
    var target := Target(h, job.stage, r.verdict);
    if target.Some? && !CanTransition(w.tasks[t].state, target.value) then Refused(h)
    else Applied(h, if CountsRetry(h) then R.CalculateBackoff(RetryFrom(w, t, job.stage, r, h), PolicyOf(job), random) else 0.0)
  }

  function ReleaseLease(leases: L.Table, j: JobId, owner: Worker): L.Table {
    L.Step(leases, 0, L.At(0, L.Release(j, owner)))
  }

  /** Such an outcome can come of this report. */
  predicate Possible(w: World, t: TaskId, r: Result, o: Outcome) {
    o.Refused? || o.Applied? ==> t in w.tasks && w.tasks[t].activeJob == Some(r.job) && r.job in w.jobs
  }

  /** The effect of each outcome. A refused transition leaves the retry already counted, and after a
      failover the lease already given back; nothing else happens. */
  function Enact(w: World, t: TaskId, r: Result, o: Outcome): World
    requires Possible(w, t, r, o)
  {
    match o
    case NotFound | Ignored | Mismatch => w
    case Refused(h) =>
      var job := w.jobs[r.job];
      w.(tracker := BumpTracker(w, t, job.stage, r, h),
         leases := if h.Failover? then ReleaseLease(w.leases, r.job, job.worker) else w.leases)
    case Applied(h, _) =>
      var job := w.jobs[r.job];
      w.(tasks := w.tasks[t := UpdatedTask(w.tasks[t], job.stage, r, h)],
         tracker := BumpTracker(w, t, job.stage, r, h),
         leases := if FreesLease(h) then ReleaseLease(w.leases, r.job, job.worker) else w.leases,
         slots := if FreesSlot(h) then w.slots.Complete(r.job, job.worker) else w.slots)
  }

  ghost function ApplyResult(w: World, cfg: Config, t: TaskId, r: Result, random: real): World {
    Enact(w, t, r, OutcomeOf(w, cfg, t, r, random))
  }

  // ---------------------------------------------------------------- dispatch

  /** What came of handing the job to a worker. */
  datatype Submission = Submitted | BackendUnavailable | SubmissionFailed

  datatype Request = Request(stage: Stage, worker: Option<Worker>, capable: bool, job: JobId, submission: Submission)

  datatype DispatchOutcome =
    | TaskNotFound | WrongState | Incapable | NoCapacity | LeaseRefused
    | Admitted(submission: Submission)   // lease and slot taken

  function DefaultWorker(s: Stage): Worker {
    match s case Plan | Dev => "codex" case Acceptance => "claude_code"
  }

  function WorkerFor(q: Request): Worker {
    q.worker.GetOr(DefaultWorker(q.stage))
  }

  function DispatchOutcomeOf(w: World, cfg: Config, t: TaskId, q: Request, now: int): DispatchOutcome {
    if t !in w.tasks then TaskNotFound
    else if DispatchStage(w.tasks[t].state) != Some(q.stage) then WrongState
    else if !q.capable then Incapable
    else if w.slots.CanAccept(cfg.slots, WorkerFor(q)).Some? then NoCapacity
    else if !L.Granted(w.leases, L.At(now, L.Acquire(q.job, WorkerFor(q)))) then LeaseRefused
    else Admitted(q.submission)
  }

  function StageName(s: Stage): string {
    match s case Plan => "plan" case Dev => "dev" case Acceptance => "acceptance"
  }

  function Moved(task: Task, s: TaskState): Task {
    task.(state := s, version := task.version + 1)
  }

  function DispatchedTask(task: Task, q: Request): Task {
    match q.submission
    case Submitted => Moved(task, ActiveState(q.stage)).(activeJob := Some(q.job))
    case BackendUnavailable => Moved(task, Blocked)
    case SubmissionFailed => task
  }

  function NewJob(t: TaskId, q: Request): Job {
    Job(t, q.stage, WorkerFor(q), Some(DefaultPolicy(q.stage)))
  }

  /** The job is recorded with its lease, its slot and its one transition, then handed to a worker. */
  function Admit(w: World, cfg: Config, t: TaskId, q: Request, now: int): World
    requires t in w.tasks
  {
    World(
      w.tasks[t := DispatchedTask(w.tasks[t], q)],
      w.jobs[q.job := NewJob(t, q)],
      L.Step(w.leases, cfg.leaseMs, L.At(now, L.Acquire(q.job, WorkerFor(q)))),
      w.slots.Start(q.job, WorkerFor(q), StageName(q.stage), now),
      w.tracker,
      w.visits[q.job := w.VisitsOf(q.job) + [D.Transition(Label(w.tasks[t].state), Label(ActiveState(q.stage)))]])
  }

  function Dispatch(w: World, cfg: Config, t: TaskId, q: Request, now: int): World {
    match DispatchOutcomeOf(w, cfg, t, q, now)
    case TaskNotFound | WrongState | NoCapacity | LeaseRefused => w
    case Incapable => w.(tasks := w.tasks[t := Moved(w.tasks[t], Blocked)])
    case Admitted(_) => Admit(w, cfg, t, q, now)
  }

  // ---------------------------------------------------------------- heartbeats

  function Heartbeat(w: World, cfg: Config, j: JobId, worker: Worker, now: int): World {
    if j !in w.jobs then w
    else w.(leases := L.Step(w.leases, cfg.leaseMs, L.At(now, L.Heartbeat(j, worker))))
  }

  // ---------------------------------------------------------------- orphan scans

  /** The stage the scan reads off the task's state; other states are not scanned. */
  function ScannedStage(s: TaskState): Option<O.Stage> {
    match s
    case Planning => Some(O.Plan)
    case Developing => Some(O.Dev)
    case Accepting => Some(O.Acceptance)
    case Integrating => Some(O.Integrating)
    case Publishing => Some(O.Publishing)
    case _ => None
  }

  /** What the scan is shown of a task: nothing unless its active job is known and still leased. */
  function ScanEntry(w: World, t: TaskId): Option<O.JobInfo> {
    if t !in w.tasks || ScannedStage(w.tasks[t].state).None? || w.tasks[t].activeJob.None? then None
    else
      var task, j := w.tasks[t], w.tasks[t].activeJob.value;
      if j !in w.jobs || j !in w.leases then None
      else
        var stage := w.jobs[j].stage;
        Some(O.JobInfo(j, t, ScannedStage(task.state).value, w.leases[j].expiresAt, Some(w.leases[j].lastHeartbeatAt),
                       if stage in task.retryCounts then task.retryCounts[stage] else 0))
  }

  predicate Flagged(w: World, scan: O.Config, now: int, t: TaskId) {
    ScanEntry(w, t).Some? && O.Treat(scan, now, ScanEntry(w, t).value).Some?
  }

  predicate BlockedByScan(w: World, scan: O.Config, now: int, t: TaskId) {
    Flagged(w, scan, now, t) && O.Treat(scan, now, ScanEntry(w, t).value).value.decision.Block?
  }

  /** A transition and an update, each one version on. */
  function OrphanBlocked(task: Task): Task {
    task.(state := Blocked, version := task.version + 2)
  }

  /** A scan blocks the orphans that are not to be retried. To retry one it asks for a dispatch of its
      own, which is a separate event and, coming from an active state, refused. */
  function Scan(w: World, scan: O.Config, now: int): World {
    w.(tasks := map t | t in w.tasks :: if BlockedByScan(w, scan, now, t) then OrphanBlocked(w.tasks[t]) else w.tasks[t])
  }
}
