/** What a worker's report says and what becomes of it, told by its own fields and by what the task and
    its job have left: the reference JobControl's handling is measured against. */
module ReportFields {
  import opened Prelude
  import opened TaskStates
  import opened JobControl
  import D = DoomLoop
  import R = Retry

  /** The report passes the guards: it is on the task's active job, under the right reference, and the
      job is known. */
  predicate StillCurrent(w: World, t: TaskId, r: Result) {
    t in w.tasks && w.tasks[t].activeJob == Some(r.job) && r.refMatches && r.job in w.jobs
  }

  // ---------------------------------------------------------------- what the report says

  predicate Names(r: Result, code: ErrorCode) {
    exists i :: 0 <= i < |r.errors| && r.errors[i].code == code
  }

  predicate Points(r: Result, path: string) {
    exists i :: 0 <= i < |r.errors| && r.errors[i].path == path
  }

  predicate Malformed(r: Result) {
    r.errors != []
  }

  predicate AgainstPolicy(r: Result) {
    Names(r, PolicyViolation) || Names(r, AuthorityConflict)
  }

  /** The report is well-formed, no gate stops it, and it says this. */
  predicate Says(r: Result, status: Status) {
    r.errors == [] && !r.gateBlocks && r.status == status
  }

  // ---------------------------------------------------------------- what is left

  function RetryLimit(job: Job): int {
    if job.policy.Some? then job.policy.value.maxRetries
    else match job.stage case Plan => 2 case Dev => 3 case Acceptance => 1
  }

  /** A count the report brings along stands in for the one tracked. */
  function CountSoFar(w: World, t: TaskId, s: Stage, r: Result): int {
    if r.retryCount.Some? then r.retryCount.value else if (t, s) in w.tracker then w.tracker[(t, s)] else 0
  }

  function ReworksSoFar(task: Task, s: Stage): int {
    match task.rework
    case Some(context) => if context.stage == s then context.attempt else 0
    case None => 0
  }

  predicate HasSuccessor(job: Job) {
    job.stage.Plan? && (job.worker == "codex" || job.worker == "claude_code")
  }

  ghost predicate GoesInCircles(w: World, cfg: Config, j: JobId) {
    && j in w.visits
    && (D.Repeats(w.visits[j], cfg.maxRepeats) || D.Oscillates(w.visits[j]) || D.ReturnsToStart(w.visits[j]))
  }

  // ---------------------------------------------------------------- what becomes of it

  /** A malformed report is asked for again. */
  predicate RetriedMalformed(w: World, t: TaskId, r: Result)
    requires r.job in w.jobs
  {
    var job := w.jobs[r.job];
    && !AgainstPolicy(r) && (Names(r, SchemaError) || Names(r, ParseError))
    && (if (t, job.stage) in w.tracker then w.tracker[(t, job.stage)] else 0) < RetryLimit(job)
  }

  ghost predicate FailsOver(w: World, cfg: Config, r: Result)
    requires r.job in w.jobs
  {
    Says(r, ReportFailed) && !GoesInCircles(w, cfg, r.job) && HasSuccessor(w.jobs[r.job])
  }

  ghost predicate RetriedFailure(w: World, cfg: Config, t: TaskId, r: Result)
    requires r.job in w.jobs
  {
    var job := w.jobs[r.job];
    && Says(r, ReportFailed) && !GoesInCircles(w, cfg, r.job) && !HasSuccessor(job)
    && (r.failure.RetryableTransient? || r.failure.RetryableCapacity?)
    && CountSoFar(w, t, job.stage, r) < RetryLimit(job)
  }

  ghost predicate FinalFailure(w: World, cfg: Config, t: TaskId, r: Result)
    requires r.job in w.jobs
  {
    && Says(r, ReportFailed) && !GoesInCircles(w, cfg, r.job)
    && !FailsOver(w, cfg, r) && !RetriedFailure(w, cfg, t, r)
  }

  /** The job is over: a malformed report that is not retried, a gate block, a success, or a failure that
      neither loops, fails over nor is retried. */
  ghost predicate Finishes(w: World, cfg: Config, t: TaskId, r: Result)
    requires r.job in w.jobs
  {
    || (Malformed(r) && !RetriedMalformed(w, t, r))
    || (!Malformed(r) && r.gateBlocks)
    || Says(r, ReportSucceeded)
    || FinalFailure(w, cfg, t, r)
  }

  /** The state the report moves its task to; None leaves it where it is. */
  ghost function StateWanted(w: World, cfg: Config, t: TaskId, r: Result): Option<TaskState>
    requires t in w.tasks && r.job in w.jobs
  {
    var s := w.jobs[r.job].stage;
    if Malformed(r) then
      if RetriedMalformed(w, t, r) then Some(ActiveState(s))
      else if AgainstPolicy(r) || (s == Acceptance && (Points(r, "evidence") || Points(r, "verdict.outcome"))) then Some(Blocked)
      else Some(ReworkRequired)
    else if r.gateBlocks || r.status.ReportBlocked? then Some(Blocked)
    else if r.status.ReportSucceeded? then
      match s
      case Plan => Some(Planned)
      case Dev => Some(DevCompleted)
      case Acceptance => if r.verdict in {Some(Reject), Some(ReworkVerdict)} then Some(ReworkRequired) else None
    else if GoesInCircles(w, cfg, r.job) then Some(Blocked)
    else if FailsOver(w, cfg, r) || RetriedFailure(w, cfg, t, r) then Some(ActiveState(s))
    else if ReworksSoFar(w.tasks[t], s) >= 2 then Some(Blocked)
    else Some(ReworkRequired)
  }

  /** Sent back for rework after a final failure, with an attempt counted. */
  ghost predicate SentBack(w: World, cfg: Config, t: TaskId, r: Result)
    requires t in w.tasks && r.job in w.jobs
  {
    FinalFailure(w, cfg, t, r) && ReworksSoFar(w.tasks[t], w.jobs[r.job].stage) < 2
  }

  /** The number of the retry this report is granted, if it is granted one. */
  ghost function RetryGranted(w: World, cfg: Config, t: TaskId, r: Result): Option<int>
    requires r.job in w.jobs
  {
    var s := w.jobs[r.job].stage;
    if Malformed(r) && RetriedMalformed(w, t, r) then Some(if (t, s) in w.tracker then w.tracker[(t, s)] else 0)
    else if RetriedFailure(w, cfg, t, r) then Some(CountSoFar(w, t, s, r))
    else None
  }
}
