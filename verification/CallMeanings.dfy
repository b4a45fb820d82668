/** What one report, one dispatch, one heartbeat and one scan answer and leave behind, field by field. */
module CallMeanings {
  import opened Prelude
  import opened TaskStates
  import opened JobControl
  import opened ReportFields
  import opened JobRuns
  import L = Leases
  import C = Concurrency
  import D = DoomLoop
  import O = Orphans
  import R = Retry

  // ---------------------------------------------------------------- reports

  /** The handling is the one the report's fields call for. */
  lemma HandledByFields(w: World, cfg: Config, t: TaskId, r: Result)
    requires StillCurrent(w, t, r)
    ensures var job := w.jobs[r.job];
            var h := Handle(w, cfg, t, job, r);
      && Target(h, job.stage, r.verdict) == StateWanted(w, cfg, t, r)
      && (CountsRetry(h) <==> RetryGranted(w, cfg, t, r).Some?)
      && (CountsRetry(h) ==> RetryFrom(w, t, job.stage, r, h) == RetryGranted(w, cfg, t, r).value)
      && (h.Rework? <==> SentBack(w, cfg, t, r))
      && (h.GateBlock? <==> !Malformed(r) && r.gateBlocks)
      && (h.Failover? <==> FailsOver(w, cfg, r))
      && (h.Failover? ==> h.next == if job.worker == "codex" then "claude_code" else "google_antigravity")
      && (FreesSlot(h) <==> Finishes(w, cfg, t, r))
      && (FreesLease(h) <==> !Says(r, ReportBlocked))
  {}

  /** How a report is answered. One that passes the guards is refused exactly where the state machine
      does not allow the move it asks for. */
  lemma ReportAnswered(w: World, cfg: Config, t: TaskId, r: Result, random: real)
    ensures var o := OutcomeOf(w, cfg, t, r, random);
      && (o.NotFound? <==> t !in w.tasks || (w.tasks[t].activeJob == Some(r.job) && r.refMatches && r.job !in w.jobs))
      && (o.Ignored? <==> t in w.tasks && w.tasks[t].activeJob != Some(r.job))
      && (o.Mismatch? <==> t in w.tasks && w.tasks[t].activeJob == Some(r.job) && !r.refMatches)
      && (o.Applied? || o.Refused? <==> StillCurrent(w, t, r))
      && (StillCurrent(w, t, r) ==>
            var wanted := StateWanted(w, cfg, t, r);
            o.Refused? <==> wanted.Some? && !CanTransition(w.tasks[t].state, wanted.value))
  {
    if StillCurrent(w, t, r) {
      HandledByFields(w, cfg, t, r);
    }
  }

  /** What an applied report makes of its task. */
  function TaskAfter(task: Task, s: Stage, r: Result, wanted: Option<TaskState>, sentBack: bool): Task {
    Task(wanted.GetOr(task.state),
         task.version + (if wanted.Some? then 2 else 1),
         task.activeJob,
         if sentBack then Some(ReworkContext(s, ReworksSoFar(task, s) + 1)) else task.rework,
         if r.retryCount.Some? && !Malformed(r) && !r.gateBlocks then task.retryCounts[s := r.retryCount.value]
         else task.retryCounts)
  }

  /** An applied report changes its own task, and no other. */
  lemma ReportMoves(w: World, cfg: Config, t: TaskId, r: Result, random: real)
    ensures var o := OutcomeOf(w, cfg, t, r, random);
            var after := ApplyResult(w, cfg, t, r, random);
      after.tasks == if !o.Applied? then w.tasks else
        w.tasks[t := TaskAfter(w.tasks[t], w.jobs[r.job].stage, r, StateWanted(w, cfg, t, r), SentBack(w, cfg, t, r))]
  {
    if StillCurrent(w, t, r) {
      HandledByFields(w, cfg, t, r);
    }
  }

  /** A retry granted is counted even where the move is then refused; it waits its backoff, and nothing
      else waits. */
  lemma ReportCounts(w: World, cfg: Config, t: TaskId, r: Result, random: real)
    ensures var o := OutcomeOf(w, cfg, t, r, random);
            var after := ApplyResult(w, cfg, t, r, random);
      if !StillCurrent(w, t, r) then after == w
      else
        var job, granted := w.jobs[r.job], RetryGranted(w, cfg, t, r);
        var policy := if job.policy.Some? then job.policy.value else R.Policy(RetryLimit(job), 2.0, 60.0, true);
        && after.tracker == (if granted.Some? then w.tracker[(t, job.stage) := granted.value + 1] else w.tracker)
        && after.jobs == w.jobs && after.visits == w.visits
        && (o.Applied? ==> o.delay == if granted.Some? then R.CalculateBackoff(granted.value, policy, random) else 0.0)
  {
    if StillCurrent(w, t, r) {
      HandledByFields(w, cfg, t, r);
    }
  }

  /** A job keeps its slot through every applied report but one that is malformed and not retried,
      gate-blocked or a success, or a valid failure that neither loops, fails over nor is retried. */
  lemma SlotFreedIff(w: World, cfg: Config, e: Event)
    requires Consistent(w, cfg) && e.op.Report? && ReportOutcome(w, cfg, e).Applied?
    requires e.op.result.job in w.slots.active
    ensures e.op.result.job !in Step(w, cfg, e).slots.active <==> Finishes(w, cfg, e.op.task, e.op.result)
    ensures forall j | j in w.slots.active && j != e.op.result.job :: j in Step(w, cfg, e).slots.active
  {
    StepOnJob(w, cfg, e, e.op.result.job);
    forall j | j in w.slots.active && j != e.op.result.job ensures j in Step(w, cfg, e).slots.active {
      StepOnJob(w, cfg, e, j);
    }
  }

  /** It loses its lease by any applied report but one in which the worker says it is blocked, and by a
      failover even where the move is refused. */
  lemma LeaseFreedIff(w: World, cfg: Config, e: Event)
    requires Consistent(w, cfg) && e.op.Report? && StillCurrent(w, e.op.task, e.op.result)
    requires e.op.result.job in w.leases
    ensures e.op.result.job !in Step(w, cfg, e).leases <==>
      if ReportOutcome(w, cfg, e).Applied? then !Says(e.op.result, ReportBlocked) else FailsOver(w, cfg, e.op.result)
    ensures forall j | j in w.leases && j != e.op.result.job :: j in Step(w, cfg, e).leases
  {
    StepOnJob(w, cfg, e, e.op.result.job);
    ReportAnswered(w, cfg, e.op.task, e.op.result, e.op.random);
    forall j | j in w.leases && j != e.op.result.job ensures j in Step(w, cfg, e).leases {
      StepOnJob(w, cfg, e, j);
    }
  }

  /** Whatever is left of slots and leases is as it was. */
  lemma RestIsKept(w: World, cfg: Config, e: Event)
    requires e.op.Report?
    ensures forall j | j in Step(w, cfg, e).slots.active :: j in w.slots.active && Step(w, cfg, e).slots.active[j] == w.slots.active[j]
    ensures forall j | j in Step(w, cfg, e).leases :: j in w.leases && Step(w, cfg, e).leases[j] == w.leases[j]
  {
    assert Step(w, cfg, e) == Enact(w, e.op.task, e.op.result, ReportOutcome(w, cfg, e));
  }

  // ---------------------------------------------------------------- dispatches

  function SentToWorker(q: Request): Worker {
    if q.worker.Some? then q.worker.value
    else match q.stage case Plan => "codex" case Dev => "codex" case Acceptance => "claude_code"
  }

  /** A dispatch is admitted exactly when the task waits for that stage, the worker is capable and has a
      slot, all together have one, and nobody else holds the job's lease. */
  lemma DispatchAnswered(w: World, cfg: Config, t: TaskId, q: Request, now: int)
    ensures var v := SentToWorker(q);
            var waits := t in w.tasks && DispatchStage(w.tasks[t].state) == Some(q.stage);
            var room := |w.slots.active| < cfg.slots.maxGlobal && |w.slots.Of(v)| < cfg.slots.maxPerWorker;
            var free := q.job in w.leases ==> now >= w.leases[q.job].expiresAt || w.leases[q.job].owner == v;
            var o := DispatchOutcomeOf(w, cfg, t, q, now);
      && (o.TaskNotFound? <==> t !in w.tasks)
      && (o.WrongState? <==> t in w.tasks && !waits)
      && (o.Incapable? <==> waits && !q.capable)
      && (o.NoCapacity? <==> waits && q.capable && !room)
      && (o.LeaseRefused? <==> waits && q.capable && room && !free)
      && (o.Admitted? ==> o.submission == q.submission)
  {}

  /** A refused dispatch changes nothing, except that an incapable worker blocks the task. */
  lemma RefusedChangesNothing(w: World, cfg: Config, t: TaskId, q: Request, now: int)
    requires !DispatchOutcomeOf(w, cfg, t, q, now).Admitted?
    ensures Dispatch(w, cfg, t, q, now) ==
      if DispatchOutcomeOf(w, cfg, t, q, now).Incapable?
      then w.(tasks := w.tasks[t := w.tasks[t].(state := Blocked, version := w.tasks[t].version + 1)]) else w
  {}

  /** What the hand-over makes of the task. */
  function TaskSent(task: Task, q: Request): Task {
    if q.submission.SubmissionFailed? then task
    else if q.submission.BackendUnavailable? then task.(state := Blocked, version := task.version + 1)
    else task.(state := (match q.stage case Plan => Planning case Dev => Developing case Acceptance => Accepting),
               version := task.version + 1, activeJob := Some(q.job))
  }

  /** An admitted one takes the lease and a slot of the worker, and records the job under the default policy
      of its stage with its one transition; whether it was handed over shows in the task alone. */
  lemma AdmittedTakes(w: World, cfg: Config, t: TaskId, q: Request, now: int)
    requires DispatchOutcomeOf(w, cfg, t, q, now).Admitted?
    ensures var v, name := SentToWorker(q), (match q.stage case Plan => "plan" case Dev => "dev" case Acceptance => "acceptance");
            var retries := match q.stage case Plan => 2 case Dev => 3 case Acceptance => 1;
            var after := Dispatch(w, cfg, t, q, now);
      && after.tasks == w.tasks[t := TaskSent(w.tasks[t], q)]
      && after.jobs == w.jobs[q.job := Job(t, q.stage, v, Some(R.Policy(retries, 2.0, 60.0, true)))]
      && after.leases == w.leases[q.job := L.Lease(v, now + cfg.leaseMs, now, now, None)]
      && after.slots.active == w.slots.active[q.job := C.JobRecord(v, name, now)]
      && after.tracker == w.tracker
  {}

  lemma AdmittedCounts(w: World, cfg: Config, t: TaskId, q: Request, now: int, u: Worker)
    requires DispatchOutcomeOf(w, cfg, t, q, now).Admitted?
    ensures Dispatch(w, cfg, t, q, now).slots.Of(u) == w.slots.Of(u) + if u == SentToWorker(q) then {q.job} else {}
  {}

  lemma AdmittedRecords(w: World, cfg: Config, t: TaskId, q: Request, now: int)
    requires DispatchOutcomeOf(w, cfg, t, q, now).Admitted?
    ensures var before := if q.job in w.visits then w.visits[q.job] else [];
      Dispatch(w, cfg, t, q, now).visits ==
        w.visits[q.job := before + [D.Transition(Label(w.tasks[t].state), Label(ActiveState(q.stage)))]]
  {}

  // ---------------------------------------------------------------- heartbeats

  /** A heartbeat renews the lease of a known job exactly if it comes from its owner and no orphan mark is
      on it; nothing else changes. */
  lemma HeartbeatRenews(w: World, cfg: Config, j: JobId, v: Worker, now: int)
    ensures var heard := j in w.jobs && j in w.leases && w.leases[j].owner == v && w.leases[j].orphanedAt.None?;
      Heartbeat(w, cfg, j, v, now) ==
        if heard then w.(leases := w.leases[j := w.leases[j].(expiresAt := now + cfg.leaseMs, lastHeartbeatAt := now)]) else w
  {}

  // ---------------------------------------------------------------- scans

  /** The task is at work on a known and leased job, which has been silent too long. */
  predicate Silent(w: World, scan: O.Config, now: int, t: TaskId) {
    && t in w.tasks && w.tasks[t].state in {Planning, Developing, Accepting, Integrating, Publishing}
    && w.tasks[t].activeJob.Some?
    && var j := w.tasks[t].activeJob.value;
       j in w.jobs && j in w.leases
       && (now > w.leases[j].expiresAt || now - w.leases[j].lastHeartbeatAt > 5000 * scan.heartbeatIntervalSeconds)
  }

  /** The retries recorded for the stage of its job. */
  function Recorded(w: World, t: TaskId): int
    requires t in w.tasks && w.tasks[t].activeJob.Some? && w.tasks[t].activeJob.value in w.jobs
  {
    var s := w.jobs[w.tasks[t].activeJob.value].stage;
    if s in w.tasks[t].retryCounts then w.tasks[t].retryCounts[s] else 0
  }

  /** A scan changes exactly the silent tasks that are past development, or whose recorded retries have
      reached two for planning, three for developing, or the configured number. It blocks them, two
      versions on. */
  lemma ScanBlocksIff(w: World, scan: O.Config, now: int, t: TaskId)
    requires t in w.tasks
    ensures var task, after := w.tasks[t], Scan(w, scan, now);
            var blocked := Silent(w, scan, now, t) &&
              (task.state in {Accepting, Integrating, Publishing}
               || Recorded(w, t) >= scan.maxRecoveryAttempts || Recorded(w, t) >= if task.state == Planning then 2 else 3);
      && after == w.(tasks := after.tasks) && after.tasks.Keys == w.tasks.Keys
      && after.tasks[t] == if blocked then task.(state := Blocked, version := task.version + 2) else task
  {}

  lemma FlaggedIff(w: World, scan: O.Config, now: int, t: TaskId)
    ensures Flagged(w, scan, now, t) <==> Silent(w, scan, now, t)
  {}
}
