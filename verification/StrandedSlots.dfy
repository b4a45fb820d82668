/** Which slots can still be given back, and when a worker can still be sent work. Slots are taken in
    src/domain/dispatch/dispatch-orchestrator.ts, given back in src/domain/result/result-orchestrator.ts,
    and left behind where src/store/services/job-service.ts fails to hand the job over. */
module StrandedSlots {
  import opened Prelude
  import opened TaskStates
  import opened JobControl
  import opened JobRuns
  import opened BoundedFailure
  import opened JobOwnership
  import opened Witnesses
  import L = Leases
  import C = Concurrency
  import O = Orphans
  import R = Retry

  // ---------------------------------------------------------------- jobs their task points to

  /** The job is its task's active job. */
  predicate Claimed(w: World, j: JobId) {
    j in w.jobs && w.jobs[j].task in w.tasks && w.tasks[w.jobs[j].task].activeJob == Some(j)
  }

  /** A task is at work on its active job, or blocked; once the job has given its slot back, the task
      may also be waiting for its next dispatch. */
  predicate StateFits(state: TaskState, stage: Stage, occupied: bool) {
    state == ActiveState(stage) || state == Blocked || (!occupied && DispatchStage(state).Some?)
  }

  ghost predicate StatesFit(w: World) {
    forall t :: t in w.tasks && w.tasks[t].activeJob.Some? && w.tasks[t].activeJob.value in w.jobs ==>
      StateFits(w.tasks[t].state, w.jobs[w.tasks[t].activeJob.value].stage, w.tasks[t].activeJob.value in w.slots.active)
  }

  /** What every world of a run is. */
  ghost predicate Sound(w: World, cfg: Config) {
    Consistent(w, cfg) && StatesFit(w)
  }

  lemma DispatchKeepsStates(w: World, cfg: Config, t: TaskId, q: Request, now: int)
    requires Sound(w, cfg) && q.job !in w.jobs
    ensures StatesFit(Dispatch(w, cfg, t, q, now))
  {}

  lemma EnactKeepsStates(w: World, cfg: Config, t: TaskId, r: Result, o: Outcome)
    requires Sound(w, cfg) && Possible(w, t, r, o)
    requires o.Applied? && Target(o.handling, w.jobs[r.job].stage, r.verdict).None? ==> o.handling.Success?
    ensures StatesFit(Enact(w, t, r, o))
  {}

  lemma ScanKeepsStates(w: World, scan: O.Config, now: int)
    requires StatesFit(w)
    ensures StatesFit(Scan(w, scan, now))
  {}

  lemma StepKeepsSound(w: World, cfg: Config, e: Event)
    requires Sound(w, cfg) && (e.op.DispatchJob? ==> e.op.request.job !in w.jobs)
    ensures Sound(Step(w, cfg, e), cfg)
  {
    StepKeepsConsistent(w, cfg, e);
    match e.op
    case DispatchJob(t, q) => DispatchKeepsStates(w, cfg, t, q, e.now);
    case Report(t, r, random) => EnactKeepsStates(w, cfg, t, r, ReportOutcome(w, cfg, e));
    case Beat(_, _) =>
    case OrphanScan(scan) => ScanKeepsStates(w, scan, e.now);
  }

  ghost predicate SoundAt(w: World, cfg: Config, run: Run, n: nat)
    requires n <= |run|
  {
    Sound(After(w, cfg, run, n), cfg)
  }

  lemma NextStaysSound(w: World, cfg: Config, run: Run, n: nat)
    requires n < |run| && Start(w) && FreshIds(run) && SoundAt(w, cfg, run, n)
    ensures SoundAt(w, cfg, run, n + 1)
  {
    RunStaysConsistent(w, cfg, run, n);
    DrawsFreshId(w, cfg, run, n);
    StepKeepsSound(After(w, cfg, run, n), cfg, run[n]);
  }

  lemma RunStaysSound(w: World, cfg: Config, run: Run, n: nat)
    requires n <= |run| && Start(w) && FreshIds(run)
    ensures SoundAt(w, cfg, run, n)
  {
    StartIsConsistent(w, cfg);
    var m := 0;
    while m < n
      invariant m <= n && SoundAt(w, cfg, run, m)
    {
      NextStaysSound(w, cfg, run, m);
      m := m + 1;
    }
  }

  // ---------------------------------------------------------------- which slots can be given back

  /** A report that the run-system gate blocks. */
  function GateBlocked(w: World, j: JobId): Event
    requires j in w.jobs
  {
    At(0, Report(w.jobs[j].task, Result(j, true, [], true, ReportBlocked, R.NonRetryableLogic, None, None), 0.0))
  }

  lemma GateEnds(w: World, cfg: Config, j: JobId)
    requires Sound(w, cfg) && j in w.slots.active && Claimed(w, j)
    ensures EndsNow(w, cfg, GateBlocked(w, j), j)
  {}

  lemma OnlyClaimedEnd(w: World, cfg: Config, e: Event, j: JobId)
    requires Consistent(w, cfg) && EndsNow(w, cfg, e, j)
    ensures Claimed(w, j)
  {}

  /** Some event gives the job's slot back. */
  ghost predicate Endable(w: World, cfg: Config, j: JobId) {
    exists e :: EndsNow(w, cfg, e, j)
  }

  /** An occupied slot can be given back exactly when its job is its task's active job, and then at
      once. */
  lemma EndableIff(w: World, cfg: Config, j: JobId)
    requires Sound(w, cfg) && j in w.slots.active
    ensures Endable(w, cfg, j) <==> Claimed(w, j)
  {
    if Claimed(w, j) {
      GateEnds(w, cfg, j);
    }
    forall e | EndsNow(w, cfg, e, j) ensures Claimed(w, j) {
      OnlyClaimedEnd(w, cfg, e, j);
    }
  }

  lemma DispatchKeepsClaim(w: World, cfg: Config, t: TaskId, q: Request, now: int, j: JobId)
    requires Sound(w, cfg) && j in w.slots.active && q.job !in w.jobs
    ensures Claimed(Dispatch(w, cfg, t, q, now), j) <==> Claimed(w, j)
  {}

  /** No event changes whose slot it is while it is occupied. */
  lemma StepKeepsClaim(w: World, cfg: Config, e: Event, j: JobId)
    requires Sound(w, cfg) && j in w.slots.active && (e.op.DispatchJob? ==> e.op.request.job !in w.jobs)
    ensures Claimed(Step(w, cfg, e), j) <==> Claimed(w, j)
  {
    match e.op
    case DispatchJob(t, q) => DispatchKeepsClaim(w, cfg, t, q, e.now, j);
    case Report(t, r, _) => assert Step(w, cfg, e) == Enact(w, t, r, ReportOutcome(w, cfg, e));
    case Beat(_, _) =>
    case OrphanScan(_) =>
  }

  lemma DispatchClaims(w: World, cfg: Config, e: Event, j: JobId)
    requires Consistent(w, cfg) && j !in w.jobs && DispatchesNow(w, cfg, e, j)
    ensures Claimed(Step(w, cfg, e), j) <==> e.op.request.submission.Submitted?
  {}

  ghost predicate ClaimedAt(w: World, cfg: Config, run: Run, n: nat, j: JobId)
    requires n <= |run|
  {
    Claimed(After(w, cfg, run, n), j)
  }

  lemma FirstClaim(w: World, cfg: Config, run: Run, i: nat, j: JobId)
    requires i < |run| && Start(w) && FreshIds(run) && Dispatches(w, cfg, run, i, j)
    ensures ClaimedAt(w, cfg, run, i + 1, j) <==> run[i].op.request.submission.Submitted?
  {
    RunStaysConsistent(w, cfg, run, i);
    EventOnJob(w, cfg, run, i, j);
    DispatchClaims(After(w, cfg, run, i), cfg, run[i], j);
  }

  lemma ClaimKept(w: World, cfg: Config, run: Run, n: nat, j: JobId)
    requires n < |run| && Start(w) && FreshIds(run) && Occupied(w, cfg, run, n, j)
    ensures ClaimedAt(w, cfg, run, n + 1, j) <==> ClaimedAt(w, cfg, run, n, j)
  {
    RunStaysSound(w, cfg, run, n);
    RunStaysConsistent(w, cfg, run, n);
    DrawsFreshId(w, cfg, run, n);
    StepKeepsClaim(After(w, cfg, run, n), cfg, run[n], j);
  }

  lemma OccupiedBefore(w: World, cfg: Config, run: Run, i: nat, n: nat, j: JobId)
    requires i < n < |run| && Start(w) && FreshIds(run)
    requires Dispatches(w, cfg, run, i, j) && Occupied(w, cfg, run, n + 1, j)
    ensures Occupied(w, cfg, run, n, j)
  {
    EventOnJob(w, cfg, run, n, j);
    DispatchedSince(w, cfg, run, i, n, j);
  }

  lemma {:induction false} ClaimedIffSubmitted(w: World, cfg: Config, run: Run, i: nat, n: nat, j: JobId)
    requires i < n <= |run| && Start(w) && FreshIds(run)
    requires Dispatches(w, cfg, run, i, j) && Occupied(w, cfg, run, n, j)
    ensures ClaimedAt(w, cfg, run, n, j) <==> run[i].op.request.submission.Submitted?
  {
    if n == i + 1 {
      FirstClaim(w, cfg, run, i, j);
    } else {
      OccupiedBefore(w, cfg, run, i, n - 1, j);
      ClaimedIffSubmitted(w, cfg, run, i, n - 1, j);
      ClaimKept(w, cfg, run, n - 1, j);
    }
  }

  lemma {:induction false} DispatchedSince(w: World, cfg: Config, run: Run, i: nat, n: nat, j: JobId)
    requires i < n <= |run| && Dispatches(w, cfg, run, i, j)
    ensures WasDispatched(w, cfg, run, n, j)
  {
    if n > i + 1 {
      DispatchedSince(w, cfg, run, i, n - 1, j);
    }
  }

  /** In every run, while a job occupies its slot some report can give it back exactly if the job was
      handed to its worker; a slot taken for any other job is never given back. */
  lemma GivenBackIffSubmitted(w: World, cfg: Config, run: Run, i: nat, n: nat, j: JobId)
    requires i < n <= |run| && Start(w) && FreshIds(run)
    requires Dispatches(w, cfg, run, i, j) && Occupied(w, cfg, run, n, j)
    ensures Endable(After(w, cfg, run, n), cfg, j) <==> run[i].op.request.submission.Submitted?
  {
    RunStaysSound(w, cfg, run, n);
    ClaimedIffSubmitted(w, cfg, run, i, n, j);
    EndableIff(After(w, cfg, run, n), cfg, j);
  }

  // ---------------------------------------------------------------- the stranded jobs of a world

  /** The occupied slots nothing gives back, all of them and those of one worker. */
  function StrandedJobs(w: World): set<JobId> {
    set j | j in w.slots.active && !Claimed(w, j)
  }

  function StrandedAt(w: World, v: Worker): set<JobId> {
    set j | j in StrandedJobs(w) && w.slots.active[j].worker == v
  }

  lemma StrandedMeans(w: World, cfg: Config, j: JobId, v: Worker)
    requires Consistent(w, cfg)
    ensures j in StrandedAt(w, v) <==> Stranded(w, j, v)
  {
    if j in w.slots.active && Claimed(w, j) {
      assert w.tasks[w.jobs[j].task].activeJob == Some(j);
    }
  }

  /** What is stranded in `a` is stranded in `b`, at the same worker. */
  ghost predicate StaysStranded(a: World, b: World) {
    forall j :: j in StrandedJobs(a) ==> j in StrandedJobs(b) && b.slots.active[j].worker == a.slots.active[j].worker
  }

  lemma OneStaysStranded(w: World, cfg: Config, e: Event, j: JobId)
    requires Sound(w, cfg) && (e.op.DispatchJob? ==> e.op.request.job !in w.jobs) && j in StrandedJobs(w)
    ensures j in StrandedAt(Step(w, cfg, e), w.slots.active[j].worker)
  {
    var v := w.slots.active[j].worker;
    StepKeepsSound(w, cfg, e);
    StrandedMeans(w, cfg, j, v);
    StepLeavesStranded(w, cfg, e, j, v);
    StrandedMeans(Step(w, cfg, e), cfg, j, v);
  }

  lemma StepKeepsStranded(w: World, cfg: Config, e: Event)
    requires Sound(w, cfg) && (e.op.DispatchJob? ==> e.op.request.job !in w.jobs)
    ensures StaysStranded(w, Step(w, cfg, e))
  {
    forall j | j in StrandedJobs(w)
      ensures j in StrandedJobs(Step(w, cfg, e)) && Step(w, cfg, e).slots.active[j].worker == w.slots.active[j].worker
    {
      OneStaysStranded(w, cfg, e, j);
    }
  }

  /** `v` has a slot that is not stranded, and so does the pool of all workers. */
  predicate Roomy(w: World, cfg: Config, v: Worker) {
    |StrandedAt(w, v)| < cfg.slots.maxPerWorker && |StrandedJobs(w)| < cfg.slots.maxGlobal
  }

  lemma OnlyRoomyAdmits(w: World, cfg: Config, v: Worker)
    requires Consistent(w, cfg) && w.slots.CanAccept(cfg.slots, v).None?
    ensures Roomy(w, cfg, v)
  {
    forall j | j in StrandedAt(w, v) ensures j in w.slots.Of(v) {}
    MoreThan(StrandedAt(w, v), w.slots.Of(v));
    MoreThan(StrandedJobs(w), w.slots.active.Keys);
  }

  lemma RoomyAdmits(w: World, cfg: Config, v: Worker)
    requires Consistent(w, cfg) && Roomy(w, cfg, v) && StrandedJobs(w) == w.slots.active.Keys
    ensures w.slots.CanAccept(cfg.slots, v).None?
  {
    forall j ensures j in StrandedAt(w, v) <==> j in w.slots.Of(v) {}
    assert StrandedAt(w, v) == w.slots.Of(v);
    assert |w.slots.active.Keys| == |w.slots.active|;
  }

  lemma RoomyBefore(a: World, b: World, cfg: Config, v: Worker)
    requires StaysStranded(a, b) && Roomy(b, cfg, v)
    ensures Roomy(a, cfg, v)
  {
    MoreThan(StrandedAt(a, v), StrandedAt(b, v));
    MoreThan(StrandedJobs(a), StrandedJobs(b));
  }

  /** A job can be dispatched one day only if some task may be dispatched, or still has a job. */
  predicate HasWork(w: World) {
    exists t :: t in w.tasks && (DispatchStage(w.tasks[t].state).Some? || w.tasks[t].activeJob.Some?)
  }

  lemma NoWorkNoChange(w: World, cfg: Config, e: Event)
    requires !HasWork(w)
    ensures Step(w, cfg, e).tasks == w.tasks
  {
    match e.op
    case DispatchJob(t, q) => NoWorkNoDispatch(w, cfg, t, q, e.now);
    case Report(t, r, _) => NoWorkNoReport(w, cfg, t, r, e.op.random);
    case Beat(_, _) =>
    case OrphanScan(scan) => assert Scan(w, scan, e.now).tasks == w.tasks;
  }

  lemma NoWorkNoDispatch(w: World, cfg: Config, t: TaskId, q: Request, now: int)
    requires !HasWork(w)
    ensures Dispatch(w, cfg, t, q, now) == w
  {}

  lemma NoWorkNoReport(w: World, cfg: Config, t: TaskId, r: Result, random: real)
    requires !HasWork(w)
    ensures ApplyResult(w, cfg, t, r, random) == w
  {}

  // ---------------------------------------------------------------- worlds after more reports

  /** `b` comes of `a` by reports alone: the same jobs and active jobs, and no slot newly taken. */
  ghost predicate Later(a: World, b: World, cfg: Config) {
    && Sound(b, cfg) && b.jobs == a.jobs && b.tasks.Keys == a.tasks.Keys
    && (forall t :: t in a.tasks ==> b.tasks[t].activeJob == a.tasks[t].activeJob)
    && (forall j :: j in b.slots.active ==> j in a.slots.active && b.slots.active[j] == a.slots.active[j])
  }

  ghost predicate Reports(run: Run) {
    forall i :: 0 <= i < |run| ==> run[i].op.Report?
  }

  lemma ReportIsLater(w: World, cfg: Config, e: Event)
    requires Sound(w, cfg) && e.op.Report?
    ensures Later(w, Step(w, cfg, e), cfg)
  {
    StepKeepsSound(w, cfg, e);
    assert Step(w, cfg, e) == Enact(w, e.op.task, e.op.result, ReportOutcome(w, cfg, e));
  }

  lemma LaterIsTransitive(a: World, b: World, c: World, cfg: Config)
    requires Later(a, b, cfg) && Later(b, c, cfg)
    ensures Later(a, c, cfg)
  {}

  lemma NoneNewlyStranded(a: World, b: World, cfg: Config, v: Worker)
    requires Later(a, b, cfg) && Roomy(a, cfg, v)
    ensures Roomy(b, cfg, v)
  {
    MoreThan(StrandedJobs(b), StrandedJobs(a));
    MoreThan(StrandedAt(b, v), StrandedAt(a, v));
  }

  // ---------------------------------------------------------------- runs joined

  lemma {:induction false} FirstPart(w: World, cfg: Config, run: Run, more: Run, n: nat)
    requires n <= |run|
    ensures After(w, cfg, run + more, n) == After(w, cfg, run, n)
  {
    if n > 0 {
      FirstPart(w, cfg, run, more, n - 1);
      assert (run + more)[n - 1] == run[n - 1];
    }
  }

  lemma {:induction false} SecondPart(w: World, cfg: Config, run: Run, more: Run, n: nat)
    requires n <= |more|
    ensures After(w, cfg, run + more, |run| + n) == After(End(w, cfg, run), cfg, more, n)
  {
    if n == 0 {
      FirstPart(w, cfg, run, more, |run|);
    } else {
      SecondPart(w, cfg, run, more, n - 1);
      assert (run + more)[|run| + n - 1] == more[n - 1];
    }
  }

  lemma Joined(w: World, cfg: Config, run: Run, more: Run)
    ensures End(w, cfg, run + more) == End(End(w, cfg, run), cfg, more)
  {
    SecondPart(w, cfg, run, more, |more|);
  }

  /** `b` is reached from `a` by the reports `more`. */
  ghost predicate Reaches(a: World, cfg: Config, more: Run, b: World) {
    Reports(more) && End(a, cfg, more) == b && Later(a, b, cfg)
  }

  lemma NoReports(a: World, cfg: Config)
    requires Sound(a, cfg)
    ensures Reaches(a, cfg, [], a)
  {}

  lemma OneReport(a: World, cfg: Config, e: Event)
    requires Sound(a, cfg) && e.op.Report?
    ensures Reaches(a, cfg, [e], Step(a, cfg, e))
  {
    var run := [e];
    assert After(a, cfg, run, 1) == Step(After(a, cfg, run, 0), cfg, run[0]);
    ReportIsLater(a, cfg, e);
  }

  lemma MoreReports(a: World, b: World, c: World, cfg: Config, some: Run, more: Run)
    requires Reaches(a, cfg, some, b) && Reaches(b, cfg, more, c)
    ensures Reaches(a, cfg, some + more, c)
  {
    Joined(a, cfg, some, more);
    LaterIsTransitive(a, b, c, cfg);
  }

  // ---------------------------------------------------------------- giving back what can be given back

  predicate MayDispatch(w: World, t: TaskId) {
    t in w.tasks && DispatchStage(w.tasks[t].state).Some?
  }

  lemma GateGivesBack(w: World, cfg: Config, j: JobId, t: TaskId)
    requires Sound(w, cfg) && j in w.slots.active && Claimed(w, j) && MayDispatch(w, t)
    ensures var after := Step(w, cfg, GateBlocked(w, j));
      MayDispatch(after, t) && after.slots.active.Keys == w.slots.active.Keys - {j}
  {
    GateEnds(w, cfg, j);
    var e := GateBlocked(w, j);
    EnactFrees(w, e.op.task, e.op.result, ReportOutcome(w, cfg, e));
  }

  /** Gate-blocked reports give back every slot that can be, leaving `t` to be dispatched. */
  lemma {:induction false} Drains(w: World, cfg: Config, t: TaskId) returns (more: Run, after: World)
    requires Sound(w, cfg) && MayDispatch(w, t)
    ensures Reaches(w, cfg, more, after) && MayDispatch(after, t)
    ensures StrandedJobs(after) == after.slots.active.Keys
    decreases w.slots.active.Keys
  {
    if j :| j in w.slots.active && Claimed(w, j) {
      var e := GateBlocked(w, j);
      GateGivesBack(w, cfg, j, t);
      OneReport(w, cfg, e);
      more, after := Drains(Step(w, cfg, e), cfg, t);
      MoreReports(w, Step(w, cfg, e), after, cfg, [e], more);
      more := [e] + more;
    } else {
      more, after := [], w;
      NoReports(w, cfg);
    }
  }

  function Retried(w: World, j: JobId): Event
    requires j in w.jobs
  {
    At(0, Report(w.jobs[j].task, Witnesses.Failed(j, R.RetryableTransient, Some(0)), 0.0))
  }

  function Finished(w: World, j: JobId): Event
    requires j in w.jobs
  {
    At(0, Report(w.jobs[j].task, Succeeded(j).(verdict := Some(Reject)), 0.0))
  }

  lemma RetryUnblocks(w: World, cfg: Config, j: JobId)
    requires Sound(w, cfg) && Claimed(w, j) && w.tasks[w.jobs[j].task].state == Blocked
    ensures var after := Step(w, cfg, Retried(w, j));
      Claimed(after, j) && after.jobs == w.jobs && after.tasks[w.jobs[j].task].state == ActiveState(w.jobs[j].stage)
  {
    RetryApplies(w, cfg, j);
  }

  lemma RetryApplies(w: World, cfg: Config, j: JobId)
    requires Consistent(w, cfg) && Claimed(w, j) && w.tasks[w.jobs[j].task].state == Blocked
    ensures var o := ReportOutcome(w, cfg, Retried(w, j));
      o.Applied? && (o.handling.Retry? || o.handling.Failover?)
  {
    NeverLoops(w, cfg, j);
  }

  lemma FinishReadies(w: World, cfg: Config, j: JobId)
    requires Sound(w, cfg) && Claimed(w, j) && w.tasks[w.jobs[j].task].state == ActiveState(w.jobs[j].stage)
    ensures MayDispatch(Step(w, cfg, Finished(w, j)), w.jobs[j].task)
  {
    FinishApplies(w, cfg, j);
    EnactReadies(w, w.jobs[j].task, Finished(w, j).op.result, j);
  }

  lemma FinishApplies(w: World, cfg: Config, j: JobId)
    requires Claimed(w, j) && w.tasks[w.jobs[j].task].state == ActiveState(w.jobs[j].stage)
    ensures ReportOutcome(w, cfg, Finished(w, j)) == Applied(Success, 0.0)
  {}

  lemma EnactReadies(w: World, t: TaskId, r: Result, j: JobId)
    requires Claimed(w, j) && t == w.jobs[j].task && r == Succeeded(j).(verdict := Some(Reject))
    ensures MayDispatch(Enact(w, t, r, Applied(Success, 0.0)), t)
  {}

  /** However its job stands, two reports on it make a task dispatchable again. */
  lemma Revives(w: World, cfg: Config, t: TaskId) returns (more: Run, after: World)
    requires Sound(w, cfg) && t in w.tasks && w.tasks[t].activeJob.Some?
    ensures Reaches(w, cfg, more, after) && MayDispatch(after, t)
  {
    var j := w.tasks[t].activeJob.value;
    more, after := [], w;
    NoReports(w, cfg);
    if w.tasks[t].state == Blocked {
      RetryUnblocks(w, cfg, j);
      OneReport(w, cfg, Retried(w, j));
      more, after := [Retried(w, j)], Step(w, cfg, Retried(w, j));
    }
    if !MayDispatch(after, t) {
      FinishReadies(after, cfg, j);
      OneReport(after, cfg, Finished(after, j));
      MoreReports(w, after, Step(after, cfg, Finished(after, j)), cfg, more, [Finished(after, j)]);
      more, after := more + [Finished(after, j)], Step(after, cfg, Finished(after, j));
    }
  }

  // ---------------------------------------------------------------- when a worker can still be served

  ghost predicate StaysStrandedAt(w: World, cfg: Config, run: Run, i: nat, n: nat)
    requires i <= n <= |run|
  {
    && StaysStranded(After(w, cfg, run, i), After(w, cfg, run, n))
    && (HasWork(After(w, cfg, run, n)) ==> HasWork(After(w, cfg, run, i)))
  }

  lemma NextStaysStranded(w: World, cfg: Config, run: Run, i: nat, n: nat)
    requires i <= n < |run| && Start(w) && FreshIds(run) && StaysStrandedAt(w, cfg, run, i, n)
    ensures StaysStrandedAt(w, cfg, run, i, n + 1)
  {
    RunStaysSound(w, cfg, run, n);
    RunStaysConsistent(w, cfg, run, n);
    DrawsFreshId(w, cfg, run, n);
    StepKeepsStranded(After(w, cfg, run, n), cfg, run[n]);
    if !HasWork(After(w, cfg, run, n)) {
      NoWorkNoChange(After(w, cfg, run, n), cfg, run[n]);
    }
  }

  /** No event frees a stranded slot or brings a task without a job back to life. */
  lemma NothingComesBack(w: World, cfg: Config, run: Run, i: nat, n: nat)
    requires i <= n <= |run| && Start(w) && FreshIds(run)
    ensures StaysStrandedAt(w, cfg, run, i, n)
  {
    var m := i;
    while m < n
      invariant i <= m <= n && StaysStrandedAt(w, cfg, run, i, m)
    {
      NextStaysStranded(w, cfg, run, i, m);
      m := m + 1;
    }
  }

  ghost predicate AdmitsTo(w: World, cfg: Config, e: Event, v: Worker) {
    && e.op.DispatchJob? && WorkerFor(e.op.request) == v
    && DispatchOutcomeOf(w, cfg, e.op.task, e.op.request, e.now).Admitted?
  }

  /** After `more` events the next one, `d`, is dispatched to `v`. */
  ghost predicate Serves(w: World, cfg: Config, run: Run, more: Run, d: Event, v: Worker) {
    FreshIds(run + more + [d]) && AdmitsTo(End(w, cfg, run + more), cfg, d, v)
  }

  ghost predicate CanBeServed(w: World, cfg: Config, run: Run, v: Worker) {
    exists more: Run, d: Event :: Serves(w, cfg, run, more, d, v)
  }

  lemma AdmittedFrom(w: World, cfg: Config, e: Event, v: Worker)
    requires Consistent(w, cfg) && AdmitsTo(w, cfg, e, v)
    ensures HasWork(w) && Roomy(w, cfg, v)
  {
    OnlyRoomyAdmits(w, cfg, v);
    assert MayDispatch(w, e.op.task);
  }

  lemma FreshPrefix(run: Run, more: Run)
    requires FreshIds(run + more)
    ensures FreshIds(run)
  {
    assert forall i :: 0 <= i < |run| ==> (run + more)[i] == run[i];
  }

  lemma ServedHasRoom(w: World, cfg: Config, run: Run, more: Run, d: Event, v: Worker)
    requires Start(w) && Serves(w, cfg, run, more, d, v)
    ensures HasWork(End(w, cfg, run)) && Roomy(End(w, cfg, run), cfg, v)
  {
    var all := run + more;
    FreshPrefix(all, [d]);
    RunStaysConsistent(w, cfg, all, |all|);
    AdmittedFrom(End(w, cfg, all), cfg, d, v);
    NothingComesBack(w, cfg, all, |run|, |all|);
    FirstPart(w, cfg, run, more, |run|);
    RoomyBefore(End(w, cfg, run), End(w, cfg, all), cfg, v);
  }

  function DrawnIds(run: Run): set<JobId> {
    set i | 0 <= i < |run| && run[i].op.DispatchJob? :: run[i].op.request.job
  }

  lemma StillFresh(run: Run, more: Run, d: Event)
    requires FreshIds(run) && Reports(more) && d.op.DispatchJob? && d.op.request.job !in DrawnIds(run)
    ensures FreshIds(run + more + [d])
  {
    var all := run + more + [d];
    assert forall i :: 0 <= i < |all| ==>
      all[i] == if i < |run| then run[i] else if i < |run| + |more| then more[i - |run|] else d;
  }

  function SentTo(w: World, t: TaskId, v: Worker, j: JobId): Event
    requires MayDispatch(w, t)
  {
    At(0, DispatchJob(t, Request(DispatchStage(w.tasks[t].state).value, Some(v), true, j, Submitted)))
  }

  lemma SentIsAdmitted(w: World, cfg: Config, t: TaskId, v: Worker, j: JobId)
    requires Sound(w, cfg) && Roomy(w, cfg, v) && StrandedJobs(w) == w.slots.active.Keys
    requires MayDispatch(w, t) && j !in w.jobs
    ensures AdmitsTo(w, cfg, SentTo(w, t, v, j), v)
  {
    RoomyAdmits(w, cfg, v);
  }

  /** Two reports at most to free a task for dispatch, and one more for every slot that can be given back. */
  lemma ClearsTheWay(w: World, cfg: Config) returns (more: Run, after: World, t: TaskId)
    requires Sound(w, cfg) && HasWork(w)
    ensures Reaches(w, cfg, more, after) && MayDispatch(after, t) && StrandedJobs(after) == after.slots.active.Keys
  {
    t :| t in w.tasks && (DispatchStage(w.tasks[t].state).Some? || w.tasks[t].activeJob.Some?);
    var some, freed := [], w;
    NoReports(w, cfg);
    if !MayDispatch(w, t) {
      some, freed := Revives(w, cfg, t);
    }
    more, after := Drains(freed, cfg, t);
    MoreReports(w, freed, after, cfg, some, more);
    more := some + more;
  }

  lemma RoomIsServed(w: World, cfg: Config, run: Run, v: Worker)
    requires Start(w) && FreshIds(run) && HasWork(End(w, cfg, run)) && Roomy(End(w, cfg, run), cfg, v)
    ensures CanBeServed(w, cfg, run, v)
  {
    var now := End(w, cfg, run);
    RunStaysSound(w, cfg, run, |run|);
    var more, after, t := ClearsTheWay(now, cfg);
    var j := FreshId(DrawnIds(run) + now.jobs.Keys);
    NoneNewlyStranded(now, after, cfg, v);
    SentIsAdmitted(after, cfg, t, v, j);
    StillFresh(run, more, SentTo(after, t, v, j));
    Joined(w, cfg, run, more);
    assert Serves(w, cfg, run, more, SentTo(after, t, v, j), v);
  }

  /** After any run some continuation dispatches a job to `v` exactly if there is work left, fewer jobs
      are stranded at `v` than it has slots, and fewer in all than all workers have together. */
  lemma ServedIff(w: World, cfg: Config, run: Run, v: Worker)
    requires Start(w) && FreshIds(run)
    ensures CanBeServed(w, cfg, run, v) <==> HasWork(End(w, cfg, run)) && Roomy(End(w, cfg, run), cfg, v)
  {
    if CanBeServed(w, cfg, run, v) {
      var more, d :| Serves(w, cfg, run, more, d, v);
      ServedHasRoom(w, cfg, run, more, d, v);
    }
    if HasWork(End(w, cfg, run)) && Roomy(End(w, cfg, run), cfg, v) {
      RoomIsServed(w, cfg, run, v);
    }
  }

  // ---------------------------------------------------------------- what strands a job

  /** Some event of `run[..n]` took a slot of `v` for `j` and failed to hand it over. */
  ghost predicate WasStranded(w: World, cfg: Config, run: Run, n: nat, j: JobId, v: Worker)
    requires n <= |run|
  {
    n > 0 && (WasStranded(w, cfg, run, n - 1, j, v) || Strands(w, cfg, run, n - 1, j, v))
  }

  lemma {:induction false} WhenStranded(w: World, cfg: Config, run: Run, n: nat, j: JobId, v: Worker) returns (i: nat)
    requires n <= |run| && WasStranded(w, cfg, run, n, j, v)
    ensures i < n && Strands(w, cfg, run, i, j, v)
  {
    i := n - 1;
    if !Strands(w, cfg, run, n - 1, j, v) {
      i := WhenStranded(w, cfg, run, n - 1, j, v);
    }
  }

  lemma {:induction false} StrandedSince(w: World, cfg: Config, run: Run, i: nat, n: nat, j: JobId, v: Worker)
    requires i < n <= |run| && Strands(w, cfg, run, i, j, v)
    ensures WasStranded(w, cfg, run, n, j, v)
  {
    if n > i + 1 {
      StrandedSince(w, cfg, run, i, n - 1, j, v);
    }
  }

  /** In every run the stranded jobs of `v` are exactly those whose hand-over to it failed. */
  lemma StrandedIff(w: World, cfg: Config, run: Run, n: nat, j: JobId, v: Worker)
    requires n <= |run| && Start(w) && FreshIds(run)
    ensures j in StrandedAt(After(w, cfg, run, n), v) <==> WasStranded(w, cfg, run, n, j, v)
  {
    RunStaysConsistent(w, cfg, run, n);
    StrandedMeans(After(w, cfg, run, n), cfg, j, v);
    if WasStranded(w, cfg, run, n, j, v) {
      var i := WhenStranded(w, cfg, run, n, j, v);
      StrandedForever(w, cfg, run, i, n, j, v);
    }
    if j in StrandedAt(After(w, cfg, run, n), v) {
      StrandedAtDispatch(w, cfg, run, n, j, v);
    }
  }

  lemma StrandedAtDispatch(w: World, cfg: Config, run: Run, n: nat, j: JobId, v: Worker)
    requires n <= |run| && Start(w) && FreshIds(run) && j in StrandedAt(After(w, cfg, run, n), v)
    ensures WasStranded(w, cfg, run, n, j, v)
  {
    SlotsAndLeasesExact(w, cfg, run, n, j);
    assert Occupied(w, cfg, run, n, j);
    var i := WhenDispatched(w, cfg, run, n, j);
    ClaimedIffSubmitted(w, cfg, run, i, n, j);
    var v' := WorkerFor(run[i].op.request);
    StrandedForever(w, cfg, run, i, n, j, v');
    StrandedSince(w, cfg, run, i, n, j, v);
  }
}
