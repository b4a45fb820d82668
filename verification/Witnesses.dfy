/** That the conditions other modules reason from do come about: runs from a starting world that
    reach them. */
module Witnesses {
  import opened Prelude
  import opened TaskStates
  import opened JobControl
  import opened JobRuns
  import opened BoundedFailure
  import opened JobOwnership
  import opened Durability
  import C = Concurrency
  import O = Orphans
  import R = Retry

  // ---------------------------------------------------------------- building runs

  function Ask(s: Stage, j: JobId, submission: Submission): Request {
    Request(s, None, true, j, submission)
  }

  function Succeeded(j: JobId): Result {
    Result(j, true, [], false, ReportSucceeded, R.NonRetryableLogic, None, None)
  }

  function Failed(j: JobId, failure: R.FailureClass, retryCount: Option<int>): Result {
    Result(j, true, [], false, ReportFailed, failure, retryCount, None)
  }

  predicate Room(cfg: Config) {
    cfg.slots.maxGlobal >= 1 && cfg.slots.maxPerWorker >= 1
  }

  /** A task that may be dispatched to `s`. */
  predicate Dispatchable(w: World, t: TaskId, s: Stage) {
    t in w.tasks && DispatchStage(w.tasks[t].state) == Some(s)
  }

  /** Some world to start from: one planned task and nothing else. */
  const FIRST: World := World(
    map["task" := Task(Planned, 1, None, None, map[])], map[], map[], C.EMPTY_SLOTS, map[], map[])

  lemma FirstStarts()
    ensures Start(FIRST) && Dispatchable(FIRST, "task", Dev)
  {}

  lemma IdleAdmits(w: World, cfg: Config, t: TaskId, q: Request, now: int)
    requires Consistent(w, cfg) && Room(cfg) && w.slots.active == map[]
    requires Dispatchable(w, t, q.stage) && q.capable && q.job !in w.jobs
    ensures DispatchOutcomeOf(w, cfg, t, q, now) == Admitted(q.submission)
  {
    assert w.slots.Of(WorkerFor(q)) == {};
  }

  /** The start of a run does not depend on how it goes on. */
  lemma {:induction false} Appended(w: World, cfg: Config, run: Run, e: Event, n: nat)
    requires n <= |run|
    ensures After(w, cfg, run + [e], n) == After(w, cfg, run, n)
  {
    if n > 0 {
      Appended(w, cfg, run, e, n - 1);
    }
  }

  // ---------------------------------------------------------------- one dispatch and one report

  function Dispatched(t: TaskId, s: Stage, j: JobId, submission: Submission): Event {
    At(0, DispatchJob(t, Ask(s, j, submission)))
  }

  /** The world after the first dispatch: the task is at work on its one job. */
  ghost predicate AtWork(w: World, cfg: Config, t: TaskId, s: Stage, j: JobId) {
    && Consistent(w, cfg)
    && t in w.tasks && w.tasks[t].state == ActiveState(s) && w.tasks[t].activeJob == Some(j)
    && j in w.jobs && w.jobs[j].stage == s && w.jobs[j].worker == DefaultWorker(s)
    && j in w.leases && j in w.slots.active
    && w.leases[j].expiresAt == cfg.leaseMs && w.leases[j].lastHeartbeatAt == 0
  }

  lemma AdmitStartsWork(w: World, cfg: Config, t: TaskId, s: Stage, j: JobId)
    requires t in w.tasks && w.slots.active == map[] && j !in w.leases
    ensures var after := Admit(w, cfg, t, Ask(s, j, Submitted), 0);
      && (Consistent(after, cfg) ==> AtWork(after, cfg, t, s, j)) && after.tracker == w.tracker
      && after.jobs.Keys == w.jobs.Keys + {j} && after.slots.active.Keys == {j}
      && after.tasks[t].rework == w.tasks[t].rework
  {}

  lemma DispatchStartsWork(w: World, cfg: Config, t: TaskId, s: Stage, j: JobId)
    requires Consistent(w, cfg) && Room(cfg) && w.slots.active == map[]
    requires Dispatchable(w, t, s) && j !in w.jobs
    ensures var after := Step(w, cfg, Dispatched(t, s, j, Submitted));
      && AtWork(after, cfg, t, s, j) && after.tracker == w.tracker
      && after.jobs.Keys == w.jobs.Keys + {j} && after.slots.active.Keys == {j}
      && after.tasks[t].rework == w.tasks[t].rework
  {
    IdleAdmits(w, cfg, t, Ask(s, j, Submitted), 0);
    StepKeepsConsistent(w, cfg, Dispatched(t, s, j, Submitted));
    AdmitStartsWork(w, cfg, t, s, j);
  }

  /** A first failure moves the task, and is retried or fails over. */
  lemma WorkFails(w: World, cfg: Config, t: TaskId, s: Stage, j: JobId, random: real)
    requires AtWork(w, cfg, t, s, j) && w.Tracked(t, s) == 0
    ensures var r := Failed(j, R.RetryableTransient, None);
            var o := OutcomeOf(w, cfg, t, r, random);
      && Moves(w, cfg, t, r) && o.Applied? && (o.handling.Retry? || o.handling.Failover?)
    ensures AsksAgain(w, cfg, t, Failed(j, R.RetryableTransient, Some(0)))
  {
    NeverLoops(w, cfg, j);
    assert PolicyOf(w.jobs[j]).maxRetries == DefaultMaxRetries(s);
  }

  lemma WorkFallsSilent(w: World, cfg: Config, t: TaskId, j: JobId, now: int)
    requires AtWork(w, cfg, t, Acceptance, j) && now > cfg.leaseMs
    ensures BlockedByScan(w, O.DEFAULT_CONFIG, now, t)
  {}

  lemma TwoEvents(w: World, cfg: Config, a: Event, b: Event)
    requires !b.op.DispatchJob?
    ensures After(w, cfg, [a, b], 0) == w && After(w, cfg, [a, b], 1) == Step(w, cfg, a) && FreshIds([a, b])
  {
    assert After(w, cfg, [a, b], 1) == Step(After(w, cfg, [a, b], 0), cfg, [a, b][0]);
  }

  lemma FirstWork(w: World, cfg: Config, t: TaskId, s: Stage, j: JobId)
    requires Start(w) && Room(cfg) && Dispatchable(w, t, s)
    ensures var after := Step(w, cfg, Dispatched(t, s, j, Submitted));
      AtWork(after, cfg, t, s, j) && after.Tracked(t, s) == 0
  {
    StartIsConsistent(w, cfg);
    DispatchStartsWork(w, cfg, t, s, j);
  }

  /** From every start, the first failure of the first job already raises the version by two and leaves
      the task waiting for a retry nobody dispatches. */
  lemma FirstFailureSticks(w: World, cfg: Config, t: TaskId, s: Stage, j: JobId)
    requires Start(w) && Room(cfg) && Dispatchable(w, t, s)
    ensures var run := [Dispatched(t, s, j, Submitted), At(0, Report(t, Failed(j, R.RetryableTransient, None), 0.0))];
      && FreshIds(run)
      && JumpsNow(After(w, cfg, run, 1), cfg, run[1], t)
      && RetriesAt(w, cfg, run, 1, t)
  {
    var a, b := Dispatched(t, s, j, Submitted), At(0, Report(t, Failed(j, R.RetryableTransient, None), 0.0));
    TwoEvents(w, cfg, a, b);
    FirstWork(w, cfg, t, s, j);
    WorkFails(Step(w, cfg, a), cfg, t, s, j, 0.0);
  }

  /** From every start, one dispatch is enough for a report that is granted a retry for ever. */
  lemma FirstJobAsksForever(w: World, cfg: Config, t: TaskId, s: Stage, j: JobId)
    requires Start(w) && Room(cfg) && Dispatchable(w, t, s)
    ensures var after := Step(w, cfg, Dispatched(t, s, j, Submitted));
      AsksAgain(after, cfg, t, Failed(j, R.RetryableTransient, Some(0)))
  {
    FirstWork(w, cfg, t, s, j);
    WorkFails(Step(w, cfg, Dispatched(t, s, j, Submitted)), cfg, t, s, j, 0.0);
  }

  /** From every start with a task ready for acceptance, its first job falling silent makes a scan
      block the task, again two versions on. */
  lemma FirstSilenceJumps(w: World, cfg: Config, t: TaskId, j: JobId, now: int)
    requires Start(w) && Room(cfg) && Dispatchable(w, t, Acceptance) && now > cfg.leaseMs
    ensures var run := [Dispatched(t, Acceptance, j, Submitted), At(now, OrphanScan(O.DEFAULT_CONFIG))];
      FreshIds(run) && JumpsNow(After(w, cfg, run, 1), cfg, run[1], t)
  {
    var a, b := Dispatched(t, Acceptance, j, Submitted), At(now, OrphanScan(O.DEFAULT_CONFIG));
    TwoEvents(w, cfg, a, b);
    FirstWork(w, cfg, t, Acceptance, j);
    WorkFallsSilent(Step(w, cfg, a), cfg, t, j, now);
  }

  // ---------------------------------------------------------------- ids nobody has drawn

  lemma {:induction false} Bound(names: set<JobId>) returns (n: nat)
    ensures forall x :: x in names ==> |x| < n
    decreases names
  {
    n := 0;
    if names != {} {
      var x :| x in names;
      var rest := Bound(names - {x});
      n := if |x| < rest then rest else |x| + 1;
    }
  }

  lemma FreshId(names: set<JobId>) returns (j: JobId)
    ensures j !in names
  {
    var n := Bound(names);
    j := seq(n, _ => 'j');
  }

  ghost function End(w: World, cfg: Config, run: Run): World {
    After(w, cfg, run, |run|)
  }

  /** A run in which every dispatch has drawn an id of its own and recorded it. */
  ghost predicate Recorded(w: World, cfg: Config, run: Run) {
    && FreshIds(run)
    && forall i :: 0 <= i < |run| && run[i].op.DispatchJob? ==> run[i].op.request.job in End(w, cfg, run).jobs
  }

  /** Going on with one more event. */
  lemma OneMore(w: World, cfg: Config, run: Run, e: Event)
    requires Recorded(w, cfg, run)
    requires e.op.DispatchJob? ==> e.op.request.job !in End(w, cfg, run).jobs
    requires End(w, cfg, run).jobs.Keys <= Step(End(w, cfg, run), cfg, e).jobs.Keys
    requires e.op.DispatchJob? ==> e.op.request.job in Step(End(w, cfg, run), cfg, e).jobs
    ensures End(w, cfg, run + [e]) == Step(End(w, cfg, run), cfg, e)
    ensures Recorded(w, cfg, run + [e])
  {
    Appended(w, cfg, run, e, |run|);
    assert (run + [e])[|run|] == e;
    assert forall i :: 0 <= i < |run| ==> (run + [e])[i] == run[i];
  }

  // ---------------------------------------------------------------- stages failing in turn

  /** No job is at work, and there is room for one. */
  ghost predicate Between(w: World, cfg: Config, t: TaskId) {
    Consistent(w, cfg) && Room(cfg) && w.slots.active == map[] && t in w.tasks
  }

  function Reported(t: TaskId, j: JobId, succeeds: bool): Event {
    At(0, Report(t, if succeeds then Succeeded(j) else Failed(j, R.NonRetryableLogic, None), 0.0))
  }

  /** What one job does to its task: a development succeeds, or a job of either stage fails for good. */
  function StateAfter(succeeds: bool): TaskState {
    if succeeds then DevCompleted else ReworkRequired
  }

  function ReworkAfter(rework: Option<ReworkContext>, s: Stage, succeeds: bool): Option<ReworkContext> {
    if succeeds then rework else Some(ReworkContext(s, PreviousAttempt(rework, s) + 1))
  }

  predicate Turned(before: Task, after: Task, s: Stage, succeeds: bool) {
    after.state == StateAfter(succeeds) && after.rework == ReworkAfter(before.rework, s, succeeds)
  }

  lemma WorkIsReported(w: World, cfg: Config, t: TaskId, s: Stage, j: JobId, succeeds: bool)
    requires AtWork(w, cfg, t, s, j) && !s.Plan? && (succeeds ==> s.Dev?)
    requires PreviousAttempt(w.tasks[t].rework, s) < MAX_REWORK_ATTEMPTS
    ensures var e := Reported(t, j, succeeds);
      && ReportOutcome(w, cfg, e) == Applied(if succeeds then Success else Rework, 0.0)
      && ReworkOf(w, cfg, e, t) == (if succeeds then [] else [s])
  {
    NeverLoops(w, cfg, j);
  }

  /** The handling such a report meets. */
  function Met(succeeds: bool): Outcome {
    Applied(if succeeds then Success else Rework, 0.0)
  }

  lemma EnactFreesSlot(w: World, cfg: Config, t: TaskId, s: Stage, j: JobId, succeeds: bool)
    requires AtWork(w, cfg, t, s, j) && w.slots.active.Keys == {j}
    ensures Enact(w, t, Reported(t, j, succeeds).op.result, Met(succeeds)).slots.active == map[]
  {
    EnactFrees(w, t, Reported(t, j, succeeds).op.result, Met(succeeds));
  }

  lemma EnactTurnsTask(w: World, cfg: Config, t: TaskId, s: Stage, j: JobId, succeeds: bool)
    requires Possible(w, t, Reported(t, j, succeeds).op.result, Met(succeeds)) && w.jobs[j].stage == s
    requires !s.Plan? && (succeeds ==> s.Dev?)
    ensures var after := Enact(w, t, Reported(t, j, succeeds).op.result, Met(succeeds));
      t in after.tasks && Turned(w.tasks[t], after.tasks[t], s, succeeds) && after.jobs == w.jobs
  {}

  lemma ReportEndsWork(w: World, cfg: Config, t: TaskId, s: Stage, j: JobId, succeeds: bool)
    requires AtWork(w, cfg, t, s, j) && !s.Plan? && (succeeds ==> s.Dev?)
    requires PreviousAttempt(w.tasks[t].rework, s) < MAX_REWORK_ATTEMPTS && w.slots.active.Keys == {j} && Room(cfg)
    ensures var after := Step(w, cfg, Reported(t, j, succeeds));
      && Between(after, cfg, t) && after.jobs == w.jobs
      && Turned(w.tasks[t], after.tasks[t], s, succeeds)
  {
    WorkIsReported(w, cfg, t, s, j, succeeds);
    StepKeepsConsistent(w, cfg, Reported(t, j, succeeds));
    EnactFreesSlot(w, cfg, t, s, j, succeeds);
    EnactTurnsTask(w, cfg, t, s, j, succeeds);
  }

  lemma NextLogged(w: World, cfg: Config, run: Run, e: Event, m: nat, t: TaskId)
    requires m < |run| && ReworkLog(w, cfg, run + [e], m, t) == ReworkLog(w, cfg, run, m, t)
    ensures ReworkLog(w, cfg, run + [e], m + 1, t) == ReworkLog(w, cfg, run, m + 1, t)
  {
    Appended(w, cfg, run, e, m);
    var more := run + [e];
    assert more[m] == run[m];
  }

  /** The two runs have one log up to `m`. */
  ghost predicate LogsAgree(w: World, cfg: Config, run: Run, more: Run, m: nat, t: TaskId) {
    m <= |run| && m <= |more| && ReworkLog(w, cfg, more, m, t) == ReworkLog(w, cfg, run, m, t)
  }

  lemma {:induction false} LogAppended(w: World, cfg: Config, run: Run, e: Event, m: nat, n: nat, t: TaskId)
    requires m <= n <= |run| && LogsAgree(w, cfg, run, run + [e], m, t)
    ensures LogsAgree(w, cfg, run, run + [e], n, t)
    decreases n - m
  {
    if m < n {
      NextLogged(w, cfg, run, e, m, t);
      LogAppended(w, cfg, run, e, m + 1, n, t);
    }
  }

  ghost function Log(w: World, cfg: Config, run: Run, t: TaskId): seq<Stage> {
    ReworkLog(w, cfg, run, |run|, t)
  }

  lemma LogOfOneMore(w: World, cfg: Config, run: Run, e: Event, t: TaskId)
    ensures Log(w, cfg, run + [e], t) == Log(w, cfg, run, t) + ReworkOf(End(w, cfg, run), cfg, e, t)
  {
    LogAppended(w, cfg, run, e, 0, |run|, t);
    Appended(w, cfg, run, e, |run|);
    assert (run + [e])[|run|] == e;
  }

  lemma LogOfTwoMore(w: World, cfg: Config, run: Run, d: Event, e: Event, t: TaskId)
    requires d.op.DispatchJob?
    ensures Log(w, cfg, run + [d] + [e], t) == Log(w, cfg, run, t) + ReworkOf(End(w, cfg, run + [d]), cfg, e, t)
  {
    LogOfOneMore(w, cfg, run, d, t);
    LogOfOneMore(w, cfg, run + [d], e, t);
    assert ReworkOf(End(w, cfg, run), cfg, d, t) == [];
  }

  /** A run that has come to rest, with the task in this state. */
  ghost predicate AtRest(w: World, cfg: Config, run: Run, t: TaskId, state: TaskState, rework: Option<ReworkContext>) {
    && Recorded(w, cfg, run) && Between(End(w, cfg, run), cfg, t)
    && End(w, cfg, run).tasks[t].state == state && End(w, cfg, run).tasks[t].rework == rework
  }

  ghost predicate Working(w: World, cfg: Config, run: Run, t: TaskId, s: Stage, j: JobId, rework: Option<ReworkContext>) {
    && Recorded(w, cfg, run) && Room(cfg) && AtWork(End(w, cfg, run), cfg, t, s, j)
    && End(w, cfg, run).slots.active.Keys == {j} && End(w, cfg, run).tasks[t].rework == rework
  }

  /** The stage may be dispatched from here, and has an attempt left. */
  predicate Ready(state: TaskState, rework: Option<ReworkContext>, s: Stage) {
    DispatchStage(state) == Some(s) && PreviousAttempt(rework, s) < MAX_REWORK_ATTEMPTS
  }

  lemma DispatchInRun(
    w: World, cfg: Config, run: Run, t: TaskId, state: TaskState, rework: Option<ReworkContext>, s: Stage, j: JobId)
    requires AtRest(w, cfg, run, t, state, rework) && Ready(state, rework, s) && j !in End(w, cfg, run).jobs
    ensures Working(w, cfg, run + [Dispatched(t, s, j, Submitted)], t, s, j, rework)
  {
    DispatchStartsWork(End(w, cfg, run), cfg, t, s, j);
    OneMore(w, cfg, run, Dispatched(t, s, j, Submitted));
  }

  lemma ReportInRun(
    w: World, cfg: Config, run: Run, t: TaskId, rework: Option<ReworkContext>, s: Stage, j: JobId, succeeds: bool)
    requires Working(w, cfg, run, t, s, j, rework) && !s.Plan? && (succeeds ==> s.Dev?)
    requires PreviousAttempt(rework, s) < MAX_REWORK_ATTEMPTS
    ensures AtRest(w, cfg, run + [Reported(t, j, succeeds)], t, StateAfter(succeeds), ReworkAfter(rework, s, succeeds))
    ensures ReworkOf(End(w, cfg, run), cfg, Reported(t, j, succeeds), t) == (if succeeds then [] else [s])
  {
    WorkIsReported(End(w, cfg, run), cfg, t, s, j, succeeds);
    ReportEndsWork(End(w, cfg, run), cfg, t, s, j, succeeds);
    OneMore(w, cfg, run, Reported(t, j, succeeds));
  }

  /** One more job, from its dispatch to its report. */
  lemma Turn(
    w: World, cfg: Config, run: Run, t: TaskId, state: TaskState, rework: Option<ReworkContext>, s: Stage, succeeds: bool)
    returns (more: Run)
    requires AtRest(w, cfg, run, t, state, rework) && Ready(state, rework, s) && !s.Plan? && (succeeds ==> s.Dev?)
    ensures AtRest(w, cfg, more, t, StateAfter(succeeds), ReworkAfter(rework, s, succeeds))
    ensures Log(w, cfg, more, t) == Log(w, cfg, run, t) + if succeeds then [] else [s]
  {
    var j := FreshId(End(w, cfg, run).jobs.Keys);
    var d, e := Dispatched(t, s, j, Submitted), Reported(t, j, succeeds);
    DispatchInRun(w, cfg, run, t, state, rework, s, j);
    ReportInRun(w, cfg, run + [d], t, rework, s, j, succeeds);
    LogOfTwoMore(w, cfg, run, d, e, t);
    more := run + [d] + [e];
  }

  /** Acceptance and development, again and again. */
  function InTurn(n: nat): seq<Stage> {
    if n == 0 then [] else InTurn(n - 1) + [Acceptance, Dev]
  }

  /** Where the task stands after so many rounds. */
  function ReworkInTurn(n: nat): Option<ReworkContext> {
    if n == 0 then None else Some(ReworkContext(Dev, 1))
  }

  lemma Developed(w: World, cfg: Config, run: Run, t: TaskId, state: TaskState, rework: Option<ReworkContext>) returns (more: Run)
    requires AtRest(w, cfg, run, t, state, rework) && Ready(state, rework, Dev)
    ensures AtRest(w, cfg, more, t, DevCompleted, rework)
    ensures Log(w, cfg, more, t) == Log(w, cfg, run, t)
  {
    more := Turn(w, cfg, run, t, state, rework, Dev, true);
  }

  lemma FirstAttempt(rework: Option<ReworkContext>, s: Stage)
    requires PreviousAttempt(rework, s) == 0
    ensures StateAfter(false) == ReworkRequired && ReworkAfter(rework, s, false) == Some(ReworkContext(s, 1))
  {}

  lemma FailedFor(w: World, cfg: Config, run: Run, t: TaskId, state: TaskState, rework: Option<ReworkContext>, s: Stage)
    returns (more: Run)
    requires AtRest(w, cfg, run, t, state, rework) && Ready(state, rework, s) && !s.Plan? && PreviousAttempt(rework, s) == 0
    ensures AtRest(w, cfg, more, t, ReworkRequired, Some(ReworkContext(s, 1)))
    ensures Log(w, cfg, more, t) == Log(w, cfg, run, t) + [s]
  {
    FirstAttempt(rework, s);
    more := Turn(w, cfg, run, t, state, rework, s, false);
  }

  lemma AcceptanceFails(w: World, cfg: Config, run: Run, t: TaskId, n: nat) returns (more: Run)
    requires AtRest(w, cfg, run, t, DevCompleted, ReworkInTurn(n))
    ensures AtRest(w, cfg, more, t, ReworkRequired, Some(ReworkContext(Acceptance, 1)))
    ensures Log(w, cfg, more, t) == Log(w, cfg, run, t) + [Acceptance]
  {
    more := FailedFor(w, cfg, run, t, DevCompleted, ReworkInTurn(n), Acceptance);
  }

  lemma DevelopmentFails(w: World, cfg: Config, run: Run, t: TaskId) returns (more: Run)
    requires AtRest(w, cfg, run, t, ReworkRequired, Some(ReworkContext(Acceptance, 1)))
    ensures AtRest(w, cfg, more, t, ReworkRequired, Some(ReworkContext(Dev, 1)))
    ensures Log(w, cfg, more, t) == Log(w, cfg, run, t) + [Dev]
  {
    more := FailedFor(w, cfg, run, t, ReworkRequired, Some(ReworkContext(Acceptance, 1)), Dev);
  }

  lemma Round(w: World, cfg: Config, run: Run, t: TaskId, state: TaskState, n: nat) returns (more: Run)
    requires AtRest(w, cfg, run, t, state, ReworkInTurn(n)) && DispatchStage(state) == Some(Dev)
    ensures AtRest(w, cfg, more, t, ReworkRequired, ReworkInTurn(n + 1))
    ensures Log(w, cfg, more, t) == Log(w, cfg, run, t) + [Acceptance, Dev]
  {
    more := Developed(w, cfg, run, t, state, ReworkInTurn(n));
    more := AcceptanceFails(w, cfg, more, t, n);
    more := DevelopmentFails(w, cfg, more, t);
  }

  lemma RestsAtStart(w: World, cfg: Config, t: TaskId)
    requires Start(w) && Room(cfg) && t in w.tasks
    ensures AtRest(w, cfg, [], t, w.tasks[t].state, ReworkInTurn(0)) && Log(w, cfg, [], t) == InTurn(0)
  {
    StartIsConsistent(w, cfg);
  }

  lemma FirstRound(w: World, cfg: Config, t: TaskId) returns (run: Run)
    requires Start(w) && Room(cfg) && Dispatchable(w, t, Dev)
    ensures AtRest(w, cfg, run, t, ReworkRequired, ReworkInTurn(1)) && Log(w, cfg, run, t) == InTurn(1)
  {
    RestsAtStart(w, cfg, t);
    run := Round(w, cfg, [], t, w.tasks[t].state, 0);
  }

  lemma NextRound(w: World, cfg: Config, t: TaskId, run: Run, n: nat) returns (more: Run)
    requires AtRest(w, cfg, run, t, ReworkRequired, ReworkInTurn(n)) && Log(w, cfg, run, t) == InTurn(n)
    ensures AtRest(w, cfg, more, t, ReworkRequired, ReworkInTurn(n + 1)) && Log(w, cfg, more, t) == InTurn(n + 1)
  {
    more := Round(w, cfg, run, t, ReworkRequired, n);
  }

  lemma {:induction false} Rounds(w: World, cfg: Config, t: TaskId, n: nat) returns (run: Run)
    requires Start(w) && Room(cfg) && Dispatchable(w, t, Dev) && n > 0
    ensures AtRest(w, cfg, run, t, ReworkRequired, ReworkInTurn(n)) && Log(w, cfg, run, t) == InTurn(n)
  {
    if n == 1 {
      run := FirstRound(w, cfg, t);
    } else {
      run := Rounds(w, cfg, t, n - 1);
      run := NextRound(w, cfg, t, run, n - 1);
    }
  }

  lemma RestIsReady(w: World, cfg: Config, run: Run, t: TaskId, state: TaskState, rework: Option<ReworkContext>)
    requires AtRest(w, cfg, run, t, state, rework) && DispatchStage(state) == Some(Dev)
    ensures FreshIds(run) && Dispatchable(After(w, cfg, run, |run|), t, Dev)
  {}

  /** From every start with a task ready for development there are runs of any length in which its
      acceptance and its development fail for good in turn, and every failure is sent back for rework:
      no number of reworks blocks the task. */
  lemma {:induction false} ReworkedForever(w: World, cfg: Config, t: TaskId, n: nat) returns (run: Run)
    requires Start(w) && Room(cfg) && Dispatchable(w, t, Dev)
    ensures FreshIds(run) && ReworkLog(w, cfg, run, |run|, t) == InTurn(n)
    ensures Dispatchable(After(w, cfg, run, |run|), t, Dev)
  {
    if n == 0 {
      run := [];
    } else {
      run := Rounds(w, cfg, t, n);
      RestIsReady(w, cfg, run, t, ReworkRequired, ReworkInTurn(n));
    }
  }
}
