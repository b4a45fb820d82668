/** How often a task may fail before it is blocked, over whole runs. */
module BoundedFailure {
  import opened Prelude
  import opened TaskStates
  import opened JobControl
  import opened JobRuns
  import O = Orphans
  import R = Retry

  /** This event is a report on task `t` at stage `s` that gets as far as being handled. */
  ghost predicate HandledNow(w: World, cfg: Config, e: Event, t: TaskId, s: Stage) {
    && e.op.Report? && e.op.task == t
    && (ReportOutcome(w, cfg, e).Applied? || ReportOutcome(w, cfg, e).Refused?)
    && w.jobs[e.op.result.job].stage == s
  }

  predicate Concerns(w: World, t': TaskId, r: Result, t: TaskId, s: Stage)
    requires r.job in w.jobs
  {
    t' == t && w.jobs[r.job].stage == s
  }

  predicate Forgives(w: World, t': TaskId, r: Result, o: Outcome, t: TaskId, s: Stage)
    requires r.job in w.jobs
  {
    Concerns(w, t', r, t, s) && o.Applied? && (CountsRetry(o.handling) || o.handling.Rework?)
  }

  /** This outcome gives `t` no allowance back at `s`: a retry there starts from no lower count than the
      one tracked (a refused one, which is counted all the same, from one lower at most), and a rework of
      another stage finds no attempt of `s` to wipe out. */
  predicate Plain(w: World, t': TaskId, r: Result, o: Outcome, t: TaskId, s: Stage)
    requires r.job in w.jobs && (o.Applied? || o.Refused?)
  {
    if Concerns(w, t', r, t, s) then
      o.handling.Retry? ==> RetryCount(w, t, s, r) >= w.Tracked(t, s) - if o.Refused? then 1 else 0
    else
      t' == t && o.Applied? && o.handling.Rework? ==> AttemptOf(w, t, s) == 0
  }

  /** The event is a report that gets as far as being handled. */
  ghost predicate HandledReport(w: World, cfg: Config, e: Event) {
    e.op.Report? && (ReportOutcome(w, cfg, e).Applied? || ReportOutcome(w, cfg, e).Refused?)
  }

  /** A failed or malformed report on `t` at `s` is granted a retry, or a final failure a rework. */
  ghost predicate ForgivesNow(w: World, cfg: Config, e: Event, t: TaskId, s: Stage) {
    HandledReport(w, cfg, e) && Forgives(w, e.op.task, e.op.result, ReportOutcome(w, cfg, e), t, s)
  }

  ghost predicate PlainNow(w: World, cfg: Config, e: Event, t: TaskId, s: Stage) {
    HandledReport(w, cfg, e) ==> Plain(w, e.op.task, e.op.result, ReportOutcome(w, cfg, e), t, s)
  }

  ghost predicate ReworksNow(w: World, cfg: Config, e: Event, t: TaskId) {
    e.op.Report? && e.op.task == t && ReportOutcome(w, cfg, e).Applied? && ReportOutcome(w, cfg, e).handling.Rework?
  }

  ghost predicate PlainAt(w: World, cfg: Config, run: Run, i: nat, t: TaskId, s: Stage)
    requires i < |run|
  {
    PlainNow(After(w, cfg, run, i), cfg, run[i], t, s)
  }

  ghost predicate ForgivesAt(w: World, cfg: Config, run: Run, i: nat, t: TaskId, s: Stage)
    requires i < |run|
  {
    ForgivesNow(After(w, cfg, run, i), cfg, run[i], t, s)
  }

  ghost function Forgiven(w: World, cfg: Config, run: Run, n: nat, t: TaskId, s: Stage): nat
    requires n <= |run|
  {
    if n == 0 then 0
    else Forgiven(w, cfg, run, n - 1, t, s) + if ForgivesAt(w, cfg, run, n - 1, t, s) then 1 else 0
  }

  function AttemptOf(w: World, t: TaskId, s: Stage): int {
    if t in w.tasks then PreviousAttempt(w.tasks[t].rework, s) else 0
  }

  /** What is left: retries not yet counted, and rework attempts not yet made. */
  function Allowance(w: World, t: TaskId, s: Stage): int {
    (DefaultMaxRetries(s) - w.Tracked(t, s)) + (MAX_REWORK_ATTEMPTS - AttemptOf(w, t, s))
  }

  predicate InBounds(w: World, t: TaskId, s: Stage) {
    0 <= w.Tracked(t, s) <= DefaultMaxRetries(s) && 0 <= AttemptOf(w, t, s) <= MAX_REWORK_ATTEMPTS
  }

  /** No retry is granted at the limit, and no rework after the last attempt. */
  ghost predicate WithinLimits(w: World, t: TaskId, r: Result, h: Handling)
    requires t in w.tasks && r.job in w.jobs
  {
    var s := w.jobs[r.job].stage;
    && (CountsRetry(h) ==> RetryFrom(w, t, s, r, h) < DefaultMaxRetries(s))
    && (h.Rework? ==> PreviousAttempt(w.tasks[t].rework, s) < MAX_REWORK_ATTEMPTS)
  }

  lemma OutcomesWithinLimits(w: World, cfg: Config, e: Event)
    requires PoliciesFit(w.jobs) && e.op.Report?
    requires ReportOutcome(w, cfg, e).Applied? || ReportOutcome(w, cfg, e).Refused?
    ensures WithinLimits(w, e.op.task, e.op.result, ReportOutcome(w, cfg, e).handling)
  {}

  lemma EnactSpends(w: World, t': TaskId, r: Result, o: Outcome, t: TaskId, s: Stage)
    requires Possible(w, t', r, o) && (o.Applied? || o.Refused?) && WithinLimits(w, t', r, o.handling)
    requires InBounds(w, t, s)
    ensures Plain(w, t', r, o, t, s) ==> InBounds(Enact(w, t', r, o), t, s)
    ensures Plain(w, t', r, o, t, s) <==>
      Allowance(Enact(w, t', r, o), t, s) <= Allowance(w, t, s) - if Forgives(w, t', r, o, t, s) then 1 else 0
  {}

  lemma DispatchKeepsCounts(w: World, cfg: Config, t': TaskId, q: Request, now: int, t: TaskId)
    ensures Dispatch(w, cfg, t', q, now).tracker == w.tracker
    ensures t in Dispatch(w, cfg, t', q, now).tasks <==> t in w.tasks
    ensures t in w.tasks ==> Dispatch(w, cfg, t', q, now).tasks[t].rework == w.tasks[t].rework
  {}

  lemma ScanKeepsCounts(w: World, scan: O.Config, now: int, t: TaskId)
    ensures Scan(w, scan, now).tracker == w.tracker
    ensures t in Scan(w, scan, now).tasks <==> t in w.tasks
    ensures t in w.tasks ==> Scan(w, scan, now).tasks[t].rework == w.tasks[t].rework
  {}

  lemma ReportSpends(w: World, cfg: Config, e: Event, t: TaskId, s: Stage)
    requires e.op.Report? && PoliciesFit(w.jobs) && InBounds(w, t, s)
    ensures PlainNow(w, cfg, e, t, s) ==> InBounds(Step(w, cfg, e), t, s)
    ensures PlainNow(w, cfg, e, t, s) <==> SpendsNow(w, cfg, e, t, s)
  {
    if HandledReport(w, cfg, e) {
      OutcomesWithinLimits(w, cfg, e);
      EnactSpends(w, e.op.task, e.op.result, ReportOutcome(w, cfg, e), t, s);
    }
  }

  lemma OthersAreFree(w: World, cfg: Config, e: Event, t: TaskId, s: Stage)
    requires !e.op.Report?
    ensures Step(w, cfg, e).Tracked(t, s) == w.Tracked(t, s) && AttemptOf(Step(w, cfg, e), t, s) == AttemptOf(w, t, s)
  {
    match e.op
    case DispatchJob(t', q) => DispatchKeepsCounts(w, cfg, t', q, e.now, t);
    case Beat(_, _) =>
    case OrphanScan(scan) => ScanKeepsCounts(w, scan, e.now, t);
  }

  /** The event uses up allowance if it forgives a failure, and gives none back. */
  ghost predicate SpendsNow(w: World, cfg: Config, e: Event, t: TaskId, s: Stage) {
    Allowance(Step(w, cfg, e), t, s) <= Allowance(w, t, s) - if ForgivesNow(w, cfg, e, t, s) then 1 else 0
  }

  /** Every failure forgiven uses up allowance and no event gives any back, exactly as long as events are
      plain. */
  lemma SpendsIff(w: World, cfg: Config, e: Event, t: TaskId, s: Stage)
    requires PoliciesFit(w.jobs) && InBounds(w, t, s)
    ensures PlainNow(w, cfg, e, t, s) ==> InBounds(Step(w, cfg, e), t, s)
    ensures PlainNow(w, cfg, e, t, s) <==> SpendsNow(w, cfg, e, t, s)
  {
    if e.op.Report? {
      ReportSpends(w, cfg, e, t, s);
    } else {
      OthersAreFree(w, cfg, e, t, s);
    }
  }

  /** Retries and reworks granted to one task at one stage, over a whole run, never outnumber the
      allowance they used up: at most `max_retries + 2` of them, whatever else happens in between. */
  lemma {:induction false} FailuresBounded(w: World, cfg: Config, run: Run, n: nat, t: TaskId, s: Stage)
    requires n <= |run| && Start(w) && FreshIds(run)
    requires forall i :: 0 <= i < n ==> PlainAt(w, cfg, run, i, t, s)
    ensures InBounds(After(w, cfg, run, n), t, s)
    ensures Forgiven(w, cfg, run, n, t, s)
         <= DefaultMaxRetries(s) + MAX_REWORK_ATTEMPTS - Allowance(After(w, cfg, run, n), t, s)
    ensures Forgiven(w, cfg, run, n, t, s) <= DefaultMaxRetries(s) + MAX_REWORK_ATTEMPTS
  {
    if n > 0 {
      FailuresBounded(w, cfg, run, n - 1, t, s);
      JobsKeepPolicies(w, cfg, run, n - 1);
      StepSpendsAt(w, cfg, run, n - 1, t, s);
    }
  }

  lemma StepSpendsAt(w: World, cfg: Config, run: Run, i: nat, t: TaskId, s: Stage)
    requires i < |run| && PoliciesFit(After(w, cfg, run, i).jobs)
    requires InBounds(After(w, cfg, run, i), t, s) && PlainAt(w, cfg, run, i, t, s)
    ensures InBounds(After(w, cfg, run, i + 1), t, s)
    ensures Allowance(After(w, cfg, run, i + 1), t, s)
         <= Allowance(After(w, cfg, run, i), t, s) - if ForgivesAt(w, cfg, run, i, t, s) then 1 else 0
  {
    SpendsIff(After(w, cfg, run, i), cfg, run[i], t, s);
  }

  lemma JobsKeepPolicies(w: World, cfg: Config, run: Run, n: nat)
    requires n <= |run| && Start(w) && FreshIds(run)
    ensures PoliciesFit(After(w, cfg, run, n).jobs) && VisitsFit(After(w, cfg, run, n).visits, After(w, cfg, run, n).jobs)
  {
    RunStaysConsistent(w, cfg, run, n);
  }

  // ---------------------------------------------------------------- when the task is blocked

  predicate ValidFailure(r: Result) {
    r.errors == [] && !r.gateBlocks && r.status.ReportFailed?
  }

  predicate Retryable(f: R.FailureClass) {
    f.RetryableTransient? || f.RetryableCapacity?
  }

  /** The loop test never fires: it needs two recorded transitions of one job, and dispatch records
      one per job. */
  lemma NeverLoops(w: World, cfg: Config, j: JobId)
    requires VisitsFit(w.visits, w.jobs)
    ensures !Loops(w, cfg, j)
  {}

  /** A failure at dev or acceptance blocks the task exactly when its rework attempts are gone and it
      cannot be retried; for a retryable failure, exactly when the whole allowance is used up. */
  lemma BlockedIffSpent(w: World, cfg: Config, t: TaskId, r: Result)
    requires Consistent(w, cfg) && t in w.tasks && r.job in w.jobs && !w.jobs[r.job].stage.Plan?
    requires ValidFailure(r)
    ensures var s := w.jobs[r.job].stage;
            var h := Handle(w, cfg, t, w.jobs[r.job], r);
      && (h.Retry? || h.Rework? || h.ReworkExhausted?)
      && (h.ReworkExhausted? <==>
            && AttemptOf(w, t, s) >= MAX_REWORK_ATTEMPTS
            && (Retryable(r.failure) ==> RetryCount(w, t, s, r) >= DefaultMaxRetries(s)))
      && (Retryable(r.failure) && r.retryCount.None? && InBounds(w, t, s) ==>
            (h.ReworkExhausted? <==> Allowance(w, t, s) == 0))
  {}

  // ---------------------------------------------------------------- what resets the rework count

  /** The stages whose final failures sent `t` back for rework, in order. */
  ghost function ReworkLog(w: World, cfg: Config, run: Run, n: nat, t: TaskId): seq<Stage>
    requires n <= |run|
  {
    if n == 0 then []
    else ReworkLog(w, cfg, run, n - 1, t) + ReworkAt(w, cfg, run, n - 1, t)
  }

  ghost function ReworkAt(w: World, cfg: Config, run: Run, i: nat, t: TaskId): seq<Stage>
    requires i < |run|
  {
    ReworkOf(After(w, cfg, run, i), cfg, run[i], t)
  }

  ghost function ReworkOf(w: World, cfg: Config, e: Event, t: TaskId): seq<Stage> {
    if ReworksNow(w, cfg, e, t) then [w.jobs[e.op.result.job].stage] else []
  }

  /** How many reworks in a row, counted back from the latest, were of this stage. */
  function Streak(log: seq<Stage>, s: Stage): nat {
    if log == [] || log[|log| - 1] != s then 0 else Streak(log[..|log| - 1], s) + 1
  }

  /** The recorded context holds no more than the current streak. */
  ghost predicate ContextMatches(w: World, log: seq<Stage>, t: TaskId) {
    forall s :: AttemptOf(w, t, s) == Streak(log, s) <= MAX_REWORK_ATTEMPTS
  }

  lemma EnactExtendsLog(w: World, t': TaskId, r: Result, o: Outcome, log: seq<Stage>, t: TaskId)
    requires Possible(w, t', r, o) && (o.Applied? || o.Refused?) && WithinLimits(w, t', r, o.handling)
    requires ContextMatches(w, log, t)
    ensures ContextMatches(Enact(w, t', r, o),
      log + if t' == t && o.Applied? && o.handling.Rework? then [w.jobs[r.job].stage] else [], t)
  {
    if t' == t && o.Applied? && o.handling.Rework? {
      var s := w.jobs[r.job].stage;
      assert (log + [s])[..|log|] == log;
      assert AttemptOf(w, t, s) == Streak(log, s);
    } else {
      assert log + [] == log;
    }
  }

  lemma StepExtendsLog(w: World, cfg: Config, e: Event, log: seq<Stage>, t: TaskId)
    requires PoliciesFit(w.jobs) && ContextMatches(w, log, t)
    ensures ContextMatches(Step(w, cfg, e), log + ReworkOf(w, cfg, e, t), t)
  {
    assert log + [] == log;
    match e.op
    case DispatchJob(t', q) => DispatchKeepsCounts(w, cfg, t', q, e.now, t);
    case Beat(_, _) =>
    case OrphanScan(scan) => ScanKeepsCounts(w, scan, e.now, t);
    case Report(t', r, _) =>
      if ReportOutcome(w, cfg, e).Applied? || ReportOutcome(w, cfg, e).Refused? {
        OutcomesWithinLimits(w, cfg, e);
        EnactExtendsLog(w, t', r, ReportOutcome(w, cfg, e), log, t);
      }
  }

  /** In every run the attempts held against a stage are its unbroken streak of reworks: any other
      stage's rework wipes them out. No stage is ever reworked three times in a row. */
  lemma {:induction false} AttemptsAreTheStreak(w: World, cfg: Config, run: Run, n: nat, t: TaskId)
    requires n <= |run| && Start(w) && FreshIds(run)
    ensures ContextMatches(After(w, cfg, run, n), ReworkLog(w, cfg, run, n, t), t)
  {
    if n > 0 {
      AttemptsAreTheStreak(w, cfg, run, n - 1, t);
      JobsKeepPolicies(w, cfg, run, n - 1);
      StepExtendsLog(After(w, cfg, run, n - 1), cfg, run[n - 1], ReworkLog(w, cfg, run, n - 1, t), t);
    }
  }

  lemma StreakOfTwo(log: seq<Stage>, s: Stage)
    ensures Streak(log, s) >= 2 <==> |log| >= 2 && log[|log| - 1] == s && log[|log| - 2] == s
  {}

  /** The failures that come to a rework decision: valid ones, of any stage, that neither fail over nor
      have a retry left. */
  lemma FinalIff(w: World, cfg: Config, t: TaskId, r: Result)
    requires Consistent(w, cfg) && t in w.tasks && r.job in w.jobs
    ensures var job := w.jobs[r.job];
            var h := Handle(w, cfg, t, job, r);
      (h.Rework? || h.ReworkExhausted?) <==>
        && ValidFailure(r) && FailoverWorker(job.stage, job.worker).None?
        && (Retryable(r.failure) ==> RetryCount(w, t, job.stage, r) >= DefaultMaxRetries(job.stage))
  {
    NeverLoops(w, cfg, r.job);
    assert PolicyOf(w.jobs[r.job]).maxRetries == DefaultMaxRetries(w.jobs[r.job].stage);
  }

  /** Of these, a failure blocks the task exactly when its last two reworks were both of its stage. */
  lemma BlockedIffThirdInARow(w: World, cfg: Config, run: Run, n: nat, t: TaskId, r: Result)
    requires n <= |run| && Start(w) && FreshIds(run)
    requires t in After(w, cfg, run, n).tasks && r.job in After(w, cfg, run, n).jobs
    ensures ThirdInARow(After(w, cfg, run, n), cfg, ReworkLog(w, cfg, run, n, t), t, r)
  {
    AttemptsAreTheStreak(w, cfg, run, n, t);
    LogDecides(After(w, cfg, run, n), cfg, ReworkLog(w, cfg, run, n, t), t, r);
  }

  ghost predicate ThirdInARow(w: World, cfg: Config, log: seq<Stage>, t: TaskId, r: Result)
    requires t in w.tasks && r.job in w.jobs
  {
    var s, h := w.jobs[r.job].stage, Handle(w, cfg, t, w.jobs[r.job], r);
    h.Rework? || h.ReworkExhausted? ==>
      (h.ReworkExhausted? <==> |log| >= 2 && log[|log| - 1] == s && log[|log| - 2] == s)
  }

  lemma LogDecides(w: World, cfg: Config, log: seq<Stage>, t: TaskId, r: Result)
    requires t in w.tasks && r.job in w.jobs && ContextMatches(w, log, t)
    ensures ThirdInARow(w, cfg, log, t, r)
  {
    var s := w.jobs[r.job].stage;
    StreakOfTwo(log, s);
    assert AttemptOf(w, t, s) == Streak(log, s);
  }

  // ---------------------------------------------------------------- time spent waiting

  /** A retry of `t` at `s` starts from no lower count than the one tracked, and its random draw is from
      zero up to one. */
  ghost predicate CountedNow(w: World, cfg: Config, e: Event, t: TaskId, s: Stage) {
    HandledNow(w, cfg, e, t, s) ==>
      && 0.0 <= e.op.random < 1.0
      && (ReportOutcome(w, cfg, e).handling.Retry? ==> RetryCount(w, t, s, e.op.result) >= w.Tracked(t, s))
  }

  ghost predicate Counted(w: World, cfg: Config, run: Run, i: nat, t: TaskId, s: Stage)
    requires i < |run|
  {
    CountedNow(After(w, cfg, run, i), cfg, run[i], t, s)
  }

  ghost function DelayNow(w: World, cfg: Config, e: Event, t: TaskId, s: Stage): real {
    if HandledNow(w, cfg, e, t, s) && ReportOutcome(w, cfg, e).Applied? then ReportOutcome(w, cfg, e).delay else 0.0
  }

  ghost function DelayAt(w: World, cfg: Config, run: Run, i: nat, t: TaskId, s: Stage): real
    requires i < |run|
  {
    DelayNow(After(w, cfg, run, i), cfg, run[i], t, s)
  }

  ghost function TotalDelay(w: World, cfg: Config, run: Run, n: nat, t: TaskId, s: Stage): real
    requires n <= |run|
  {
    if n == 0 then 0.0 else TotalDelay(w, cfg, run, n - 1, t, s) + DelayAt(w, cfg, run, n - 1, t, s)
  }

  lemma {:induction false} BudgetShrinks(p: R.Policy, k: int)
    requires k >= 0 && p.baseSeconds >= 0.0 && p.maxSeconds >= 0.0
    ensures R.Budget(p, k + 1) <= R.Budget(p, k) && R.Budget(p, k) >= 0.0
    decreases p.maxRetries - k
  {
    R.PowerNonNegative(p.baseSeconds, k + 1);
    if k < p.maxRetries {
      BudgetShrinks(p, k + 1);
    }
  }

  lemma {:induction false} BudgetFalls(p: R.Policy, k: int, c: int)
    requires 0 <= k <= c && p.baseSeconds >= 0.0 && p.maxSeconds >= 0.0
    ensures R.Budget(p, c) <= R.Budget(p, k)
    decreases c - k
  {
    if k < c {
      BudgetShrinks(p, k);
      BudgetFalls(p, k + 1, c);
    }
  }

  ghost predicate WithinBudget(w: World, t: TaskId, s: Stage, spent: real) {
    0 <= w.Tracked(t, s) && spent + R.Budget(DefaultPolicy(s), w.Tracked(t, s)) <= R.Budget(DefaultPolicy(s), 0)
  }

  lemma ReportPays(w: World, cfg: Config, e: Event, t: TaskId, s: Stage, spent: real)
    requires PoliciesFit(w.jobs) && CountedNow(w, cfg, e, t, s) && WithinBudget(w, t, s, spent)
    requires e.op.Report? && HandledNow(w, cfg, e, t, s) && CountsRetry(ReportOutcome(w, cfg, e).handling)
    ensures WithinBudget(Step(w, cfg, e), t, s, spent + DelayNow(w, cfg, e, t, s))
  {
    var r, p := e.op.result, DefaultPolicy(s);
    var k := RetryFrom(w, t, s, r, ReportOutcome(w, cfg, e).handling);
    OutcomesWithinLimits(w, cfg, e);
    BudgetFalls(p, w.Tracked(t, s), k);
    BudgetShrinks(p, k);
    R.JitterOnlyShortens(p, e.op.random, k);
    assert PolicyOf(w.jobs[e.op.result.job]) == p;
  }

  lemma UncountedIsFree(w: World, cfg: Config, e: Event, t: TaskId, s: Stage)
    requires e.op.Report? && !(HandledNow(w, cfg, e, t, s) && CountsRetry(ReportOutcome(w, cfg, e).handling))
    ensures DelayNow(w, cfg, e, t, s) == 0.0 && Step(w, cfg, e).Tracked(t, s) == w.Tracked(t, s)
  {}

  lemma StepPays(w: World, cfg: Config, e: Event, t: TaskId, s: Stage, spent: real)
    requires PoliciesFit(w.jobs) && CountedNow(w, cfg, e, t, s) && WithinBudget(w, t, s, spent)
    ensures WithinBudget(Step(w, cfg, e), t, s, spent + DelayNow(w, cfg, e, t, s))
  {
    if !e.op.Report? {
      OthersAreFree(w, cfg, e, t, s);
    } else if HandledNow(w, cfg, e, t, s) && CountsRetry(ReportOutcome(w, cfg, e).handling) {
      ReportPays(w, cfg, e, t, s, spent);
    } else {
      UncountedIsFree(w, cfg, e, t, s);
    }
  }

  /** The retries of one task at one stage wait no longer in all than the capped powers up to the
      limit add up to, and what has been waited leaves that much less. */
  lemma {:induction false} DelaysWithinBudget(w: World, cfg: Config, run: Run, n: nat, t: TaskId, s: Stage)
    requires n <= |run| && Start(w) && FreshIds(run)
    requires forall i :: 0 <= i < n ==> Counted(w, cfg, run, i, t, s)
    ensures WithinBudget(After(w, cfg, run, n), t, s, TotalDelay(w, cfg, run, n, t, s))
    ensures TotalDelay(w, cfg, run, n, t, s) <= R.Budget(DefaultPolicy(s), 0)
  {
    if n > 0 {
      DelaysWithinBudget(w, cfg, run, n - 1, t, s);
      JobsKeepPolicies(w, cfg, run, n - 1);
      assert Counted(w, cfg, run, n - 1, t, s);
      StepPays(After(w, cfg, run, n - 1), cfg, run[n - 1], t, s, TotalDelay(w, cfg, run, n - 1, t, s));
    }
    BudgetShrinks(DefaultPolicy(s), After(w, cfg, run, n).Tracked(t, s));
  }

  /** In seconds: six for plan, fourteen for dev, two for acceptance. */
  lemma BudgetsInSeconds()
    ensures R.Budget(DefaultPolicy(Plan), 0) == 6.0
    ensures R.Budget(DefaultPolicy(Dev), 0) == 14.0
    ensures R.Budget(DefaultPolicy(Acceptance), 0) == 2.0
  {}

  // ---------------------------------------------------------------- two ways round the bound

  /** The same report again, `n` times. */
  function Again(now: int, t: TaskId, r: Result, random: real, n: nat): Run {
    seq(n, _ => At(now, Report(t, r, random)))
  }

  /** A failure report that stays in the task's way and asks for another go. */
  ghost predicate AsksAgain(w: World, cfg: Config, t: TaskId, r: Result) {
    && PoliciesFit(w.jobs) && VisitsFit(w.visits, w.jobs)
    && Possible(w, t, r, Applied(Retry, 0.0)) && r.refMatches && ValidFailure(r)
    && w.tasks[t].state == ActiveState(w.jobs[r.job].stage)
    && (FailoverWorker(w.jobs[r.job].stage, w.jobs[r.job].worker).Some?
        || (Retryable(r.failure) && r.retryCount.Some? && r.retryCount.value < DefaultMaxRetries(w.jobs[r.job].stage)))
  }

  lemma AsksOnceMore(w: World, cfg: Config, t: TaskId, r: Result, now: int, random: real)
    requires AsksAgain(w, cfg, t, r)
    ensures var e := At(now, Report(t, r, random));
      && ReportOutcome(w, cfg, e).Applied?
      && (ReportOutcome(w, cfg, e).handling.Retry? || ReportOutcome(w, cfg, e).handling.Failover?)
      && AsksAgain(Step(w, cfg, e), cfg, t, r)
  {}

  lemma {:induction false} StillAsking(w: World, cfg: Config, t: TaskId, r: Result, now: int, random: real, n: nat, i: nat)
    requires AsksAgain(w, cfg, t, r) && i <= n
    ensures AsksAgain(After(w, cfg, Again(now, t, r, random, n), i), cfg, t, r)
  {
    if i > 0 {
      StillAsking(w, cfg, t, r, now, random, n, i - 1);
      AsksOnceMore(After(w, cfg, Again(now, t, r, random, n), i - 1), cfg, t, r, now, random);
    }
  }

  /** The bound needs both its conditions: a report that brings its own low retry count is granted a
      retry every time, and a plan job whose worker has a successor fails over every time, however
      often the report is repeated. The job, its worker and the task's active job never change. */
  lemma AskedForever(w: World, cfg: Config, t: TaskId, r: Result, now: int, random: real, n: nat, i: nat)
    requires AsksAgain(w, cfg, t, r) && i < n
    ensures var run := Again(now, t, r, random, n);
            var o := ReportOutcome(After(w, cfg, run, i), cfg, run[i]);
      o.Applied? && (o.handling.Retry? || o.handling.Failover?)
  {
    StillAsking(w, cfg, t, r, now, random, n, i);
    AsksOnceMore(After(w, cfg, Again(now, t, r, random, n), i), cfg, t, r, now, random);
  }
}
