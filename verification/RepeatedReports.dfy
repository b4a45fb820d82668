/** What becomes of a report that is sent again. The guards of `applyResult` mean to ignore it, by the
    task's active job, but no update clears that. */
module RepeatedReports {
  import opened Prelude
  import opened TaskStates
  import opened JobControl
  import opened ReportFields
  import opened JobRuns
  import opened BoundedFailure

  /** The handling the same report meets next time. */
  ghost predicate MayFollow(h: Handling, next: Handling) {
    match h
    case SchemaRetry => next.SchemaRetry? || next.ValidationBlock? || next.ValidationRework?
    case Retry => next.Retry? || next.Rework? || next.ReworkExhausted?
    case Rework => next.Rework? || next.ReworkExhausted?
    case _ => next == h
  }

  lemma HandledAgain(w: World, cfg: Config, t: TaskId, r: Result, random: real)
    requires OutcomeOf(w, cfg, t, r, random).Applied?
    ensures var w' := ApplyResult(w, cfg, t, r, random);
      && StillCurrent(w', t, r) && w'.jobs == w.jobs
      && MayFollow(OutcomeOf(w, cfg, t, r, random).handling, Handle(w', cfg, t, w.jobs[r.job], r))
  {}

  /** A report that passes the guards is never ignored: it is applied, or refused exactly where its
      handling asks for a move that is not allowed. */
  lemma GuardsDecide(w: World, cfg: Config, t: TaskId, r: Result, random: real)
    ensures OutcomeOf(w, cfg, t, r, random).Applied? || OutcomeOf(w, cfg, t, r, random).Refused? <==> StillCurrent(w, t, r)
    ensures StillCurrent(w, t, r) ==>
      var target := Target(Handle(w, cfg, t, w.jobs[r.job], r), w.jobs[r.job].stage, r.verdict);
      OutcomeOf(w, cfg, t, r, random).Refused? <==> target.Some? && !CanTransition(w.tasks[t].state, target.value)
  {}

  lemma NextMoveAllowed(h: Handling, next: Handling, s: Stage, verdict: Option<Verdict>)
    requires MayFollow(h, next)
    ensures Target(h, s, verdict).Some? <==> Target(next, s, verdict).Some?
    ensures Target(h, s, verdict).Some? ==> CanTransition(Target(h, s, verdict).value, Target(next, s, verdict).value)
  {}

  /** Sent again at once, an applied report is neither ignored nor refused but applied once more. */
  lemma AppliedAgain(w: World, cfg: Config, t: TaskId, r: Result, random: real, again: real)
    requires OutcomeOf(w, cfg, t, r, random).Applied?
    ensures OutcomeOf(ApplyResult(w, cfg, t, r, random), cfg, t, r, again).Applied?
  {
    var h, w' := OutcomeOf(w, cfg, t, r, random).handling, ApplyResult(w, cfg, t, r, random);
    HandledAgain(w, cfg, t, r, random);
    NextMoveAllowed(h, Handle(w', cfg, t, w.jobs[r.job], r), w.jobs[r.job].stage, r.verdict);
    GuardsDecide(w', cfg, t, r, again);
  }

  /** And so on, any number of times. */
  lemma {:induction false} AppliedEveryTime(w: World, cfg: Config, t: TaskId, r: Result, now: int, random: real, n: nat, i: nat)
    requires OutcomeOf(w, cfg, t, r, random).Applied? && i < n
    ensures ReportOutcome(After(w, cfg, Again(now, t, r, random, n), i), cfg, Again(now, t, r, random, n)[i]).Applied?
  {
    if i > 0 {
      AppliedEveryTime(w, cfg, t, r, now, random, n, i - 1);
      AppliedAgain(After(w, cfg, Again(now, t, r, random, n), i - 1), cfg, t, r, random, random);
    }
  }

  // ---------------------------------------------------------------- after other events

  /** This event hands a new job of `t` to a worker. */
  predicate HandsOverNow(w: World, cfg: Config, e: Event, t: TaskId) {
    && e.op.DispatchJob? && e.op.task == t
    && DispatchOutcomeOf(w, cfg, t, e.op.request, e.now) == Admitted(Submitted)
  }

  lemma DispatchChangesActiveJob(w: World, cfg: Config, t': TaskId, q: Request, now: int, t: TaskId)
    requires t in w.tasks
    ensures t in Dispatch(w, cfg, t', q, now).tasks
    ensures Dispatch(w, cfg, t', q, now).tasks[t].activeJob ==
      if t' == t && DispatchOutcomeOf(w, cfg, t, q, now) == Admitted(Submitted) then Some(q.job) else w.tasks[t].activeJob
  {}

  lemma ActiveJobChanges(w: World, cfg: Config, e: Event, t: TaskId)
    requires t in w.tasks
    ensures t in Step(w, cfg, e).tasks
    ensures Step(w, cfg, e).tasks[t].activeJob ==
      if HandsOverNow(w, cfg, e, t) then Some(e.op.request.job) else w.tasks[t].activeJob
  {
    match e.op
    case DispatchJob(t', q) => DispatchChangesActiveJob(w, cfg, t', q, e.now, t);
    case Report(t', r, _) => assert Step(w, cfg, e) == Enact(w, t', r, ReportOutcome(w, cfg, e));
    case Beat(_, _) =>
    case OrphanScan(_) =>
  }

  ghost predicate HandsOver(w: World, cfg: Config, run: Run, i: nat, t: TaskId)
    requires i < |run|
  {
    HandsOverNow(After(w, cfg, run, i), cfg, run[i], t)
  }

  /** Some event of `run[i..n]` does. */
  ghost predicate HandedOver(w: World, cfg: Config, run: Run, i: nat, n: nat, t: TaskId)
    requires i <= n <= |run|
  {
    n > i && (HandedOver(w, cfg, run, i, n - 1, t) || HandsOver(w, cfg, run, n - 1, t))
  }

  /** The task's active job is still `j`. */
  ghost predicate ActiveAt(w: World, cfg: Config, run: Run, n: nat, t: TaskId, j: JobId)
    requires n <= |run|
  {
    t in After(w, cfg, run, n).tasks && After(w, cfg, run, n).tasks[t].activeJob == Some(j)
  }

  ghost predicate TaskAt(w: World, cfg: Config, run: Run, n: nat, t: TaskId)
    requires n <= |run|
  {
    t in After(w, cfg, run, n).tasks
  }

  /** `j` is known, and the task's active job exactly while nothing since `i` has handed the task over. */
  ghost predicate ActiveTill(w: World, cfg: Config, run: Run, i: nat, n: nat, t: TaskId, j: JobId) {
    && i <= n <= |run| && WasDispatched(w, cfg, run, n, j) && TaskAt(w, cfg, run, n, t)
    && (ActiveAt(w, cfg, run, n, t, j) <==> !HandedOver(w, cfg, run, i, n, t))
  }

  lemma ActiveNext(w: World, cfg: Config, run: Run, i: nat, t: TaskId, j: JobId)
    requires i < |run| && Start(w) && FreshIds(run) && WasDispatched(w, cfg, run, i, j) && TaskAt(w, cfg, run, i, t)
    ensures TaskAt(w, cfg, run, i + 1, t)
    ensures ActiveAt(w, cfg, run, i + 1, t, j) <==> ActiveAt(w, cfg, run, i, t, j) && !HandsOver(w, cfg, run, i, t)
  {
    RunStaysConsistent(w, cfg, run, i);
    DrawsFreshId(w, cfg, run, i);
    ActiveJobChanges(After(w, cfg, run, i), cfg, run[i], t);
  }

  lemma ActiveTillNext(w: World, cfg: Config, run: Run, i: nat, n: nat, t: TaskId, j: JobId)
    requires n < |run| && Start(w) && FreshIds(run) && ActiveTill(w, cfg, run, i, n, t, j)
    ensures ActiveTill(w, cfg, run, i, n + 1, t, j)
  {
    ActiveNext(w, cfg, run, n, t, j);
  }

  lemma {:induction false} ActiveUntilHandedOver(w: World, cfg: Config, run: Run, i: nat, m: nat, n: nat, t: TaskId, j: JobId)
    requires m <= n <= |run| && Start(w) && FreshIds(run) && ActiveTill(w, cfg, run, i, m, t, j)
    ensures ActiveTill(w, cfg, run, i, n, t, j)
    decreases n - m
  {
    if m < n {
      ActiveTillNext(w, cfg, run, i, m, t, j);
      ActiveUntilHandedOver(w, cfg, run, i, m + 1, n, t, j);
    }
  }

  lemma CurrentWasDispatched(w: World, cfg: Config, run: Run, i: nat, t: TaskId, r: Result)
    requires i <= |run| && Start(w) && FreshIds(run) && StillCurrent(After(w, cfg, run, i), t, r)
    ensures ActiveTill(w, cfg, run, i, i, t, r.job)
  {
    RunStaysConsistent(w, cfg, run, i);
  }

  /** In every run, a report that once passed the guards, applied or not, is ignored when sent again
      exactly if the task was handed to a worker anew in between. */
  lemma IgnoredIffHandedOver(w: World, cfg: Config, run: Run, i: nat, n: nat, t: TaskId, r: Result, random: real)
    requires i <= n <= |run| && Start(w) && FreshIds(run) && StillCurrent(After(w, cfg, run, i), t, r)
    ensures OutcomeOf(After(w, cfg, run, n), cfg, t, r, random) == Ignored <==> HandedOver(w, cfg, run, i, n, t)
  {
    CurrentWasDispatched(w, cfg, run, i, t, r);
    ActiveUntilHandedOver(w, cfg, run, i, i, n, t, r.job);
    IgnoredIff(After(w, cfg, run, n), cfg, t, r, random);
  }

  lemma IgnoredIff(w: World, cfg: Config, t: TaskId, r: Result, random: real)
    requires t in w.tasks
    ensures OutcomeOf(w, cfg, t, r, random) == Ignored <==> w.tasks[t].activeJob != Some(r.job)
  {}
}
