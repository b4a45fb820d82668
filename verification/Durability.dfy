/** Whether what runs do to a task can be written to the versioned store: the persistence pass of
    src/store/control-plane-store.ts over the task updates of src/domain/task/task-update.ts and
    src/store/services/task-service.ts. */
module Durability {
  import opened Prelude
  import opened TaskStates
  import opened JobControl
  import opened JobRuns
  import S = Store

  /** The record a task is written as; `body` stands for its serialised fields. */
  function Snapshot(id: TaskId, task: Task, body: Task -> string): S.Task {
    S.Task(id, Label(task.state), S.Whole(task.version), body(task))
  }

  /** The guards a report passes on its way to a transition: it is on the task's active job under the
      right reference, the job is known, its handling moves the task, and the move is allowed. */
  ghost predicate Moves(w: World, cfg: Config, t: TaskId, r: Result) {
    && t in w.tasks && w.tasks[t].activeJob == Some(r.job) && r.refMatches && r.job in w.jobs
    && var target := Target(Handle(w, cfg, t, w.jobs[r.job], r), w.jobs[r.job].stage, r.verdict);
       target.Some? && CanTransition(w.tasks[t].state, target.value)
  }

  /** This event updates `t` and moves it as well, two version steps in one: a report that moves it, or
      a scan that blocks it. */
  ghost predicate JumpsNow(w: World, cfg: Config, e: Event, t: TaskId) {
    || (e.op.Report? && e.op.task == t && Moves(w, cfg, t, e.op.result))
    || (e.op.OrphanScan? && BlockedByScan(w, e.op.scan, e.now, t))
  }

  /** This event changes `t` by a single update or transition: a dispatch that moves it, or a report that
      passes the guards and whose handling moves nothing. */
  ghost predicate StepsNow(w: World, cfg: Config, e: Event, t: TaskId) {
    || (e.op.DispatchJob? && e.op.task == t && DispatchMoves(DispatchOutcomeOf(w, cfg, t, e.op.request, e.now)))
    || (e.op.Report? && e.op.task == t && MovesNothing(w, cfg, t, e.op.result))
  }

  /** The task becomes active, or is blocked; a hand-over that failed leaves it as it was. */
  predicate DispatchMoves(o: DispatchOutcome) {
    o.Incapable? || (o.Admitted? && !o.submission.SubmissionFailed?)
  }

  ghost predicate MovesNothing(w: World, cfg: Config, t: TaskId, r: Result) {
    && t in w.tasks && w.tasks[t].activeJob == Some(r.job) && r.refMatches && r.job in w.jobs
    && Target(Handle(w, cfg, t, w.jobs[r.job], r), w.jobs[r.job].stage, r.verdict).None?
  }

  ghost function VersionsAdded(w: World, cfg: Config, e: Event, t: TaskId): nat {
    if JumpsNow(w, cfg, e, t) then 2 else if StepsNow(w, cfg, e, t) then 1 else 0
  }

  /** An event leaves the task alone, or its version moves on by one, or by two. */
  lemma VersionSteps(w: World, cfg: Config, e: Event, t: TaskId)
    requires t in w.tasks
    ensures t in Step(w, cfg, e).tasks
    ensures Step(w, cfg, e).tasks[t].version == w.tasks[t].version + VersionsAdded(w, cfg, e, t)
    ensures VersionsAdded(w, cfg, e, t) == 0 ==> Step(w, cfg, e).tasks[t] == w.tasks[t]
  {
    match e.op
    case DispatchJob(t', q) => DispatchVersion(w, cfg, t', q, e.now, t);
    case Report(t', r, _) => ReportVersion(w, cfg, e, t);
    case Beat(_, _) =>
    case OrphanScan(_) =>
  }

  lemma DispatchVersion(w: World, cfg: Config, t': TaskId, q: Request, now: int, t: TaskId)
    requires t in w.tasks
    ensures t in Dispatch(w, cfg, t', q, now).tasks
    ensures var before, after := w.tasks[t], Dispatch(w, cfg, t', q, now).tasks[t];
      if t' == t && DispatchMoves(DispatchOutcomeOf(w, cfg, t, q, now)) then after.version == before.version + 1
      else after == before
  {}

  lemma ReportVersion(w: World, cfg: Config, e: Event, t: TaskId)
    requires e.op.Report? && t in w.tasks
    ensures t in Step(w, cfg, e).tasks
    ensures Step(w, cfg, e).tasks[t].version == w.tasks[t].version + VersionsAdded(w, cfg, e, t)
    ensures VersionsAdded(w, cfg, e, t) == 0 ==> Step(w, cfg, e).tasks[t] == w.tasks[t]
  {
    assert Step(w, cfg, e) == Enact(w, e.op.task, e.op.result, ReportOutcome(w, cfg, e));
  }

  /** With the record before an event stored, the record after it is taken exactly when the event did
      not both update and move the task. */
  lemma WritableIff(w: World, cfg: Config, e: Event, t: TaskId, stored: map<S.Id, S.Task>, body: Task -> string)
    requires t in w.tasks && t in stored && stored[t] == Snapshot(t, w.tasks[t], body)
    ensures t in Step(w, cfg, e).tasks
    ensures S.Accepts(stored, Snapshot(t, Step(w, cfg, e).tasks[t], body)) <==> !JumpsNow(w, cfg, e, t)
  {
    VersionSteps(w, cfg, e, t);
  }

  // ---------------------------------------------------------------- from one pass to a later one

  /** The version steps of `t` in `run[i..n]`. */
  ghost function VersionsBetween(w: World, cfg: Config, run: Run, i: nat, n: nat, t: TaskId): nat
    requires i <= n <= |run|
  {
    if i == n then 0
    else VersionsBetween(w, cfg, run, i, n - 1, t) + VersionsAdded(After(w, cfg, run, n - 1), cfg, run[n - 1], t)
  }

  /** The version counts them, and without any the task is as it was. */
  ghost predicate VersionCounted(w: World, cfg: Config, run: Run, i: nat, n: nat, t: TaskId) {
    && i <= n <= |run|
    && StepsLead(After(w, cfg, run, i), After(w, cfg, run, n), t, VersionsBetween(w, cfg, run, i, n, t))
  }

  predicate StepsLead(a: World, b: World, t: TaskId, steps: nat) {
    && t in a.tasks && t in b.tasks && b.tasks[t].version == a.tasks[t].version + steps
    && (steps == 0 ==> b.tasks[t] == a.tasks[t])
  }

  lemma NextVersionCounted(w: World, cfg: Config, run: Run, i: nat, n: nat, t: TaskId)
    requires n < |run| && VersionCounted(w, cfg, run, i, n, t)
    ensures VersionCounted(w, cfg, run, i, n + 1, t)
  {
    VersionSteps(After(w, cfg, run, n), cfg, run[n], t);
  }

  lemma {:induction false} CountedOn(w: World, cfg: Config, run: Run, i: nat, m: nat, n: nat, t: TaskId)
    requires m <= n <= |run| && VersionCounted(w, cfg, run, i, m, t)
    ensures VersionCounted(w, cfg, run, i, n, t)
    decreases n - m
  {
    if m < n {
      NextVersionCounted(w, cfg, run, i, m, t);
      CountedOn(w, cfg, run, i, m + 1, n, t);
    }
  }

  lemma VersionsCounted(w: World, cfg: Config, run: Run, i: nat, n: nat, t: TaskId)
    requires i <= n <= |run| && t in After(w, cfg, run, i).tasks
    ensures VersionCounted(w, cfg, run, i, n, t)
  {
    CountedOn(w, cfg, run, i, i, n, t);
  }

  lemma TakenIff(id: TaskId, before: Task, after: Task, steps: nat, stored: map<S.Id, S.Task>, body: Task -> string)
    requires id in stored && stored[id] == Snapshot(id, before, body)
    requires after.version == before.version + steps && (steps == 0 ==> after == before)
    ensures S.Accepts(stored, Snapshot(id, after, body)) <==> steps <= 1
  {}

  /** In every run, a pass after event `n` can write a task over its record as of event `i` exactly when
      no more than one version step lies between: two single ones are as bad as one of two. */
  lemma WritableLaterIff(
    w: World, cfg: Config, run: Run, i: nat, n: nat, t: TaskId, stored: map<S.Id, S.Task>, body: Task -> string)
    requires i <= n <= |run| && t in After(w, cfg, run, i).tasks
    requires t in stored && stored[t] == Snapshot(t, After(w, cfg, run, i).tasks[t], body)
    ensures t in After(w, cfg, run, n).tasks
    ensures S.Accepts(stored, Snapshot(t, After(w, cfg, run, n).tasks[t], body))
      <==> VersionsBetween(w, cfg, run, i, n, t) <= 1
  {
    VersionsCounted(w, cfg, run, i, n, t);
    TakenIff(t, After(w, cfg, run, i).tasks[t], After(w, cfg, run, n).tasks[t], VersionsBetween(w, cfg, run, i, n, t), stored, body);
  }

  lemma {:induction false} VersionsGrow(w: World, cfg: Config, run: Run, i: nat, n: nat, t: TaskId)
    requires i <= n <= |run| && t in After(w, cfg, run, i).tasks
    ensures t in After(w, cfg, run, n).tasks
    ensures After(w, cfg, run, n).tasks[t].version >= After(w, cfg, run, i).tasks[t].version
  {
    if n > i {
      VersionsGrow(w, cfg, run, i, n - 1, t);
      VersionSteps(After(w, cfg, run, n - 1), cfg, run[n - 1], t);
    }
  }

  /** What successive persistence passes write of task `t`: its record as of the named event counts. */
  ghost predicate Writes(
    ops: seq<S.Op>, w: World, cfg: Config, run: Run, i: nat, t: TaskId, body: Task -> string)
    requires i <= |run|
  {
    forall m :: 0 <= m < |ops| ==>
      && ops[m].SetTask?
      && (ops[m].task.id == t ==> exists k :: i <= k <= |run| && IsRecord(ops[m].task, w, cfg, run, k, t, body))
  }

  ghost predicate IsRecord(r: S.Task, w: World, cfg: Config, run: Run, k: nat, t: TaskId, body: Task -> string)
    requires k <= |run|
  {
    t in After(w, cfg, run, k).tasks && r == Snapshot(t, After(w, cfg, run, k).tasks[t], body)
  }

  lemma JumpsByTwo(w: World, cfg: Config, run: Run, i: nat, t: TaskId)
    requires i < |run| && t in After(w, cfg, run, i).tasks
    requires JumpsNow(After(w, cfg, run, i), cfg, run[i], t)
    ensures t in After(w, cfg, run, i + 1).tasks
    ensures After(w, cfg, run, i + 1).tasks[t].version == After(w, cfg, run, i).tasks[t].version + 2
  {
    VersionSteps(After(w, cfg, run, i), cfg, run[i], t);
  }

  lemma JumpsAhead(w: World, cfg: Config, run: Run, i: nat, k: nat, t: TaskId, body: Task -> string)
    requires i < k <= |run| && t in After(w, cfg, run, i).tasks
    requires JumpsNow(After(w, cfg, run, i), cfg, run[i], t)
    ensures t in After(w, cfg, run, k).tasks
    ensures S.Rank(Snapshot(t, After(w, cfg, run, k).tasks[t], body).version)
         >= S.Rank(Snapshot(t, After(w, cfg, run, i).tasks[t], body).version) + 2
  {
    JumpsByTwo(w, cfg, run, i, t);
    VersionsGrow(w, cfg, run, i + 1, k, t);
  }

  /** Once a stored task is updated and moved in one event, no later record of it is ever
      taken: whatever is written of any tasks in whatever order, the stored record stands still. */
  lemma NeverWrittenAgain(
    w: World, cfg: Config, run: Run, i: nat, t: TaskId, body: Task -> string, ts: S.Tasks, ops: seq<S.Op>, n: nat)
    requires i < |run| && t in After(w, cfg, run, i).tasks && JumpsNow(After(w, cfg, run, i), cfg, run[i], t)
    requires t in ts.all && IsRecord(ts.all[t], w, cfg, run, i, t, body)
    requires n <= |ops| && Writes(ops, w, cfg, run, i + 1, t, body)
    ensures t in S.After(ts, ops, n).all && S.After(ts, ops, n).all[t] == ts.all[t]
    ensures forall k :: i < k <= |run| && t in After(w, cfg, run, k).tasks ==>
      !S.Accepts(S.After(ts, ops, n).all, Snapshot(t, After(w, cfg, run, k).tasks[t], body))
  {
    forall m | 0 <= m < n && ops[m].task.id == t
      ensures S.Rank(ops[m].task.version) >= S.Rank(ts.all[t].version) + 2
    {
      var k :| i + 1 <= k <= |run| && IsRecord(ops[m].task, w, cfg, run, k, t, body);
      JumpsAhead(w, cfg, run, i, k, t, body);
    }
    S.SkippedVersionNeverRecovers(ts, ops, n, t);
    forall k | i < k <= |run| && t in After(w, cfg, run, k).tasks
      ensures !S.Accepts(S.After(ts, ops, n).all, Snapshot(t, After(w, cfg, run, k).tasks[t], body))
    {
      JumpsAhead(w, cfg, run, i, k, t, body);
    }
  }
}
