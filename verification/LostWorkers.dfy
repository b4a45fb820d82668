/** How workers are lost: failed hand-overs strand slots until nothing more can be sent to one worker, or
    to any. */
module LostWorkers {
  import opened Prelude
  import opened TaskStates
  import opened JobControl
  import opened JobRuns
  import opened JobOwnership
  import opened Witnesses
  import opened StrandedSlots
  import C = Concurrency

  /** Handing a new job of `t` to `v` fails. */
  function FailedTo(t: TaskId, s: Stage, v: Worker, j: JobId): Event {
    At(0, DispatchJob(t, Request(s, Some(v), true, j, SubmissionFailed)))
  }

  /** Hand-overs to these workers have failed, and nothing else has happened. */
  ghost predicate OnlyFailures(w: World, now: World, cfg: Config, names: seq<Worker>) {
    && Consistent(now, cfg) && now.tasks == w.tasks
    && (forall t :: t in now.tasks ==> now.tasks[t].activeJob.None?)
    && |now.slots.active| == |names|
    && forall v {:trigger now.slots.Of(v)} :: |now.slots.Of(v)| == multiset(names)[v]
  }

  /** No worker, and not all together, can have more jobs stranded than that. */
  predicate WithinLimits(cfg: Config, names: seq<Worker>) {
    |names| <= cfg.slots.maxGlobal && forall v :: v in names ==> multiset(names)[v] <= cfg.slots.maxPerWorker
  }

  lemma SlotAdded(slots: C.Slots, j: JobId, v: Worker, stage: string, now: int, u: Worker)
    requires slots.Partition() && j !in slots.active
    ensures |slots.Start(j, v, stage, now).Of(u)| == |slots.Of(u)| + if u == v then 1 else 0
  {
    var after, before := slots.Start(j, v, stage, now).Of(u), slots.Of(u);
    assert j !in before && after == if u == v then before + {j} else before;
  }

  lemma OneSlotMore(slots: C.Slots, j: JobId, v: Worker, stage: string, now: int)
    requires j !in slots.active
    ensures |slots.Start(j, v, stage, now).active| == |slots.active| + 1
  {
    assert slots.Start(j, v, stage, now).active.Keys == slots.active.Keys + {j};
  }

  lemma SlotsAdded(slots: C.Slots, j: JobId, v: Worker, stage: string, now: int, names: seq<Worker>)
    requires slots.Partition() && j !in slots.active && |slots.active| == |names|
    requires forall u {:trigger slots.Of(u)} :: |slots.Of(u)| == multiset(names)[u]
    ensures |slots.Start(j, v, stage, now).active| == |names + [v]|
    ensures forall u {:trigger slots.Start(j, v, stage, now).Of(u)} ::
      |slots.Start(j, v, stage, now).Of(u)| == multiset(names + [v])[u]
  {
    OneSlotMore(slots, j, v, stage, now);
    forall u ensures |slots.Start(j, v, stage, now).Of(u)| == multiset(names + [v])[u] {
      SlotAdded(slots, j, v, stage, now, u);
    }
  }

  lemma FailureAdmitted(w: World, now: World, cfg: Config, t: TaskId, s: Stage, v: Worker, j: JobId, names: seq<Worker>)
    requires OnlyFailures(w, now, cfg, names) && Dispatchable(w, t, s) && j !in now.jobs
    requires WithinLimits(cfg, names + [v])
    ensures DispatchOutcomeOf(now, cfg, t, FailedTo(t, s, v, j).op.request, 0) == Admitted(SubmissionFailed)
    ensures Step(now, cfg, FailedTo(t, s, v, j)) == Admit(now, cfg, t, FailedTo(t, s, v, j).op.request, 0)
  {
    assert v in names + [v] && multiset(names + [v])[v] == multiset(names)[v] + 1;
    assert |now.slots.Of(v)| == multiset(names)[v];
  }

  lemma FailureTakesSlot(now: World, cfg: Config, t: TaskId, q: Request)
    requires t in now.tasks && q.submission.SubmissionFailed?
    ensures var after := Admit(now, cfg, t, q, 0);
      && after.tasks == now.tasks && after.jobs.Keys == now.jobs.Keys + {q.job}
      && after.slots == now.slots.Start(q.job, WorkerFor(q), StageName(q.stage), 0)
  {}

  lemma OneMoreFails(w: World, now: World, cfg: Config, t: TaskId, s: Stage, v: Worker, j: JobId, names: seq<Worker>)
    requires OnlyFailures(w, now, cfg, names) && Dispatchable(w, t, s) && j !in now.jobs
    requires WithinLimits(cfg, names + [v])
    ensures OnlyFailures(w, Step(now, cfg, FailedTo(t, s, v, j)), cfg, names + [v])
    ensures Step(now, cfg, FailedTo(t, s, v, j)).jobs.Keys == now.jobs.Keys + {j}
  {
    FailureAdmitted(w, now, cfg, t, s, v, j, names);
    FailureTakesSlot(now, cfg, t, FailedTo(t, s, v, j).op.request);
    StepKeepsConsistent(now, cfg, FailedTo(t, s, v, j));
    SlotsAdded(now.slots, j, v, StageName(s), 0, names);
  }

  /** Event `i` of the run fails to hand a job of `t` to worker `i` of the list. */
  ghost predicate FailsInTurn(run: Run, t: TaskId, s: Stage, names: seq<Worker>) {
    |run| == |names| && forall i :: 0 <= i < |run| ==> FailsHere(run[i], t, s, names[i])
  }

  predicate FailsHere(e: Event, t: TaskId, s: Stage, v: Worker) {
    e.op.DispatchJob? && e == FailedTo(t, s, v, e.op.request.job)
  }

  ghost predicate LosingRun(w: World, cfg: Config, run: Run, t: TaskId, s: Stage, names: seq<Worker>) {
    Recorded(w, cfg, run) && FailsInTurn(run, t, s, names) && OnlyFailures(w, End(w, cfg, run), cfg, names)
  }

  lemma FailsOnceMore(run: Run, t: TaskId, s: Stage, v: Worker, j: JobId, names: seq<Worker>)
    requires FailsInTurn(run, t, s, names)
    ensures FailsInTurn(run + [FailedTo(t, s, v, j)], t, s, names + [v])
  {}

  lemma LosesOneMore(w: World, cfg: Config, run: Run, t: TaskId, s: Stage, v: Worker, j: JobId, names: seq<Worker>)
    requires LosingRun(w, cfg, run, t, s, names) && Dispatchable(w, t, s) && j !in End(w, cfg, run).jobs
    requires WithinLimits(cfg, names + [v])
    ensures LosingRun(w, cfg, run + [FailedTo(t, s, v, j)], t, s, names + [v])
  {
    OneMoreFails(w, End(w, cfg, run), cfg, t, s, v, j, names);
    OneMore(w, cfg, run, FailedTo(t, s, v, j));
    FailsOnceMore(run, t, s, v, j, names);
  }

  lemma LosesNext(w: World, cfg: Config, run: Run, t: TaskId, s: Stage, names: seq<Worker>, v: Worker) returns (more: Run)
    requires LosingRun(w, cfg, run, t, s, names) && Dispatchable(w, t, s) && WithinLimits(cfg, names + [v])
    ensures LosingRun(w, cfg, more, t, s, names + [v])
  {
    var j := FreshId(End(w, cfg, run).jobs.Keys);
    LosesOneMore(w, cfg, run, t, s, v, j, names);
    more := run + [FailedTo(t, s, v, j)];
  }

  lemma NothingLost(w: World, cfg: Config, t: TaskId, s: Stage)
    requires Start(w)
    ensures LosingRun(w, cfg, [], t, s, [])
  {
    StartIsConsistent(w, cfg);
  }

  lemma FewerWithinLimits(cfg: Config, names: seq<Worker>)
    requires names != [] && WithinLimits(cfg, names)
    ensures WithinLimits(cfg, names[..|names| - 1])
  {
    var fewer := names[..|names| - 1];
    assert names == fewer + [names[|names| - 1]];
    forall v | v in fewer ensures multiset(fewer)[v] <= cfg.slots.maxPerWorker {
      assert v in names && multiset(names)[v] >= multiset(fewer)[v];
    }
  }

  /** From every start hand-overs to any list of workers can fail in turn, within the limits. */
  lemma {:induction false} Loses(w: World, cfg: Config, t: TaskId, s: Stage, names: seq<Worker>) returns (run: Run)
    requires Start(w) && Dispatchable(w, t, s) && WithinLimits(cfg, names)
    ensures LosingRun(w, cfg, run, t, s, names)
  {
    if names == [] {
      NothingLost(w, cfg, t, s);
      run := [];
    } else {
      var fewer, v := names[..|names| - 1], names[|names| - 1];
      assert names == fewer + [v];
      FewerWithinLimits(cfg, names);
      run := Loses(w, cfg, t, s, fewer);
      run := LosesNext(w, cfg, run, t, s, fewer, v);
    }
  }

  lemma StrandedBy(w: World, now: World, cfg: Config, names: seq<Worker>, v: Worker)
    requires OnlyFailures(w, now, cfg, names)
    ensures |StrandedJobs(now)| == |names| && |StrandedAt(now, v)| == multiset(names)[v]
  {
    assert StrandedJobs(now) == now.slots.active.Keys;
    forall j ensures j in StrandedAt(now, v) <==> j in now.slots.Of(v) {}
    assert StrandedAt(now, v) == now.slots.Of(v);
  }

  /** So many failures in a row shut a worker out: its limit, or the limit on all where that is lower. */
  function Fewest(cfg: Config): nat {
    var n := if cfg.slots.maxPerWorker < cfg.slots.maxGlobal then cfg.slots.maxPerWorker else cfg.slots.maxGlobal;
    C.AtLeastZero(n)
  }

  /** From every start and for every worker, a run of so many failed hand-overs after which no
      continuation ever dispatches a job to it. */
  lemma LosesWorker(w: World, cfg: Config, t: TaskId, s: Stage, v: Worker) returns (run: Run)
    requires Start(w) && Dispatchable(w, t, s)
    ensures FreshIds(run) && |run| == Fewest(cfg)
    ensures forall i :: 0 <= i < |run| ==> FailsHere(run[i], t, s, v)
    ensures !CanBeServed(w, cfg, run, v)
  {
    var names := seq(Fewest(cfg), _ => v);
    Repeats(v, Fewest(cfg));
    if names == [] {
      run := [];
    } else {
      run := Loses(w, cfg, t, s, names);
      StrandedBy(w, End(w, cfg, run), cfg, names, v);
    }
    ServedIff(w, cfg, run, v);
  }

  lemma {:induction false} Repeats(v: Worker, n: nat)
    ensures multiset(seq(n, _ => v))[v] == n
  {
    if n > 0 {
      var names := seq(n, _ => v);
      Repeats(v, n - 1);
      assert names == seq(n - 1, _ => v) + [v];
    }
  }

  /** Workers named by their number. */
  function Named(n: nat): seq<Worker> {
    seq(n, i requires i >= 0 => seq(i, _ => 'w'))
  }

  lemma {:induction false} NamedOnce(n: nat, v: Worker)
    ensures multiset(Named(n))[v] <= 1 && (|v| >= n ==> v !in Named(n))
  {
    if n > 0 {
      NamedOnce(n - 1, v);
      assert Named(n) == Named(n - 1) + [seq(n - 1, _ => 'w')];
    }
  }

  /** From every start, as many failed hand-overs as there are slots in all, each to another worker, shut
      every worker out for good, though each has lost no more than one slot. */
  lemma LosesEveryWorker(w: World, cfg: Config, t: TaskId, s: Stage) returns (run: Run)
    requires Start(w) && Dispatchable(w, t, s) && cfg.slots.maxPerWorker >= 1 && cfg.slots.maxGlobal >= 0
    ensures FreshIds(run) && |run| == cfg.slots.maxGlobal
    ensures forall v :: |StrandedAt(End(w, cfg, run), v)| <= 1 && !CanBeServed(w, cfg, run, v)
  {
    var names := Named(cfg.slots.maxGlobal);
    forall v ensures multiset(names)[v] <= 1 {
      NamedOnce(cfg.slots.maxGlobal, v);
    }
    run := Loses(w, cfg, t, s, names);
    forall v ensures |StrandedAt(End(w, cfg, run), v)| <= 1 && !CanBeServed(w, cfg, run, v) {
      StrandedBy(w, End(w, cfg, run), cfg, names, v);
      ServedIff(w, cfg, run, v);
    }
  }
}
