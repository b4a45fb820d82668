/** Whole-run facts about who holds a job, for how long, and who notices when nobody does. */
module JobOwnership {
  import opened Prelude
  import opened TaskStates
  import opened JobControl
  import opened JobRuns
  import L = Leases
  import C = Concurrency
  import O = Orphans

  // ---------------------------------------------------------------- the last sign of life

  /** The job's own worker sends a heartbeat. */
  predicate BeatsNow(w: World, e: Event, j: JobId) {
    j in w.jobs && e.op == Beat(j, w.jobs[j].worker)
  }

  ghost predicate HeardAt(w: World, cfg: Config, run: Run, i: nat, j: JobId)
    requires i < |run|
  {
    var before := After(w, cfg, run, i);
    DispatchesNow(before, cfg, run[i], j) || BeatsNow(before, run[i], j)
  }

  /** When the job was last heard of: its dispatch, or its worker's latest heartbeat. */
  ghost function LastHeard(w: World, cfg: Config, run: Run, n: nat, j: JobId): Option<int>
    requires n <= |run|
  {
    if n == 0 then None
    else if HeardAt(w, cfg, run, n - 1, j) then Some(run[n - 1].now)
    else LastHeard(w, cfg, run, n - 1, j)
  }

  ghost predicate LeaseTells(leases: L.Table, d: int, j: JobId, heard: Option<int>) {
    j in leases ==>
      && heard == Some(leases[j].lastHeartbeatAt)
      && leases[j].expiresAt == leases[j].lastHeartbeatAt + d
      && leases[j].orphanedAt.None?
  }

  lemma DispatchLease(w: World, cfg: Config, e: Event, j: JobId, heard: Option<int>)
    requires e.op.DispatchJob? && LeaseTells(w.leases, cfg.leaseMs, j, heard)
    ensures LeaseTells(Step(w, cfg, e).leases, cfg.leaseMs, j, if DispatchesNow(w, cfg, e, j) then Some(e.now) else heard)
  {}

  lemma ReportLease(w: World, cfg: Config, e: Event, j: JobId, heard: Option<int>)
    requires e.op.Report? && LeaseTells(w.leases, cfg.leaseMs, j, heard)
    ensures LeaseTells(Step(w, cfg, e).leases, cfg.leaseMs, j, heard)
  {}

  lemma StepLease(w: World, cfg: Config, e: Event, j: JobId, heard: Option<int>)
    requires LeasesFit(w.leases, w.jobs) && LeaseTells(w.leases, cfg.leaseMs, j, heard)
    ensures LeaseTells(Step(w, cfg, e).leases, cfg.leaseMs, j,
      if DispatchesNow(w, cfg, e, j) || BeatsNow(w, e, j) then Some(e.now) else heard)
  {
    match e.op
    case DispatchJob(_, _) => DispatchLease(w, cfg, e, j, heard);
    case Report(_, _, _) => ReportLease(w, cfg, e, j, heard);
    case Beat(_, _) =>
    case OrphanScan(_) =>
  }

  lemma StepLeaseAt(w: World, cfg: Config, run: Run, i: nat, j: JobId, heard: Option<int>)
    requires i < |run| && Start(w) && FreshIds(run)
    requires LeaseTells(After(w, cfg, run, i).leases, cfg.leaseMs, j, heard)
    ensures LeaseTells(After(w, cfg, run, i + 1).leases, cfg.leaseMs, j,
      if HeardAt(w, cfg, run, i, j) then Some(run[i].now) else heard)
  {
    RunStaysConsistent(w, cfg, run, i);
    StepLease(After(w, cfg, run, i), cfg, run[i], j, heard);
  }

  /** As long as a job has a lease, the lease runs from the last sign of life, and every heartbeat of
      its worker has renewed it. */
  lemma {:induction false} LeaseRunsFromLastSign(w: World, cfg: Config, run: Run, n: nat, j: JobId)
    requires n <= |run| && Start(w) && FreshIds(run)
    ensures LeaseTells(After(w, cfg, run, n).leases, cfg.leaseMs, j, LastHeard(w, cfg, run, n, j))
  {
    if n > 0 {
      LeaseRunsFromLastSign(w, cfg, run, n - 1, j);
      StepLeaseAt(w, cfg, run, n - 1, j, LastHeard(w, cfg, run, n - 1, j));
    }
  }

  // ---------------------------------------------------------------- what the orphan scan is shown

  lemma FlaggedHere(w: World, cfg: Config, scan: O.Config, now: int, t: TaskId, heard: Option<int>)
    requires t in w.tasks && w.tasks[t].activeJob.Some? && ScannedStage(w.tasks[t].state).Some?
    requires TasksFit(w.tasks, w.jobs) && LeaseTells(w.leases, cfg.leaseMs, w.tasks[t].activeJob.value, heard)
    ensures Flagged(w, scan, now, t) <==>
      w.tasks[t].activeJob.value in w.leases && heard.Some? && now - heard.value > O.Patience(scan, cfg.leaseMs)
  {}

  /** In every run the scan flags a task in an active state exactly when its job has not yet been
      settled by a report and its worker has been silent for longer than the shorter of the lease
      and five heartbeat intervals. A worker that keeps within that is flagged by no scan; a settled
      job, a scheduled retry included, is seen by none however long nothing happens. */
  lemma ScanFindsExactlyTheSilent(w: World, cfg: Config, run: Run, n: nat, scan: O.Config, now: int, t: TaskId)
    requires n <= |run| && Start(w) && FreshIds(run)
    requires t in After(w, cfg, run, n).tasks && After(w, cfg, run, n).tasks[t].activeJob.Some?
    requires ScannedStage(After(w, cfg, run, n).tasks[t].state).Some?
    ensures var j := After(w, cfg, run, n).tasks[t].activeJob.value;
      Flagged(After(w, cfg, run, n), scan, now, t) <==>
        && !HasSettled(w, cfg, run, n, j)
        && LastHeard(w, cfg, run, n, j).Some?
        && now - LastHeard(w, cfg, run, n, j).value > O.Patience(scan, cfg.leaseMs)
  {
    var end := After(w, cfg, run, n);
    var j := end.tasks[t].activeJob.value;
    RunStaysConsistent(w, cfg, run, n);
    LeaseRunsFromLastSign(w, cfg, run, n, j);
    SlotsAndLeasesExact(w, cfg, run, n, j);
    FlaggedHere(end, cfg, scan, now, t, LastHeard(w, cfg, run, n, j));
    assert j in end.jobs && WasDispatched(w, cfg, run, n, j);
  }

  // ---------------------------------------------------------------- stranded slots

  /** This event takes a slot of worker `v` for `j`, and handing the job over then fails. */
  predicate StrandsNow(w: World, cfg: Config, e: Event, j: JobId, v: Worker) {
    DispatchesNow(w, cfg, e, j) && WorkerFor(e.op.request) == v && !e.op.request.submission.Submitted?
  }

  ghost predicate Strands(w: World, cfg: Config, run: Run, i: nat, j: JobId, v: Worker)
    requires i < |run|
  {
    StrandsNow(After(w, cfg, run, i), cfg, run[i], j, v)
  }

  /** The job occupies a slot of `v`, and no task points to it. */
  ghost predicate Stranded(w: World, j: JobId, v: Worker) {
    j in w.slots.active && w.slots.active[j].worker == v && forall t :: t in w.tasks ==> w.tasks[t].activeJob != Some(j)
  }

  lemma StrandsOne(w: World, cfg: Config, e: Event, j: JobId, v: Worker)
    requires TasksFit(w.tasks, w.jobs) && j !in w.jobs && StrandsNow(w, cfg, e, j, v)
    ensures Stranded(Step(w, cfg, e), j, v)
  {}

  lemma DispatchLeavesStranded(w: World, cfg: Config, t: TaskId, q: Request, now: int, j: JobId, v: Worker)
    requires Stranded(w, j, v) && q.job != j
    ensures Stranded(Dispatch(w, cfg, t, q, now), j, v)
  {}

  lemma EnactLeavesStranded(w: World, t: TaskId, r: Result, o: Outcome, j: JobId, v: Worker)
    requires Possible(w, t, r, o) && Stranded(w, j, v)
    ensures Stranded(Enact(w, t, r, o), j, v)
  {}

  lemma StepLeavesStranded(w: World, cfg: Config, e: Event, j: JobId, v: Worker)
    requires Stranded(w, j, v) && (e.op.DispatchJob? ==> e.op.request.job != j)
    ensures Stranded(Step(w, cfg, e), j, v)
  {
    match e.op
    case DispatchJob(t, q) => DispatchLeavesStranded(w, cfg, t, q, e.now, j, v);
    case Report(t, r, _) => EnactLeavesStranded(w, t, r, ReportOutcome(w, cfg, e), j, v);
    case Beat(_, _) =>
    case OrphanScan(_) =>
  }

  /** A slot taken for a job that never reached its worker is never given back. */
  lemma {:induction false} StrandedForever(w: World, cfg: Config, run: Run, i: nat, n: nat, j: JobId, v: Worker)
    requires i < n <= |run| && Start(w) && FreshIds(run) && Strands(w, cfg, run, i, j, v)
    ensures Stranded(After(w, cfg, run, n), j, v)
  {
    if n == i + 1 {
      RunStaysConsistent(w, cfg, run, i);
      DrawsFreshId(w, cfg, run, i);
      StrandsOne(After(w, cfg, run, i), cfg, run[i], j, v);
    } else {
      StrandedForever(w, cfg, run, i, n - 1, j, v);
      StepLeavesStranded(After(w, cfg, run, n - 1), cfg, run[n - 1], j, v);
    }
  }

  lemma {:induction false} MoreThan(a: set<JobId>, b: set<JobId>)
    requires a <= b
    ensures |a| <= |b|
  {
    if a != {} {
      var x :| x in a;
      MoreThan(a - {x}, b - {x});
    }
  }

  lemma Full(w: World, cfg: Config, lost: set<JobId>, v: Worker)
    requires w.slots.Partition() && |lost| >= cfg.slots.maxPerWorker
    requires forall j :: j in lost ==> Stranded(w, j, v)
    ensures w.slots.CanAccept(cfg.slots, v).Some?
  {
    assert forall j :: j in lost ==> j in w.slots.Of(v);
    MoreThan(lost, w.slots.Of(v));
  }

  /** Once as many hand-overs to one worker have failed as it has slots, no dispatch to it is ever
      admitted again. */
  lemma WorkerLostForever(
    w: World, cfg: Config, run: Run, n: nat, k: nat, lost: set<JobId>, v: Worker)
    requires n <= k < |run| && Start(w) && FreshIds(run)
    requires |lost| >= cfg.slots.maxPerWorker
    requires forall j :: j in lost ==> exists i :: 0 <= i < n && Strands(w, cfg, run, i, j, v)
    requires run[k].op.DispatchJob? && WorkerFor(run[k].op.request) == v
    ensures !DispatchOutcomeOf(After(w, cfg, run, k), cfg, run[k].op.task, run[k].op.request, run[k].now).Admitted?
  {
    RunStaysConsistent(w, cfg, run, k);
    forall j | j in lost ensures Stranded(After(w, cfg, run, k), j, v) {
      var i :| 0 <= i < n && Strands(w, cfg, run, i, j, v);
      StrandedForever(w, cfg, run, i, k, j, v);
    }
    Full(After(w, cfg, run, k), cfg, lost, v);
  }

  /** And once as many have failed as all workers together have slots, whoever they went to, no dispatch
      is ever admitted again. */
  lemma AllLostForever(w: World, cfg: Config, run: Run, n: nat, k: nat, lost: set<JobId>)
    requires n <= k < |run| && Start(w) && FreshIds(run)
    requires |lost| >= cfg.slots.maxGlobal
    requires forall j :: j in lost ==> exists i, v :: 0 <= i < n && Strands(w, cfg, run, i, j, v)
    requires run[k].op.DispatchJob?
    ensures !DispatchOutcomeOf(After(w, cfg, run, k), cfg, run[k].op.task, run[k].op.request, run[k].now).Admitted?
  {
    forall j | j in lost ensures j in After(w, cfg, run, k).slots.active {
      var i, v :| 0 <= i < n && Strands(w, cfg, run, i, j, v);
      StrandedForever(w, cfg, run, i, k, j, v);
    }
    MoreThan(lost, After(w, cfg, run, k).slots.active.Keys);
  }

  // ---------------------------------------------------------------- a retry is never sent out

  /** The task is in its stage's active state, with `j`, which has no lease any more, as its active job. */
  predicate Waiting(w: World, t: TaskId, j: JobId) {
    && t in w.tasks && w.tasks[t].activeJob == Some(j) && j in w.jobs && j !in w.leases
    && w.tasks[t].state == ActiveState(w.jobs[j].stage)
  }

  lemma ReportLeavesWaiting(w: World, cfg: Config, e: Event)
    requires e.op.Report? && LeasesFit(w.leases, w.jobs)
    requires ReportOutcome(w, cfg, e).Applied?
    requires CountsRetry(ReportOutcome(w, cfg, e).handling) || ReportOutcome(w, cfg, e).handling.Failover?
    ensures Waiting(Step(w, cfg, e), e.op.task, e.op.result.job)
    ensures Step(w, cfg, e).slots == w.slots
  {}

  lemma StepKeepsWaiting(w: World, cfg: Config, e: Event, t: TaskId, j: JobId)
    requires Waiting(w, t, j) && TasksFit(w.tasks, w.jobs) && (e.op.DispatchJob? ==> e.op.request.job !in w.jobs)
    requires !(e.op.Report? && e.op.task == t && ReportOutcome(w, cfg, e).Applied?)
    ensures Waiting(Step(w, cfg, e), t, j) && Step(w, cfg, e).tasks[t] == w.tasks[t]
    ensures j in Step(w, cfg, e).slots.active <==> j in w.slots.active
  {
    match e.op
    case DispatchJob(t', q) => DispatchKeepsWaiting(w, cfg, t', q, e.now, t, j);
    case Report(t', r, _) => assert Step(w, cfg, e) == Enact(w, t', r, ReportOutcome(w, cfg, e));
    case Beat(_, _) =>
    case OrphanScan(_) =>
  }

  lemma DispatchKeepsWaiting(w: World, cfg: Config, t': TaskId, q: Request, now: int, t: TaskId, j: JobId)
    requires Waiting(w, t, j) && q.job !in w.jobs
    ensures Waiting(Dispatch(w, cfg, t', q, now), t, j) && Dispatch(w, cfg, t', q, now).tasks[t] == w.tasks[t]
    ensures j in Dispatch(w, cfg, t', q, now).slots.active <==> j in w.slots.active
  {}

  ghost predicate AppliesTo(w: World, cfg: Config, run: Run, i: nat, t: TaskId)
    requires i < |run|
  {
    run[i].op.Report? && run[i].op.task == t && ReportOutcome(After(w, cfg, run, i), cfg, run[i]).Applied?
  }

  ghost predicate RetriesAt(w: World, cfg: Config, run: Run, i: nat, t: TaskId)
    requires i < |run|
  {
    var o := if run[i].op.Report? then ReportOutcome(After(w, cfg, run, i), cfg, run[i]) else NotFound;
    AppliesTo(w, cfg, run, i, t) && (CountsRetry(o.handling) || o.handling.Failover?)
  }

  lemma StepKeepsWaitingAt(w: World, cfg: Config, run: Run, i: nat, t: TaskId, j: JobId)
    requires i < |run| && Start(w) && FreshIds(run)
    requires Waiting(After(w, cfg, run, i), t, j) && !AppliesTo(w, cfg, run, i, t)
    ensures Waiting(After(w, cfg, run, i + 1), t, j)
    ensures After(w, cfg, run, i + 1).tasks[t] == After(w, cfg, run, i).tasks[t]
    ensures j in After(w, cfg, run, i + 1).slots.active <==> j in After(w, cfg, run, i).slots.active
  {
    RunStaysConsistent(w, cfg, run, i);
    DrawsFreshId(w, cfg, run, i);
    StepKeepsWaiting(After(w, cfg, run, i), cfg, run[i], t, j);
  }

  lemma WaitingRefuses(w: World, cfg: Config, t: TaskId, j: JobId, q: Request, scan: O.Config, now: int)
    requires Waiting(w, t, j)
    ensures DispatchOutcomeOf(w, cfg, t, q, now) == WrongState && !Flagged(w, scan, now, t)
  {}

  lemma {:induction false} WaitsOn(w: World, cfg: Config, run: Run, i: nat, n: nat, t: TaskId, j: JobId)
    requires i <= n <= |run| && Start(w) && FreshIds(run) && Waiting(After(w, cfg, run, i), t, j)
    requires forall m :: i <= m < n ==> !AppliesTo(w, cfg, run, m, t)
    ensures Waiting(After(w, cfg, run, n), t, j)
    ensures After(w, cfg, run, n).tasks[t] == After(w, cfg, run, i).tasks[t]
    ensures j in After(w, cfg, run, n).slots.active <==> j in After(w, cfg, run, i).slots.active
  {
    if n > i {
      WaitsOn(w, cfg, run, i, n - 1, t, j);
      StepKeepsWaitingAt(w, cfg, run, n - 1, t, j);
    }
  }

  lemma RetryLeavesWaitingAt(w: World, cfg: Config, run: Run, i: nat, t: TaskId)
    requires i < |run| && Start(w) && FreshIds(run) && RetriesAt(w, cfg, run, i, t)
    ensures Waiting(After(w, cfg, run, i + 1), t, run[i].op.result.job)
    ensures After(w, cfg, run, i + 1).slots == After(w, cfg, run, i).slots
  {
    RunStaysConsistent(w, cfg, run, i);
    ReportLeavesWaiting(After(w, cfg, run, i), cfg, run[i]);
  }

  /** After a retry or failover is scheduled the task stands still in its active state with the same
      job: every dispatch of it is refused, no scan flags it, and the job keeps its slot if it has one,
      until the next report on the task is applied. */
  lemma RetryIsNeverDispatched(
    w: World, cfg: Config, run: Run, i: nat, n: nat, t: TaskId, q: Request, scan: O.Config, now: int)
    requires i < n <= |run| && Start(w) && FreshIds(run) && RetriesAt(w, cfg, run, i, t)
    requires forall m :: i < m < n ==> !AppliesTo(w, cfg, run, m, t)
    ensures Waiting(After(w, cfg, run, n), t, run[i].op.result.job)
    ensures After(w, cfg, run, n).tasks[t] == After(w, cfg, run, i + 1).tasks[t]
    ensures DispatchOutcomeOf(After(w, cfg, run, n), cfg, t, q, now) == WrongState
    ensures !Flagged(After(w, cfg, run, n), scan, now, t)
    ensures run[i].op.result.job in After(w, cfg, run, n).slots.active
       <==> run[i].op.result.job in After(w, cfg, run, i).slots.active
  {
    RetryLeavesWaitingAt(w, cfg, run, i, t);
    WaitsOn(w, cfg, run, i + 1, n, t, run[i].op.result.job);
    WaitingRefuses(After(w, cfg, run, n), cfg, t, run[i].op.result.job, q, scan, now);
  }
}
