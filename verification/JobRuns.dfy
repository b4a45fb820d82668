/** What every run of dispatches, reports, heartbeats and orphan scans keeps. */
module JobRuns {
  import opened Prelude
  import opened TaskStates
  import opened JobControl
  import opened ReportFields
  import L = Leases
  import C = Concurrency
  import D = DoomLoop
  import O = Orphans

  datatype Op =
    | DispatchJob(task: TaskId, request: Request)
    | Report(task: TaskId, result: Result, random: real)
    | Beat(job: JobId, worker: Worker)
    | OrphanScan(scan: O.Config)

  datatype Event = At(now: int, op: Op)

  type Run = seq<Event>

  ghost function Step(w: World, cfg: Config, e: Event): World {
    match e.op
    case DispatchJob(t, q) => Dispatch(w, cfg, t, q, e.now)
    case Report(t, r, random) => ApplyResult(w, cfg, t, r, random)
    case Beat(j, worker) => Heartbeat(w, cfg, j, worker, e.now)
    case OrphanScan(scan) => Scan(w, scan, e.now)
  }

  ghost function After(w: World, cfg: Config, run: Run, n: nat): World
    requires n <= |run|
  {
    if n == 0 then w else Step(After(w, cfg, run, n - 1), cfg, run[n - 1])
  }

  /** Where runs start: any tasks, none of them with an active job, and nothing else. */
  ghost predicate Start(w: World) {
    && w.jobs == map[] && w.leases == map[] && w.slots == C.EMPTY_SLOTS && w.tracker == map[] && w.visits == map[]
    && forall t :: t in w.tasks ==> w.tasks[t].activeJob.None? && w.tasks[t].rework.None?
  }

  /** Every dispatch draws a job id of its own. */
  ghost predicate FreshIds(run: Run) {
    forall i, k :: 0 <= i < k < |run| && run[i].op.DispatchJob? && run[k].op.DispatchJob?
      ==> run[i].op.request.job != run[k].op.request.job
  }

  // ---------------------------------------------------------------- events of a run

  /** This event dispatches job `j`: its slot and lease are taken. */
  predicate DispatchesNow(w: World, cfg: Config, e: Event, j: JobId) {
    e.op.DispatchJob? && e.op.request.job == j
    && DispatchOutcomeOf(w, cfg, e.op.task, e.op.request, e.now).Admitted?
  }

  ghost function ReportOutcome(w: World, cfg: Config, e: Event): Outcome
    requires e.op.Report?
  {
    OutcomeOf(w, cfg, e.op.task, e.op.result, e.op.random)
  }

  /** This event is an applied report on `j` that ends it, and with that its occupation of a slot. */
  ghost predicate EndsNow(w: World, cfg: Config, e: Event, j: JobId) {
    e.op.Report? && e.op.result.job == j && j in w.jobs
    && ReportOutcome(w, cfg, e).Applied? && Finishes(w, cfg, e.op.task, e.op.result)
  }

  /** The lease goes with any applied report but a worker-reported block, and with a failover whose
      transition is then refused. */
  ghost predicate SettlesNow(w: World, cfg: Config, e: Event, j: JobId) {
    && e.op.Report? && e.op.result.job == j && j in w.jobs
    && ((ReportOutcome(w, cfg, e).Applied? && !Says(e.op.result, ReportBlocked))
        || (ReportOutcome(w, cfg, e).Refused? && FailsOver(w, cfg, e.op.result)))
  }

  ghost predicate Dispatches(w: World, cfg: Config, run: Run, i: nat, j: JobId)
    requires i < |run|
  {
    DispatchesNow(After(w, cfg, run, i), cfg, run[i], j)
  }

  ghost predicate Ends(w: World, cfg: Config, run: Run, i: nat, j: JobId)
    requires i < |run|
  {
    EndsNow(After(w, cfg, run, i), cfg, run[i], j)
  }

  ghost predicate Settles(w: World, cfg: Config, run: Run, i: nat, j: JobId)
    requires i < |run|
  {
    SettlesNow(After(w, cfg, run, i), cfg, run[i], j)
  }

  ghost predicate WasDispatched(w: World, cfg: Config, run: Run, n: nat, j: JobId)
    requires n <= |run|
  {
    n > 0 && (WasDispatched(w, cfg, run, n - 1, j) || Dispatches(w, cfg, run, n - 1, j))
  }

  ghost predicate HasEnded(w: World, cfg: Config, run: Run, n: nat, j: JobId)
    requires n <= |run|
  {
    n > 0 && (HasEnded(w, cfg, run, n - 1, j) || Ends(w, cfg, run, n - 1, j))
  }

  ghost predicate HasSettled(w: World, cfg: Config, run: Run, n: nat, j: JobId)
    requires n <= |run|
  {
    n > 0 && (HasSettled(w, cfg, run, n - 1, j) || Settles(w, cfg, run, n - 1, j))
  }

  // ---------------------------------------------------------------- invariant

  /** Running jobs are known, and run for the worker they went to. */
  ghost predicate SlotsFit(slots: C.Slots, jobs: map<JobId, Job>, cfg: C.Config) {
    && slots.Partition() && slots.WithinCapacity(cfg)
    && forall j :: j in slots.active ==> j in jobs && slots.active[j].worker == jobs[j].worker
  }

  /** Leases are held by the worker the job went to. */
  ghost predicate LeasesFit(leases: L.Table, jobs: map<JobId, Job>) {
    forall j :: j in leases ==> j in jobs && leases[j].owner == jobs[j].worker
  }

  /** No job has more than one recorded transition: only dispatch records one, and once per job. */
  ghost predicate VisitsFit(visits: map<JobId, seq<D.Transition>>, jobs: map<JobId, Job>) {
    forall j :: j in visits ==> j in jobs && |visits[j]| <= 1
  }

  ghost predicate TasksFit(tasks: map<TaskId, Task>, jobs: map<JobId, Job>) {
    forall t :: t in tasks && tasks[t].activeJob.Some? ==>
      tasks[t].activeJob.value in jobs && jobs[tasks[t].activeJob.value].task == t
  }

  ghost predicate PoliciesFit(jobs: map<JobId, Job>) {
    forall j :: j in jobs ==> jobs[j].policy == Some(DefaultPolicy(jobs[j].stage))
  }

  ghost predicate Consistent(w: World, cfg: Config) {
    && SlotsFit(w.slots, w.jobs, cfg.slots)
    && LeasesFit(w.leases, w.jobs)
    && VisitsFit(w.visits, w.jobs)
    && TasksFit(w.tasks, w.jobs)
    && PoliciesFit(w.jobs)
  }

  lemma StartIsConsistent(w: World, cfg: Config)
    requires Start(w)
    ensures Consistent(w, cfg)
  {}

  lemma SlotFreed(slots: C.Slots, jobs: map<JobId, Job>, cfg: C.Config, j: JobId)
    requires SlotsFit(slots, jobs, cfg) && j in jobs
    ensures SlotsFit(slots.Complete(j, jobs[j].worker), jobs, cfg)
  {
    C.CompletionKeepsCapacity(slots, cfg, j, jobs[j].worker);
  }

  lemma SlotTaken(slots: C.Slots, jobs: map<JobId, Job>, cfg: C.Config, j: JobId, job: Job, stage: string, now: int)
    requires SlotsFit(slots, jobs, cfg) && j !in jobs && slots.CanAccept(cfg, job.worker).None?
    ensures SlotsFit(slots.Start(j, job.worker, stage, now), jobs[j := job], cfg)
  {
    C.AdmissionKeepsCapacity(slots, cfg, j, job.worker, stage, now);
  }

  lemma LeaseFreed(leases: L.Table, jobs: map<JobId, Job>, j: JobId)
    requires LeasesFit(leases, jobs) && j in jobs
    ensures ReleaseLease(leases, j, jobs[j].worker) == leases - {j}
    ensures LeasesFit(leases - {j}, jobs)
  {}

  lemma LeaseTaken(leases: L.Table, jobs: map<JobId, Job>, d: int, j: JobId, job: Job, now: int)
    requires LeasesFit(leases, jobs) && j !in jobs
    ensures j !in leases && L.Granted(leases, L.At(now, L.Acquire(j, job.worker)))
    ensures LeasesFit(L.Step(leases, d, L.At(now, L.Acquire(j, job.worker))), jobs[j := job])
    ensures L.Step(leases, d, L.At(now, L.Acquire(j, job.worker))).Keys == leases.Keys + {j}
  {}

  lemma LeaseRenewed(leases: L.Table, jobs: map<JobId, Job>, d: int, j: JobId, worker: Worker, now: int)
    requires LeasesFit(leases, jobs)
    ensures LeasesFit(L.Step(leases, d, L.At(now, L.Heartbeat(j, worker))), jobs)
    ensures L.Step(leases, d, L.At(now, L.Heartbeat(j, worker))).Keys == leases.Keys
  {}

  lemma VisitRecorded(visits: map<JobId, seq<D.Transition>>, jobs: map<JobId, Job>, j: JobId, job: Job, v: D.Transition)
    requires VisitsFit(visits, jobs) && j !in jobs
    ensures j !in visits && VisitsFit(visits[j := [v]], jobs[j := job])
  {}

  lemma TaskChanged(tasks: map<TaskId, Task>, jobs: map<JobId, Job>, t: TaskId, next: Task)
    requires TasksFit(tasks, jobs)
    requires next.activeJob.Some? ==> next.activeJob.value in jobs && jobs[next.activeJob.value].task == t
    ensures TasksFit(tasks[t := next], jobs)
  {}

  lemma JobAdded(tasks: map<TaskId, Task>, jobs: map<JobId, Job>, j: JobId, job: Job)
    requires TasksFit(tasks, jobs) && PoliciesFit(jobs) && j !in jobs
    requires job.policy == Some(DefaultPolicy(job.stage))
    ensures TasksFit(tasks, jobs[j := job]) && PoliciesFit(jobs[j := job])
  {}

  lemma EnactKeepsConsistent(w: World, cfg: Config, t: TaskId, r: Result, o: Outcome)
    requires Consistent(w, cfg) && Possible(w, t, r, o)
    ensures Consistent(Enact(w, t, r, o), cfg)
  {
    if o.Applied? || o.Refused? {
      var job := w.jobs[r.job];
      LeaseFreed(w.leases, w.jobs, r.job);
      SlotFreed(w.slots, w.jobs, cfg.slots, r.job);
      TaskChanged(w.tasks, w.jobs, t, UpdatedTask(w.tasks[t], job.stage, r, o.handling));
    }
  }

  /** Which handlings give the lease back, and which the slot. */
  predicate GivesLeaseBack(o: Outcome) {
    (o.Applied? && FreesLease(o.handling)) || (o.Refused? && o.handling.Failover?)
  }

  lemma FatesAreFields(w: World, cfg: Config, e: Event, j: JobId)
    requires e.op.Report? && e.op.result.job == j
    ensures var o := ReportOutcome(w, cfg, e);
      && (EndsNow(w, cfg, e, j) <==> o.Applied? && FreesSlot(o.handling))
      && (SettlesNow(w, cfg, e, j) <==> GivesLeaseBack(o))
  {}

  lemma EnactFrees(w: World, t: TaskId, r: Result, o: Outcome)
    requires Possible(w, t, r, o)
    requires r.job in w.leases && r.job in w.jobs ==> w.leases[r.job].owner == w.jobs[r.job].worker
    ensures Enact(w, t, r, o).jobs == w.jobs && Enact(w, t, r, o).visits == w.visits
    ensures Enact(w, t, r, o).slots.active.Keys
         == w.slots.active.Keys - if o.Applied? && FreesSlot(o.handling) then {r.job} else {}
    ensures Enact(w, t, r, o).leases.Keys == w.leases.Keys - if GivesLeaseBack(o) then {r.job} else {}
  {}

  lemma AdmitKeepsConsistent(w: World, cfg: Config, t: TaskId, q: Request, now: int)
    requires Consistent(w, cfg) && q.job !in w.jobs
    requires t in w.tasks && w.slots.CanAccept(cfg.slots, WorkerFor(q)).None?
    ensures Consistent(Admit(w, cfg, t, q, now), cfg)
  {
    var job := NewJob(t, q);
    SlotTaken(w.slots, w.jobs, cfg.slots, q.job, job, StageName(q.stage), now);
    LeaseTaken(w.leases, w.jobs, cfg.leaseMs, q.job, job, now);
    VisitRecorded(w.visits, w.jobs, q.job, job, D.Transition(Label(w.tasks[t].state), Label(ActiveState(q.stage))));
    JobAdded(w.tasks, w.jobs, q.job, job);
    TaskChanged(w.tasks, w.jobs[q.job := job], t, DispatchedTask(w.tasks[t], q));
  }

  lemma DispatchKeepsConsistent(w: World, cfg: Config, t: TaskId, q: Request, now: int)
    requires Consistent(w, cfg) && q.job !in w.jobs
    ensures Consistent(Dispatch(w, cfg, t, q, now), cfg)
  {
    match DispatchOutcomeOf(w, cfg, t, q, now)
    case TaskNotFound | WrongState | NoCapacity | LeaseRefused =>
    case Incapable => TaskChanged(w.tasks, w.jobs, t, Moved(w.tasks[t], Blocked));
    case Admitted(_) => AdmitKeepsConsistent(w, cfg, t, q, now);
  }

  lemma DispatchTakes(w: World, cfg: Config, t: TaskId, q: Request, now: int, j: JobId)
    ensures var taken := j == q.job && DispatchOutcomeOf(w, cfg, t, q, now).Admitted?;
            var after := Dispatch(w, cfg, t, q, now);
      && (j in after.jobs <==> j in w.jobs || taken)
      && (j in after.slots.active <==> j in w.slots.active || taken)
      && (j in after.leases <==> j in w.leases || taken)
  {}

  lemma StepKeepsConsistent(w: World, cfg: Config, e: Event)
    requires Consistent(w, cfg)
    requires e.op.DispatchJob? ==> e.op.request.job !in w.jobs
    ensures Consistent(Step(w, cfg, e), cfg)
  {
    match e.op
    case DispatchJob(t, q) => DispatchKeepsConsistent(w, cfg, t, q, e.now);
    case Report(t, r, random) => EnactKeepsConsistent(w, cfg, t, r, OutcomeOf(w, cfg, t, r, random));
    case Beat(j, worker) => LeaseRenewed(w.leases, w.jobs, cfg.leaseMs, j, worker, e.now);
    case OrphanScan(_) =>
  }

  /** One event, seen from one job. */
  lemma StepOnJob(w: World, cfg: Config, e: Event, j: JobId)
    requires LeasesFit(w.leases, w.jobs)
    ensures j in Step(w, cfg, e).jobs <==> j in w.jobs || DispatchesNow(w, cfg, e, j)
    ensures j in Step(w, cfg, e).slots.active
      <==> (j in w.slots.active || DispatchesNow(w, cfg, e, j)) && !EndsNow(w, cfg, e, j)
    ensures j in Step(w, cfg, e).leases
      <==> (j in w.leases || DispatchesNow(w, cfg, e, j)) && !SettlesNow(w, cfg, e, j)
    ensures EndsNow(w, cfg, e, j) || SettlesNow(w, cfg, e, j) ==> j in w.jobs
  {
    match e.op
    case DispatchJob(t, q) => DispatchTakes(w, cfg, t, q, e.now, j);
    case Report(t, r, random) =>
      FatesAreFields(w, cfg, e, r.job);
      EnactFrees(w, t, r, OutcomeOf(w, cfg, t, r, random));
    case Beat(_, _) =>
    case OrphanScan(_) =>
  }

  /** In every run slots and leases stay consistent, neither limit is exceeded, and the jobs known
      are exactly those dispatched. */
  lemma {:induction false} RunStaysConsistent(w: World, cfg: Config, run: Run, n: nat)
    requires n <= |run| && Start(w) && FreshIds(run)
    ensures Consistent(After(w, cfg, run, n), cfg)
    ensures forall j :: j in After(w, cfg, run, n).jobs <==> WasDispatched(w, cfg, run, n, j)
  {
    if n == 0 {
      StartIsConsistent(w, cfg);
    } else {
      RunStaysConsistent(w, cfg, run, n - 1);
      DrawsFreshId(w, cfg, run, n - 1);
      StepKeepsConsistent(After(w, cfg, run, n - 1), cfg, run[n - 1]);
      forall j ensures j in After(w, cfg, run, n).jobs <==> WasDispatched(w, cfg, run, n, j) {
        StepOnJob(After(w, cfg, run, n - 1), cfg, run[n - 1], j);
      }
    }
  }

  lemma {:induction false} WhenDispatched(w: World, cfg: Config, run: Run, n: nat, j: JobId) returns (i: nat)
    requires n <= |run| && WasDispatched(w, cfg, run, n, j)
    ensures i < n && Dispatches(w, cfg, run, i, j)
  {
    i := n - 1;
    if !Dispatches(w, cfg, run, n - 1, j) {
      i := WhenDispatched(w, cfg, run, n - 1, j);
    }
  }

  lemma DrawsFreshId(w: World, cfg: Config, run: Run, n: nat)
    requires n < |run| && FreshIds(run)
    requires forall j :: j in After(w, cfg, run, n).jobs <==> WasDispatched(w, cfg, run, n, j)
    ensures run[n].op.DispatchJob? ==> run[n].op.request.job !in After(w, cfg, run, n).jobs
  {
    if run[n].op.DispatchJob? && run[n].op.request.job in After(w, cfg, run, n).jobs {
      var i := WhenDispatched(w, cfg, run, n, run[n].op.request.job);
    }
  }

  ghost predicate Known(w: World, cfg: Config, run: Run, n: nat, j: JobId)
    requires n <= |run|
  {
    j in After(w, cfg, run, n).jobs
  }

  ghost predicate Occupied(w: World, cfg: Config, run: Run, n: nat, j: JobId)
    requires n <= |run|
  {
    j in After(w, cfg, run, n).slots.active
  }

  ghost predicate Leased(w: World, cfg: Config, run: Run, n: nat, j: JobId)
    requires n <= |run|
  {
    j in After(w, cfg, run, n).leases
  }

  /** One event of a run, seen from one job. */
  lemma EventOnJob(w: World, cfg: Config, run: Run, i: nat, j: JobId)
    requires i < |run| && Start(w) && FreshIds(run)
    ensures Known(w, cfg, run, i, j) <==> WasDispatched(w, cfg, run, i, j)
    ensures Occupied(w, cfg, run, i + 1, j)
      <==> (Occupied(w, cfg, run, i, j) || Dispatches(w, cfg, run, i, j)) && !Ends(w, cfg, run, i, j)
    ensures Leased(w, cfg, run, i + 1, j)
      <==> (Leased(w, cfg, run, i, j) || Dispatches(w, cfg, run, i, j)) && !Settles(w, cfg, run, i, j)
    ensures Ends(w, cfg, run, i, j) || Settles(w, cfg, run, i, j) ==> Known(w, cfg, run, i, j)
    ensures Dispatches(w, cfg, run, i, j) ==> !Known(w, cfg, run, i, j)
  {
    RunStaysConsistent(w, cfg, run, i);
    DrawsFreshId(w, cfg, run, i);
    StepOnJob(After(w, cfg, run, i), cfg, run[i], j);
  }

  /** The occupied slots are exactly the dispatched jobs not yet ended, and the leases exactly the
      dispatched jobs not yet settled. */
  lemma {:induction false} SlotsAndLeasesExact(w: World, cfg: Config, run: Run, n: nat, j: JobId)
    requires n <= |run| && Start(w) && FreshIds(run)
    ensures Occupied(w, cfg, run, n, j) <==> WasDispatched(w, cfg, run, n, j) && !HasEnded(w, cfg, run, n, j)
    ensures Leased(w, cfg, run, n, j) <==> WasDispatched(w, cfg, run, n, j) && !HasSettled(w, cfg, run, n, j)
    ensures HasEnded(w, cfg, run, n, j) || HasSettled(w, cfg, run, n, j) ==> WasDispatched(w, cfg, run, n, j)
  {
    if n > 0 {
      SlotsAndLeasesExact(w, cfg, run, n - 1, j);
      EventOnJob(w, cfg, run, n - 1, j);
    }
  }
}
