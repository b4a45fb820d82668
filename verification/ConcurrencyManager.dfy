/** Worker slots, job queues, resource locks and optimistic versions:
    src/domain/concurrency/concurrency-manager.ts. */
module Concurrency {
  import opened Prelude

  type JobId = string
  type TaskId = string
  type WorkerId = string
  type ResourceKey = string

  datatype Config = Config(maxPerWorker: int, maxGlobal: int, defaultLockSeconds: int)

  const DEFAULT_CONFIG := Config(20, 200, 300)

  // ---------------------------------------------------------------- slots

  datatype JobRecord = JobRecord(worker: WorkerId, stage: string, startedAt: int)

  /** The global table of running jobs and the per-worker index over it. */
  datatype Slots = Slots(active: map<JobId, JobRecord>, perWorker: map<WorkerId, set<JobId>>)
  {
    function Of(w: WorkerId): set<JobId> {
      if w in perWorker then perWorker[w] else {}
    }

    /** The per-worker sets split the running jobs by worker. */
    ghost predicate Partition() {
      forall w, j {:trigger j in Of(w)} :: j in Of(w) <==> j in active && active[j].worker == w
    }

    ghost predicate WithinCapacity(cfg: Config) {
      && |active| <= AtLeastZero(cfg.maxGlobal)
      && forall w :: |Of(w)| <= AtLeastZero(cfg.maxPerWorker)
    }

    function CanAccept(cfg: Config, w: WorkerId): Option<Refusal> {
      if |active| >= cfg.maxGlobal then Some(GlobalCapacityExceeded)
      else if |Of(w)| >= cfg.maxPerWorker then Some(WorkerCapacityExceeded)
      else None
    }

    function Start(j: JobId, w: WorkerId, stage: string, now: int): Slots {
      Slots(active[j := JobRecord(w, stage, now)], perWorker[w := Of(w) + {j}])
    }

    function Complete(j: JobId, w: WorkerId): Slots {
      Slots(active - {j}, if w in perWorker then perWorker[w := Of(w) - {j}] else perWorker)
    }
  }

  const EMPTY_SLOTS := Slots(map[], map[])

  function AtLeastZero(n: int): int {
    if n < 0 then 0 else n
  }

  datatype Refusal = GlobalCapacityExceeded | WorkerCapacityExceeded

  /** Starting a job keeps the two tables in step exactly when it is not running for another worker. */
  lemma StartKeepsPartitionIff(s: Slots, j: JobId, w: WorkerId, stage: string, now: int)
    requires s.Partition()
    ensures s.Start(j, w, stage, now).Partition() <==> (j in s.active ==> s.active[j].worker == w)
  {
    var t := s.Start(j, w, stage, now);
    assert forall v {:trigger t.Of(v)} :: t.Of(v) == if v == w then s.Of(w) + {j} else s.Of(v);
    if j in s.active && s.active[j].worker != w {
      assert j in s.Of(s.active[j].worker);
      assert j in t.Of(s.active[j].worker);
    }
  }

  /** Ending a job keeps them in step exactly when the caller names the worker that runs it. */
  lemma CompleteKeepsPartitionIff(s: Slots, j: JobId, w: WorkerId)
    requires s.Partition()
    ensures s.Complete(j, w).Partition() <==> (j in s.active ==> s.active[j].worker == w)
  {
    var t := s.Complete(j, w);
    assert forall v {:trigger t.Of(v)} :: t.Of(v) == if v == w then s.Of(w) - {j} else s.Of(v);
    if j in s.active && s.active[j].worker != w {
      assert j in s.Of(s.active[j].worker);
      assert j in t.Of(s.active[j].worker);
    }
  }

  /** With the default limits: a worker takes twenty jobs, all together two hundred. */
  lemma DefaultCapacity(s: Slots, w: WorkerId)
    ensures s.CanAccept(DEFAULT_CONFIG, w) ==
      if |s.active| >= 200 then Some(GlobalCapacityExceeded)
      else if |s.Of(w)| >= 20 then Some(WorkerCapacityExceeded) else None
  {}

  /** A fresh job admitted by `CanAccept` never takes the manager over either limit. */
  lemma AdmissionKeepsCapacity(s: Slots, cfg: Config, j: JobId, w: WorkerId, stage: string, now: int)
    requires s.Partition() && s.WithinCapacity(cfg)
    requires s.CanAccept(cfg, w).None? && j !in s.active
    ensures s.Start(j, w, stage, now).Partition()
    ensures s.Start(j, w, stage, now).WithinCapacity(cfg)
  {
    StartKeepsPartitionIff(s, j, w, stage, now);
    var t := s.Start(j, w, stage, now);
    assert j !in s.Of(w);
    assert t.active.Keys == s.active.Keys + {j};
    forall v ensures |t.Of(v)| <= AtLeastZero(cfg.maxPerWorker) {
      assert t.Of(v) == if v == w then s.Of(w) + {j} else s.Of(v);
    }
  }

  lemma CompletionKeepsCapacity(s: Slots, cfg: Config, j: JobId, w: WorkerId)
    requires s.Partition() && s.WithinCapacity(cfg) && (j in s.active ==> s.active[j].worker == w)
    ensures s.Complete(j, w).Partition() && s.Complete(j, w).WithinCapacity(cfg)
  {
    CompleteKeepsPartitionIff(s, j, w);
    var t := s.Complete(j, w);
    assert t.active.Keys == s.active.Keys - {j};
    forall v ensures |t.Of(v)| <= AtLeastZero(cfg.maxPerWorker) {
      assert t.Of(v) == s.Of(v) || t.Of(v) == s.Of(v) - {j};
    }
  }

  // ---------------------------------------------------------------- resource locks

  datatype LockType = TaskLock | RepoBranch | Environment | PublishTarget

  datatype Lock = Lock(kind: LockType, owner: JobId, task: TaskId, acquiredAt: int, expiresAt: int)

  type Locks = map<ResourceKey, Lock>

  datatype LockOp =
    | Acquire(key: ResourceKey, kind: LockType, job: JobId, task: TaskId, seconds: Option<int>)
    | Release(key: ResourceKey, job: JobId)
    | ReleaseAll(job: JobId)
    | Cleanup

  datatype LockEvent = At(now: int, op: LockOp)

  function Unexpired(l: Locks, now: int): Locks {
    map k | k in l && now < l[k].expiresAt :: l[k]
  }

  predicate LockGranted(l: Locks, e: LockEvent) {
    match e.op
    case Acquire(k, _, _, _, _) => k !in Unexpired(l, e.now)
    case Release(k, j) => k in l && l[k].owner == j
    case ReleaseAll(_) => true
    case Cleanup => true
  }

  function NewLock(cfg: Config, e: LockEvent): Lock
    requires e.op.Acquire?
  {
    Lock(e.op.kind, e.op.job, e.op.task, e.now,
         e.now + e.op.seconds.GetOr(cfg.defaultLockSeconds) * 1000)
  }

  function OwnedByOthers(l: Locks, j: JobId): Locks {
    map k | k in l && l[k].owner != j :: l[k]
  }

  function LockStep(l: Locks, cfg: Config, e: LockEvent): Locks {
    match e.op
    case Acquire(k, _, _, _, _) =>
      var live := Unexpired(l, e.now);
      if k in live then live else live[k := NewLock(cfg, e)]
    case Release(k, j) => if LockGranted(l, e) then l - {k} else l
    case ReleaseAll(j) => OwnedByOthers(l, j)
    case Cleanup => Unexpired(l, e.now)
  }

  type LockRun = seq<LockEvent>

  ghost predicate Chronological(run: LockRun) {
    forall i, j :: 0 <= i < j < |run| ==> run[i].now <= run[j].now
  }

  ghost function LocksAfter(l: Locks, cfg: Config, run: LockRun, n: nat): Locks
    requires n <= |run|
  {
    if n == 0 then l else LockStep(LocksAfter(l, cfg, run, n - 1), cfg, run[n - 1])
  }

  /** Event `i` acquires `k` for `j`. */
  ghost predicate Takes(l: Locks, cfg: Config, run: LockRun, i: nat, k: ResourceKey, j: JobId)
    requires i < |run|
  {
    run[i].op.Acquire? && run[i].op.key == k && run[i].op.job == j
    && LockGranted(LocksAfter(l, cfg, run, i), run[i])
  }

  /** Event `i` ends a hold of `j` on `k`: a release by the owner, of this lock or of all its locks. */
  predicate GivesUp(run: LockRun, i: nat, k: ResourceKey, j: JobId)
    requires i < |run|
  {
    run[i].op == Release(k, j) || run[i].op == ReleaseAll(j)
  }

  /** So many seconds after it was acquired. */
  function LockEnd(cfg: Config, e: LockEvent): int
    requires e.op.Acquire?
  {
    e.now + 1000 * e.op.seconds.GetOr(cfg.defaultLockSeconds)
  }

  /** By default five minutes. */
  lemma DefaultLock(l: Locks, now: int, k: ResourceKey, kind: LockType, j: JobId, t: TaskId)
    requires k !in l
    ensures LockStep(l, DEFAULT_CONFIG, At(now, Acquire(k, kind, j, t, None)))[k] == Lock(kind, j, t, now, now + 300000)
  {}

  /** Until the owner gives it up or it expires, the very lock that was handed out stays in place. */
  lemma {:induction false} HeldUntilEnd(l: Locks, cfg: Config, run: LockRun, i: nat, n: nat, k: ResourceKey, j: JobId)
    requires Chronological(run) && i < n <= |run| && Takes(l, cfg, run, i, k, j)
    requires forall m | i < m < n :: !GivesUp(run, m, k, j)
    ensures
      || (k in LocksAfter(l, cfg, run, n) && LocksAfter(l, cfg, run, n)[k]
            == Lock(run[i].op.kind, j, run[i].op.task, run[i].now, LockEnd(cfg, run[i])))
      || run[n - 1].now >= LockEnd(cfg, run[i])
  {
    if n > i + 1 {
      HeldUntilEnd(l, cfg, run, i, n - 1, k, j);
      assert run[n - 2].now <= run[n - 1].now;
      assert !GivesUp(run, n - 1, k, j);
    }
  }

  /** Two holds of one key never overlap: the second starts at or after the first one's expiry, or
      after its owner gave it up. Re-acquiring one's own unexpired lock is refused like any other. */
  lemma HoldsDisjoint(l: Locks, cfg: Config, run: LockRun, i: nat, n: nat, k: ResourceKey, j: JobId, other: JobId)
    requires Chronological(run) && i < n < |run|
    requires Takes(l, cfg, run, i, k, j) && Takes(l, cfg, run, n, k, other)
    ensures run[n].now >= run[i].now + 1000 * run[i].op.seconds.GetOr(cfg.defaultLockSeconds) || exists m :: i < m < n && GivesUp(run, m, k, j)
  {
    if forall m | i < m < n :: !GivesUp(run, m, k, j) {
      HeldUntilEnd(l, cfg, run, i, n, k, j);
      assert run[n - 1].now <= run[n].now;
    }
  }

  lemma {:induction false} NotTheHolder(l: Locks, cfg: Config, run: LockRun, i: nat, n: nat, k: ResourceKey, j: JobId)
    requires i <= n <= |run|
    requires k !in LocksAfter(l, cfg, run, i) || LocksAfter(l, cfg, run, i)[k].owner != j
    requires forall m | i <= m < n :: !Takes(l, cfg, run, m, k, j)
    ensures k !in LocksAfter(l, cfg, run, n) || LocksAfter(l, cfg, run, n)[k].owner != j
  {
    if n > i {
      NotTheHolder(l, cfg, run, i, n - 1, k, j);
      assert !Takes(l, cfg, run, n - 1, k, j);
    }
  }

  /** And while it stays in place every other request for the key is refused, from its expiry on the next
      is granted. */
  lemma HeldKeyIsRefused(l: Locks, cfg: Config, run: LockRun, i: nat, n: nat, k: ResourceKey, j: JobId)
    requires Chronological(run) && i < n < |run| && Takes(l, cfg, run, i, k, j)
    requires forall m | i < m < n :: !GivesUp(run, m, k, j)
    requires forall m, other | i < m < n :: !Takes(l, cfg, run, m, k, other)
    requires run[n].op.Acquire? && run[n].op.key == k
    ensures LockGranted(LocksAfter(l, cfg, run, n), run[n]) <==>
      run[n].now >= run[i].now + 1000 * run[i].op.seconds.GetOr(cfg.defaultLockSeconds)
  {
    HeldOrGone(l, cfg, run, i, n, k, j);
    assert run[n - 1].now <= run[n].now;
  }

  lemma {:induction false} HeldOrGone(l: Locks, cfg: Config, run: LockRun, i: nat, n: nat, k: ResourceKey, j: JobId)
    requires Chronological(run) && i < n <= |run| && Takes(l, cfg, run, i, k, j)
    requires forall m | i < m < n :: !GivesUp(run, m, k, j)
    requires forall m, other | i < m < n :: !Takes(l, cfg, run, m, k, other)
    ensures k in LocksAfter(l, cfg, run, n) ==>
      LocksAfter(l, cfg, run, n)[k].expiresAt == LockEnd(cfg, run[i]) && LocksAfter(l, cfg, run, n)[k].owner == j
    ensures k !in LocksAfter(l, cfg, run, n) ==> run[n - 1].now >= LockEnd(cfg, run[i])
  {
    if n > i + 1 {
      HeldOrGone(l, cfg, run, i, n - 1, k, j);
      assert run[n - 2].now <= run[n - 1].now;
      assert !GivesUp(run, n - 1, k, j);
      assert run[n - 1].op.Acquire? ==> !Takes(l, cfg, run, n - 1, k, run[n - 1].op.job);
    }
  }

  /** A late release by a former owner never touches the successor's lock. */
  lemma LateReleaseHarmless(l: Locks, cfg: Config, run: LockRun, i: nat, n: nat, k: ResourceKey, j: JobId, successor: JobId)
    requires i < n < |run| && successor != j && Takes(l, cfg, run, i, k, successor)
    requires forall m | i < m < n :: !Takes(l, cfg, run, m, k, j)
    requires GivesUp(run, n, k, j)
    ensures k in LocksAfter(l, cfg, run, n) ==>
      && k in LocksAfter(l, cfg, run, n + 1)
      && LocksAfter(l, cfg, run, n + 1)[k] == LocksAfter(l, cfg, run, n)[k]
  {
    NotTheHolder(l, cfg, run, i + 1, n, k, j);
  }

  // ---------------------------------------------------------------- optimistic versions

  lemma OneLess(l: Locks, k: ResourceKey)
    requires k in l
    ensures |l - {k}| == |l| - 1
  {
    assert (l - {k}).Keys == l.Keys - {k};
  }

  // ---------------------------------------------------------------- the manager

  class ConcurrencyManager {
    const config: Config
    var active: map<JobId, JobRecord>
    var perWorker: map<WorkerId, set<JobId>>
    var queues: map<WorkerId, seq<JobId>>
    var locks: Locks
    var versions: map<TaskId, int>
    var lockConflicts: map<LockType, nat>
    var updateConflicts: nat

    constructor (config: Config := DEFAULT_CONFIG)
      ensures this.config == config
      ensures SlotTables() == EMPTY_SLOTS && queues == map[] && locks == map[] && versions == map[]
      ensures updateConflicts == 0 && lockConflicts == map[]
    {
      this.config := config;
      active, perWorker, queues, locks, versions := map[], map[], map[], map[], map[];
      lockConflicts := map[];
      updateConflicts := 0;
    }

    function SlotTables(): Slots
      reads this
    {
      Slots(active, perWorker)
    }

    method CanAccept(worker: WorkerId) returns (r: Option<Refusal>)
      ensures r == SlotTables().CanAccept(config, worker)
      ensures r == if |active| >= config.maxGlobal then Some(GlobalCapacityExceeded)
                   else if (if worker in perWorker then |perWorker[worker]| else 0) >= config.maxPerWorker
                   then Some(WorkerCapacityExceeded) else None
    {
      if |active| >= config.maxGlobal {
        return Some(GlobalCapacityExceeded);
      }
      var workerActive := if worker in perWorker then |perWorker[worker]| else 0;
      if workerActive >= config.maxPerWorker {
        return Some(WorkerCapacityExceeded);
      }
      r := None;
    }

    method RecordStart(job: JobId, worker: WorkerId, stage: string, now: int)
      modifies this`active, this`perWorker
      ensures SlotTables() == old(SlotTables()).Start(job, worker, stage, now)
      ensures active == old(active)[job := JobRecord(worker, stage, now)]
      ensures perWorker == old(perWorker)[worker := (if worker in old(perWorker) then old(perWorker)[worker] else {}) + {job}]
    {
      active := active[job := JobRecord(worker, stage, now)];
      if worker !in perWorker {
        perWorker := perWorker[worker := {}];
      }
      perWorker := perWorker[worker := perWorker[worker] + {job}];
    }

    method RecordComplete(job: JobId, worker: WorkerId)
      modifies this`active, this`perWorker
      ensures SlotTables() == old(SlotTables()).Complete(job, worker)
      ensures active == old(active) - {job} && perWorker.Keys == old(perWorker).Keys
      ensures forall w :: w in perWorker ==> perWorker[w] == old(perWorker)[w] - if w == worker then {job} else {}
    {
      active := active - {job};
      if worker in perWorker {
        perWorker := perWorker[worker := perWorker[worker] - {job}];
      }
    }

    function QueueOf(worker: WorkerId): seq<JobId>
      reads this
    {
      if worker in queues then queues[worker] else []
    }

    method Enqueue(job: JobId, worker: WorkerId)
      modifies this`queues
      ensures QueueOf(worker) == old(QueueOf(worker)) + [job]
      ensures forall w | w != worker :: QueueOf(w) == old(QueueOf(w))
    {
      if worker !in queues {
        queues := queues[worker := []];
      }
      queues := queues[worker := queues[worker] + [job]];
    }

    method Dequeue(worker: WorkerId) returns (r: Option<JobId>)
      modifies this`queues
      ensures r.None? <==> old(QueueOf(worker)) == []
      ensures old(QueueOf(worker)) == (if r.Some? then [r.value] else []) + QueueOf(worker)
      ensures forall w | w != worker :: QueueOf(w) == old(QueueOf(w))
    {
      if worker !in queues || |queues[worker]| == 0 {
        return None;
      }
      r := Some(queues[worker][0]);
      queues := queues[worker := queues[worker][1..]];
    }

    method CleanupExpiredLocks(now: int) returns (cleaned: nat)
      modifies this`locks
      ensures locks == Unexpired(old(locks), now)
      ensures forall k :: k in locks <==> k in old(locks) && now < old(locks)[k].expiresAt
      ensures forall k :: k in locks ==> locks[k] == old(locks)[k]
      ensures cleaned == |old(locks)| - |locks|
    {
      var rest := locks.Keys;
      cleaned := 0;
      while rest != {}
        invariant rest <= locks.Keys <= old(locks).Keys
        invariant forall k :: k in locks ==> locks[k] == old(locks)[k]
        invariant forall k :: k in old(locks) && k !in rest ==> (k in locks <==> now < old(locks)[k].expiresAt)
        invariant cleaned + |locks| == |old(locks)|
        decreases rest
      {
        var k :| k in rest;
        rest := rest - {k};
        if now >= locks[k].expiresAt {
          OneLess(locks, k);
          locks := locks - {k};
          cleaned := cleaned + 1;
        }
      }
      assert locks == Unexpired(old(locks), now);
    }

    /** Refused acquisitions per kind of resource; a kind never refused counts zero. */
    function ConflictsOf(kind: LockType): nat
      reads this
    {
      if kind in lockConflicts then lockConflicts[kind] else 0
    }

    /** `lock` is the lock now held, or the one that stands in the way. */
    method AcquireLock(key: ResourceKey, kind: LockType, job: JobId, task: TaskId, seconds: Option<int>, now: int)
      returns (acquired: bool, lock: Lock)
      modifies this`locks, this`lockConflicts
      ensures var e := At(now, Acquire(key, kind, job, task, seconds));
        && locks == LockStep(old(locks), config, e)
        && acquired == LockGranted(old(locks), e)
      ensures acquired <==> key !in old(locks) || now >= old(locks)[key].expiresAt
      ensures key in locks && lock == locks[key]
      ensures lock == if acquired
                      then Lock(kind, job, task, now, now + 1000 * seconds.GetOr(config.defaultLockSeconds))
                      else old(locks)[key]
      ensures forall k | k != key :: k in locks <==> k in old(locks) && now < old(locks)[k].expiresAt
      ensures forall k | k in locks && k != key :: locks[k] == old(locks)[k]
      ensures forall t :: ConflictsOf(t) == old(ConflictsOf(t)) + if !acquired && t == kind then 1 else 0
    {
      var _ := CleanupExpiredLocks(now);
      if key in locks {
        lockConflicts := lockConflicts[kind := ConflictsOf(kind) + 1];
        return false, locks[key];
      }
      lock := Lock(kind, job, task, now, now + seconds.GetOr(config.defaultLockSeconds) * 1000);
      locks := locks[key := lock];
      acquired := true;
    }

    method ReleaseLock(key: ResourceKey, job: JobId) returns (ok: bool)
      modifies this`locks
      ensures forall now :: locks == LockStep(old(locks), config, At(now, Release(key, job)))
      ensures ok <==> key in old(locks) && old(locks)[key].owner == job
      ensures locks == if ok then old(locks) - {key} else old(locks)
    {
      if key !in locks || locks[key].owner != job {
        return false;
      }
      locks := locks - {key};
      ok := true;
    }

    method ReleaseLocksForJob(job: JobId) returns (released: nat)
      modifies this`locks
      ensures forall now :: locks == LockStep(old(locks), config, At(now, ReleaseAll(job)))
      ensures forall k :: k in locks <==> k in old(locks) && old(locks)[k].owner != job
      ensures forall k :: k in locks ==> locks[k] == old(locks)[k]
      ensures released == |old(locks)| - |locks|
    {
      var rest := locks.Keys;
      released := 0;
      while rest != {}
        invariant rest <= locks.Keys <= old(locks).Keys
        invariant forall k :: k in locks ==> locks[k] == old(locks)[k]
        invariant forall k :: k in old(locks) && k !in rest ==> (k in locks <==> old(locks)[k].owner != job)
        invariant released + |locks| == |old(locks)|
        decreases rest
      {
        var k :| k in rest;
        rest := rest - {k};
        if locks[k].owner == job {
          OneLess(locks, k);
          locks := locks - {k};
          released := released + 1;
        }
      }
      assert locks == OwnedByOthers(old(locks), job);
    }

    method CheckAndUpdateVersion(task: TaskId, expected: int, next: int) returns (ok: bool)
      modifies this`versions, this`updateConflicts
      ensures ok <==> task !in old(versions) || old(versions)[task] == expected
      ensures versions == if ok then old(versions)[task := next] else old(versions)
      ensures updateConflicts == old(updateConflicts) + if ok then 0 else 1
    {
      if task in versions && versions[task] != expected {
        updateConflicts := updateConflicts + 1;
        return false;
      }
      versions := versions[task := next];
      ok := true;
    }
  }
}
