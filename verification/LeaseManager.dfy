/** Job leases: src/domain/lease/lease-manager.ts. Times are milliseconds read from one clock. */
module Leases {
  import opened Prelude

  type JobId = string
  type Owner = string

  datatype Lease = Lease(
    owner: Owner, expiresAt: int, acquiredAt: int, lastHeartbeatAt: int, orphanedAt: Option<int>)

  type Table = map<JobId, Lease>

  datatype Op =
    | Acquire(job: JobId, owner: Owner)
    | Heartbeat(job: JobId, owner: Owner)
    | Release(job: JobId, owner: Owner)
    | Detect(job: JobId)
    | Sweep

  datatype Event = At(now: int, op: Op)

  // ---------------------------------------------------------------- one step

  predicate Expired(l: Lease, now: int) {
    now >= l.expiresAt
  }

  /** Expired and not yet marked as an orphan. */
  predicate Overdue(l: Lease, now: int) {
    l.orphanedAt.None? && Expired(l, now)
  }

  function Mark(l: Lease, now: int): Lease {
    if Overdue(l, now) then l.(orphanedAt := Some(now)) else l
  }

  /** Whether the call at this event succeeds. */
  predicate Granted(t: Table, e: Event) {
    match e.op
    case Acquire(j, o) => j !in t || Expired(t[j], e.now) || t[j].owner == o
    case Heartbeat(j, o) => j in t && t[j].owner == o && t[j].orphanedAt.None?
    case Release(j, o) => j in t && t[j].owner == o
    case Detect(j) => j in t && Expired(t[j], e.now)
    case Sweep => true
  }

  function Step(t: Table, duration: int, e: Event): Table {
    if !Granted(t, e) then t else
    match e.op
    case Acquire(j, o) => t[j := Lease(o, e.now + duration, e.now, e.now, None)]
    case Heartbeat(j, _) => t[j := t[j].(expiresAt := e.now + duration, lastHeartbeatAt := e.now)]
    case Release(j, _) => t - {j}
    case Detect(j) => t[j := Mark(t[j], e.now)]
    case Sweep => map j | j in t :: Mark(t[j], e.now)
  }

  // ---------------------------------------------------------------- the manager

  class LeaseManager {
    const durationMs: int
    const heartbeatIntervalMs: int
    var leases: Table

    constructor (leaseDurationSeconds: int := 300, heartbeatIntervalSeconds: int := 60)
      ensures leases == map[]
      ensures durationMs == leaseDurationSeconds * 1000
      ensures heartbeatIntervalMs == heartbeatIntervalSeconds * 1000
    {
      durationMs := leaseDurationSeconds * 1000;
      heartbeatIntervalMs := heartbeatIntervalSeconds * 1000;
      leases := map[];
    }

    method Acquire(job: JobId, owner: Owner, now: int) returns (r: Option<Lease>)
      modifies this
      ensures leases == Step(old(leases), durationMs, At(now, Op.Acquire(job, owner)))
      ensures r.Some? <==> job !in old(leases) || now >= old(leases)[job].expiresAt || old(leases)[job].owner == owner
      ensures r.Some? ==> r.value == Lease(owner, now + durationMs, now, now, None)
      ensures leases == if r.Some? then old(leases)[job := r.value] else old(leases)
    {
      if job in leases && !Expired(leases[job], now) {
        if leases[job].owner != owner {
          return None;
        }
      }
      var lease := Lease(owner, now + durationMs, now, now, None);
      leases := leases[job := lease];
      r := Some(lease);
    }

    /** On success: the new expiry, when the next heartbeat is due, and the recorded time. */
    method Heartbeat(job: JobId, owner: Owner, now: int) returns (r: Option<(int, int, int)>)
      modifies this
      ensures leases == Step(old(leases), durationMs, At(now, Op.Heartbeat(job, owner)))
      ensures r == if job in old(leases) && old(leases)[job].owner == owner && old(leases)[job].orphanedAt.None?
                   then Some((now + durationMs, now + heartbeatIntervalMs, now)) else None
      ensures leases == if r.None? then old(leases)
                        else old(leases)[job := old(leases)[job].(expiresAt := now + durationMs, lastHeartbeatAt := now)]
    {
      if job !in leases || leases[job].owner != owner {
        return None;
      }
      if leases[job].orphanedAt.Some? {
        return None;
      }
      leases := leases[job := leases[job].(expiresAt := now + durationMs, lastHeartbeatAt := now)];
      r := Some((leases[job].expiresAt, now + heartbeatIntervalMs, leases[job].lastHeartbeatAt));
    }

    method DetectOrphan(job: JobId, now: int) returns (r: Option<Lease>)
      modifies this
      ensures leases == Step(old(leases), durationMs, At(now, Op.Detect(job)))
      ensures r.Some? <==> job in old(leases) && now >= old(leases)[job].expiresAt
      ensures r.Some? ==>
        r.value == old(leases)[job].(orphanedAt := Some(old(leases)[job].orphanedAt.GetOr(now)))
      ensures leases == if r.Some? then old(leases)[job := r.value] else old(leases)
    {
      if job !in leases || !Expired(leases[job], now) {
        return None;
      }
      if leases[job].orphanedAt.Some? {
        return Some(leases[job]);
      }
      leases := leases[job := leases[job].(orphanedAt := Some(now))];
      r := Some(leases[job]);
    }

    method Release(job: JobId, owner: Owner) returns (ok: bool)
      modifies this
      ensures ok <==> job in old(leases) && old(leases)[job].owner == owner
      ensures leases == if ok then old(leases) - {job} else old(leases)
      ensures forall now :: leases == Step(old(leases), durationMs, At(now, Op.Release(job, owner)))
    {
      if job !in leases || leases[job].owner != owner {
        return false;
      }
      leases := leases - {job};
      ok := true;
    }

    /** The overdue jobs, each listed once; nothing is marked. */
    method GetExpiredLeases(now: int) returns (jobs: seq<JobId>)
      ensures Enumerates(jobs, OverdueJobs(leases, now))
      ensures forall j :: j in jobs <==> j in leases && now >= leases[j].expiresAt && leases[j].orphanedAt.None?
    {
      var keys := Enumerate(leases.Keys);
      jobs := [];
      for i := 0 to |keys|
        invariant forall j :: j in jobs <==> j in keys[..i] && Overdue(leases[j], now)
        invariant forall a, b :: 0 <= a < b < |jobs| ==> jobs[a] != jobs[b]
      {
        if Overdue(leases[keys[i]], now) {
          jobs := jobs + [keys[i]];
        }
      }
    }

    method CheckAndMarkExpired(now: int) returns (jobs: seq<JobId>)
      modifies this
      ensures leases == Step(old(leases), durationMs, At(now, Sweep))
      ensures Enumerates(jobs, OverdueJobs(old(leases), now))
      ensures forall j :: j in jobs <==>
        j in old(leases) && now >= old(leases)[j].expiresAt && old(leases)[j].orphanedAt.None?
      ensures leases.Keys == old(leases).Keys
      ensures forall j :: j in leases ==>
        leases[j] == if j in jobs then old(leases)[j].(orphanedAt := Some(now)) else old(leases)[j]
    {
      var rest := leases.Keys;
      jobs := [];
      while rest != {}
        invariant rest <= leases.Keys == old(leases).Keys
        invariant forall j :: j in jobs <==> j in leases && j !in rest && Overdue(old(leases)[j], now)
        invariant forall a, b :: 0 <= a < b < |jobs| ==> jobs[a] != jobs[b]
        invariant forall j :: j in leases ==> leases[j] == if j in rest then old(leases)[j] else Mark(old(leases)[j], now)
        decreases rest
      {
        var j :| j in rest;
        rest := rest - {j};
        if Overdue(leases[j], now) {
          leases := leases[j := leases[j].(orphanedAt := Some(now))];
          jobs := jobs + [j];
        }
      }
    }
  }

  function OverdueJobs(t: Table, now: int): set<JobId> {
    set j | j in t && Overdue(t[j], now)
  }

  // ---------------------------------------------------------------- runs

  type Run = seq<Event>

  ghost predicate Chronological(run: Run) {
    forall i, j :: 0 <= i < j < |run| ==> run[i].now <= run[j].now
  }

  /** The table after the first `n` events. */
  ghost function After(t: Table, duration: int, run: Run, n: nat): Table
    requires n <= |run|
  {
    if n == 0 then t else Step(After(t, duration, run, n - 1), duration, run[n - 1])
  }

  /** Event `i` of the run is this call, and it succeeds. */
  ghost predicate Succeeds(t: Table, duration: int, run: Run, i: nat, op: Op)
    requires i < |run|
  {
    run[i].op == op && Granted(After(t, duration, run, i), run[i])
  }

  /** Event `i` hands `o` the lease on `j`, or extends it. */
  ghost predicate Holds(t: Table, duration: int, run: Run, i: nat, j: JobId, o: Owner)
    requires i < |run|
  {
    Succeeds(t, duration, run, i, Op.Acquire(j, o)) || Succeeds(t, duration, run, i, Op.Heartbeat(j, o))
  }

  lemma {:induction false} KeptUntilExpiry(
    t: Table, d: int, run: Run, i: nat, n: nat, j: JobId, o: Owner)
    requires Chronological(run) && i < n <= |run|
    requires Holds(t, d, run, i, j, o)
    requires forall m | i < m < n :: !Succeeds(t, d, run, m, Op.Release(j, o))
    ensures
      var now := After(t, d, run, n);
      || (j in now && now[j].owner == o && now[j].expiresAt >= run[i].now + d)
      || run[n - 1].now >= run[i].now + d
  {
    if n > i + 1 {
      KeptUntilExpiry(t, d, run, i, n - 1, j, o);
      assert run[n - 2].now <= run[n - 1].now && run[i].now <= run[n - 1].now;
      assert !Succeeds(t, d, run, n - 1, Op.Release(j, o));
    }
  }

  /** Once `o` was granted an expiry on `j`, another owner gets the job only at or after that
      expiry, unless `o` gave the lease back in between. */
  lemma LeaseSafety(t: Table, d: int, run: Run, i: nat, k: nat, j: JobId, o: Owner, other: Owner)
    requires Chronological(run) && i < k < |run|
    requires Holds(t, d, run, i, j, o)
    requires other != o && Succeeds(t, d, run, k, Op.Acquire(j, other))
    ensures run[k].now >= run[i].now + d
         || exists m :: i < m < k && Succeeds(t, d, run, m, Op.Release(j, o))
  {
    if forall m | i < m < k :: !Succeeds(t, d, run, m, Op.Release(j, o)) {
      KeptUntilExpiry(t, d, run, i, k, j, o);
      assert run[k - 1].now <= run[k].now;
    }
  }

  lemma {:induction false} NotTheOwner(t: Table, d: int, run: Run, i: nat, n: nat, j: JobId, o: Owner)
    requires i <= n <= |run|
    requires j !in After(t, d, run, i) || After(t, d, run, i)[j].owner != o
    requires forall m | i <= m < n :: !Succeeds(t, d, run, m, Op.Acquire(j, o))
    ensures j !in After(t, d, run, n) || After(t, d, run, n)[j].owner != o
  {
    if n > i {
      NotTheOwner(t, d, run, i, n - 1, j, o);
      assert !Succeeds(t, d, run, n - 1, Op.Acquire(j, o));
    }
  }

  /** After a takeover the former owner's heartbeats and releases are refused until it acquires again. */
  lemma FormerOwnerRefused(t: Table, d: int, run: Run, k: nat, n: nat, j: JobId, o: Owner, other: Owner)
    requires k < n < |run| && other != o && Succeeds(t, d, run, k, Op.Acquire(j, other))
    requires forall m | k < m < n :: !Succeeds(t, d, run, m, Op.Acquire(j, o))
    ensures !Succeeds(t, d, run, n, Op.Heartbeat(j, o)) && !Succeeds(t, d, run, n, Op.Release(j, o))
  {
    NotTheOwner(t, d, run, k + 1, n, j, o);
  }

  // ---------------------------------------------------------------- orphan marks

  /** A mark is only ever set on an expired lease, and expiry does not move afterwards. */
  ghost predicate MarksAreLate(t: Table) {
    forall j :: j in t && t[j].orphanedAt.Some? ==> t[j].expiresAt <= t[j].orphanedAt.value
  }

  lemma {:induction false} MarksStayLate(t: Table, d: int, run: Run, n: nat)
    requires n <= |run| && MarksAreLate(t)
    ensures MarksAreLate(After(t, d, run, n))
  {
    if n > 0 {
      MarksStayLate(t, d, run, n - 1);
    }
  }

  lemma {:induction false} MarkedUntilAcquired(t: Table, d: int, run: Run, i: nat, n: nat, j: JobId)
    requires i <= n <= |run|
    requires j !in After(t, d, run, i) || After(t, d, run, i)[j].orphanedAt.Some?
    requires forall m, o | i <= m < n :: !Succeeds(t, d, run, m, Op.Acquire(j, o))
    ensures j !in After(t, d, run, n) || After(t, d, run, n)[j].orphanedAt.Some?
  {
    if n > i {
      MarkedUntilAcquired(t, d, run, i, n - 1, j);
      var e := run[n - 1];
      if e.op.Acquire? && e.op.job == j {
        assert !Succeeds(t, d, run, n - 1, Op.Acquire(j, e.op.owner));
      }
    }
  }

  /** A sweep leaves nothing overdue at its own instant. Until a fresh acquire, a job it returned
      is returned by no later sweep and accepts no heartbeat. */
  lemma SweepReturnsOnce(t: Table, d: int, run: Run, i: nat, k: nat, j: JobId, o: Owner)
    requires i < k < |run| && run[i].op == Sweep
    requires j in OverdueJobs(After(t, d, run, i), run[i].now)
    requires forall m, p | i < m < k :: !Succeeds(t, d, run, m, Op.Acquire(j, p))
    ensures OverdueJobs(After(t, d, run, i + 1), run[i].now) == {}
    ensures forall now :: j !in OverdueJobs(After(t, d, run, k), now)
    ensures !Succeeds(t, d, run, k, Op.Heartbeat(j, o))
  {
    MarkedUntilAcquired(t, d, run, i + 1, k, j);
  }

  // ---------------------------------------------------------------- the last sign of life

  /** When the lease on `j` was last taken or renewed, read off the run alone. */
  ghost function LastSignOfLife(t: Table, d: int, run: Run, n: nat, j: JobId): Option<int>
    requires n <= |run|
  {
    if n == 0 then None
    else if (run[n - 1].op.Acquire? || run[n - 1].op.Heartbeat?) && run[n - 1].op.job == j
            && Granted(After(t, d, run, n - 1), run[n - 1])
    then Some(run[n - 1].now)
    else LastSignOfLife(t, d, run, n - 1, j)
  }

  lemma {:induction false} LeaseReflectsLastSign(d: int, run: Run, n: nat, j: JobId)
    requires n <= |run| && j in After(map[], d, run, n)
    ensures var l := After(map[], d, run, n)[j];
      && LastSignOfLife(map[], d, run, n, j) == Some(l.lastHeartbeatAt)
      && l.expiresAt == l.lastHeartbeatAt + d
  {
    var before := After(map[], d, run, n - 1);
    if j in before {
      LeaseReflectsLastSign(d, run, n - 1, j);
    }
  }

  /** In every run anyone may take a job over exactly when it is not leased, or its worker has given no
      sign of life for one duration; its own worker may take it at any time. */
  lemma TakenOverIff(d: int, run: Run, n: nat, j: JobId, o: Owner, now: int)
    requires n <= |run|
    ensures var t := After(map[], d, run, n);
            var heard := LastSignOfLife(map[], d, run, n, j);
            var after := Step(t, d, At(now, Acquire(j, o)));
      (j in after && after[j] == Lease(o, now + d, now, now, None)) <==>
        || j !in t || t[j].owner == o || (heard.Some? && now - heard.value >= d)
  {
    var t := After(map[], d, run, n);
    if j in t {
      LeaseReflectsLastSign(d, run, n, j);
    }
  }

  /** A sweep marks exactly the leases whose expiry is reached, and a check the one it looks at; a mark
      once set stays. */
  lemma MarksAreSet(t: Table, d: int, now: int, j: JobId)
    requires j in t
    ensures var marked := if now >= t[j].expiresAt && t[j].orphanedAt.None? then t[j].(orphanedAt := Some(now)) else t[j];
      && Step(t, d, At(now, Sweep)).Keys == t.Keys && Step(t, d, At(now, Sweep))[j] == marked
      && Step(t, d, At(now, Detect(j))) == t[j := marked]
  {}
}
