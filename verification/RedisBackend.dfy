/** The versioned task store and its indexes: src/store/redis-backend.ts, next to the plain one it
    stands in for, src/store/store-backend.ts. A value is its own serialisation, keys never expire,
    and one call of the script is one step. */
module Store {
  import opened Prelude

  type Id = string
  type State = string

  /** A task's version field: a whole number, or anything else (absent in particular). */
  datatype Version = Whole(n: int) | Missing

  datatype Task = Task(id: Id, state: State, version: Version, body: string)
  datatype Job = Job(id: Id, task: Id, body: string)
  datatype Result = Result(job: Id, body: string)
  type Event = string

  datatype Kind = Audit | Checkpoint | Retrospective | PublishIdempotency
  datatype Record = Record(id: Id, payload: string)

  /** The task records, the id set of each state, and the set of all ids. */
  datatype Tasks = Tasks(all: map<Id, Task>, byState: map<State, set<Id>>, listed: set<Id>)
  {
    /** An id is in the set of state `s` iff its stored task has state `s`, and listed iff stored. */
    ghost predicate Indexed() {
      && (forall id :: id in all ==> all[id].id == id)
      && (forall s, id {:trigger id in Members(byState, s)} ::
            id in Members(byState, s) <==> id in all && all[id].state == s)
      && listed == all.Keys
    }
  }

  /** The job records and the job ids of each task. */
  datatype Jobs = Jobs(all: map<Id, Job>, byTask: map<Id, set<Id>>)
  {
    ghost predicate Indexed() {
      && (forall id :: id in all ==> all[id].id == id)
      && (forall t, id {:trigger id in Members(byTask, t)} ::
            id in Members(byTask, t) <==> id in all && all[id].task == t)
    }
  }

  /** The records of each kind and their ids. */
  datatype Records = Records(all: map<(Kind, Id), Record>, index: map<Kind, set<Id>>)
  {
    ghost predicate Indexed() {
      && (forall key :: key in all ==> all[key].id == key.1)
      && (forall k, id {:trigger id in Members(index, k)} :: id in Members(index, k) <==> (k, id) in all)
    }
  }

  /** Everything stored under one key prefix. */
  datatype Namespace = Namespace(
    tasks: Tasks, jobs: Jobs, records: Records, results: map<Id, Result>, events: map<Id, seq<Event>>)

  const NO_TASKS := Tasks(map[], map[], {})
  const NO_JOBS := Jobs(map[], map[])
  const NO_RECORDS := Records(map[], map[])
  const EMPTY := Namespace(NO_TASKS, NO_JOBS, NO_RECORDS, map[], map[])

  /** The members of a set key; a key that does not exist has none. */
  function Members<K>(m: map<K, set<Id>>, k: K): set<Id> {
    if k in m then m[k] else {}
  }

  function Added<K>(m: map<K, set<Id>>, k: K, id: Id): map<K, set<Id>> {
    m[k := Members(m, k) + {id}]
  }

  function Removed<K>(m: map<K, set<Id>>, k: K, id: Id): map<K, set<Id>> {
    m[k := Members(m, k) - {id}]
  }

  /** The list at a key; a key that does not exist holds the empty one. */
  function LogAt(events: map<Id, seq<Event>>, id: Id): seq<Event> {
    if id in events then events[id] else []
  }

  function WithLog(events: map<Id, seq<Event>>, id: Id, log: seq<Event>): map<Id, seq<Event>> {
    if log == [] then events - {id} else events[id := log]
  }

  // ---------------------------------------------------------------- compare and set

  /** What the version counts as when compared: a missing one counts as zero. */
  function Rank(v: Version): int {
    match v case Whole(n) => n case Missing => 0
  }

  /** The script's answer: the key is free, the very same record is there already, or the stored
      version is exactly the one before. */
  predicate Accepts(tasks: map<Id, Task>, next: Task) {
    next.id in tasks ==>
      var current := tasks[next.id];
      if current.version == next.version then current == next
      else current.version == Whole(Rank(next.version) - 1)
  }

  datatype Op = SetTask(task: Task) | DeleteTask(id: Id)

  predicate Accepted(ts: Tasks, op: Op) {
    op.SetTask? ==> Accepts(ts.all, op.task)
  }

  function Step(ts: Tasks, op: Op): Tasks {
    match op
    case SetTask(next) =>
      if !Accepts(ts.all, next) || (next.id in ts.all && ts.all[next.id] == next) then ts
      else
        var cleared := if next.id in ts.all && ts.all[next.id].state != next.state
                       then Removed(ts.byState, ts.all[next.id].state, next.id) else ts.byState;
        Tasks(ts.all[next.id := next], Added(cleared, next.state, next.id), ts.listed + {next.id})
    case DeleteTask(id) =>
      Tasks(ts.all - {id},
            if id in ts.all then Removed(ts.byState, ts.all[id].state, id) else ts.byState,
            ts.listed - {id})
  }

  /** Any interleaving of any number of writers is some such sequence of calls. */
  function After(ts: Tasks, run: seq<Op>, n: nat): Tasks
    requires n <= |run|
  {
    if n == 0 then ts else Step(After(ts, run, n - 1), run[n - 1])
  }

  lemma StepKeepsIndex(ts: Tasks, op: Op)
    requires ts.Indexed()
    ensures Step(ts, op).Indexed()
  {
    var next := Step(ts, op);
    if next == ts {
    } else if op.SetTask? {
      var t := op.task;
      assert forall s {:trigger Members(next.byState, s)} ::
        Members(next.byState, s) == Members(ts.byState, s) - {t.id} + if s == t.state then {t.id} else {};
    } else {
      assert forall s {:trigger Members(next.byState, s)} ::
        Members(next.byState, s) == Members(ts.byState, s) - {op.id};
    }
  }

  /** In every run the indexes agree with the stored tasks after every accepted, rejected or
      deleting call. */
  lemma {:induction false} IndexesAgree(ts: Tasks, run: seq<Op>, n: nat)
    requires n <= |run| && ts.Indexed()
    ensures After(ts, run, n).Indexed()
  {
    if n > 0 {
      IndexesAgree(ts, run, n - 1);
      StepKeepsIndex(After(ts, run, n - 1), run[n - 1]);
    }
  }

  /** The plain store's step: every call is taken. */
  function PlainStep(tasks: map<Id, Task>, op: Op): map<Id, Task> {
    match op
    case SetTask(t) => tasks[t.id := t]
    case DeleteTask(id) => tasks - {id}
  }

  function PlainAfter(tasks: map<Id, Task>, ops: seq<Op>): map<Id, Task> {
    if ops == [] then tasks else PlainStep(PlainAfter(tasks, ops[..|ops| - 1]), ops[|ops| - 1])
  }

  lemma PlainAppend(tasks: map<Id, Task>, ops: seq<Op>, op: Op)
    ensures PlainAfter(tasks, ops + [op]) == PlainStep(PlainAfter(tasks, ops), op)
  {
    var longer := ops + [op];
    assert longer[..|longer| - 1] == ops;
  }

  /** The calls the script accepts, in order. */
  function AcceptedOps(ts: Tasks, run: seq<Op>, n: nat): seq<Op>
    requires n <= |run|
  {
    if n == 0 then []
    else AcceptedOps(ts, run, n - 1) + if Accepted(After(ts, run, n - 1), run[n - 1]) then [run[n - 1]] else []
  }

  /** Seen through its task map, one step is the plain store's, or none where the call is rejected. */
  lemma RefinesPlainStore(ts: Tasks, op: Op)
    ensures Step(ts, op).all == if Accepted(ts, op) then PlainStep(ts.all, op) else ts.all
  {}

  /** After any run of any number of writers the store holds what the plain store holds after the
      accepted calls alone. */
  lemma {:induction false} RunRefinesPlainStore(ts: Tasks, run: seq<Op>, n: nat)
    requires n <= |run|
    ensures After(ts, run, n).all == PlainAfter(ts.all, AcceptedOps(ts, run, n))
  {
    if n > 0 {
      RunRefinesPlainStore(ts, run, n - 1);
      RefinesPlainStore(After(ts, run, n - 1), run[n - 1]);
      PlainAppend(ts.all, AcceptedOps(ts, run, n - 1), run[n - 1]);
      assert AcceptedOps(ts, run, n - 1) + [] == AcceptedOps(ts, run, n - 1);
    }
  }

  /** How many calls in `run[i..n]` changed the record of `id`. */
  function Changes(ts: Tasks, run: seq<Op>, i: nat, n: nat, id: Id): nat
    requires i <= n <= |run|
  {
    if i == n then 0
    else
      var before, after := After(ts, run, n - 1).all, After(ts, run, n).all;
      Changes(ts, run, i, n - 1, id)
      + if id in before && id in after && before[id] == after[id] then 0 else 1
  }

  /** No lost update: while the key exists, the version counts the changes one by one, so every
      change was made against the record it replaced. */
  lemma {:induction false} VersionCountsChanges(ts: Tasks, run: seq<Op>, i: nat, n: nat, id: Id)
    requires i <= n <= |run| && id in After(ts, run, i).all
    requires forall m | i <= m < n :: run[m] != DeleteTask(id)
    ensures id in After(ts, run, n).all
    ensures Rank(After(ts, run, n).all[id].version)
         == Rank(After(ts, run, i).all[id].version) + Changes(ts, run, i, n, id)
    ensures Changes(ts, run, i, n, id) == 0 ==> After(ts, run, n).all[id] == After(ts, run, i).all[id]
  {
    if n > i {
      VersionCountsChanges(ts, run, i, n - 1, id);
      assert run[n - 1] != DeleteTask(id);
      RefinesPlainStore(After(ts, run, n - 1), run[n - 1]);
    }
  }

  /** Of two different records of one task at one version, at most one is ever accepted; the other
      gets the conflict. */
  lemma OneRecordPerVersion(ts: Tasks, run: seq<Op>, i: nat, k: nat, a: Task, b: Task)
    requires i < k < |run| && run[i] == SetTask(a) && run[k] == SetTask(b)
    requires a.id == b.id && a.version == b.version && a != b
    requires forall m | i < m < k :: run[m] != DeleteTask(a.id)
    ensures !(Accepted(After(ts, run, i), run[i]) && Accepted(After(ts, run, k), run[k]))
  {
    if Accepted(After(ts, run, i), run[i]) {
      RefinesPlainStore(After(ts, run, i), run[i]);
      assert After(ts, run, i + 1).all[a.id] == a;
      VersionCountsChanges(ts, run, i + 1, k, a.id);
    }
  }

  /** Sending the stored record again is accepted and changes nothing. */
  lemma {:induction false} ResendIsIdempotent(ts: Tasks, t: Task)
    requires Accepts(ts.all, t)
    ensures var once := Step(ts, SetTask(t));
      Accepts(once.all, t) && Step(once, SetTask(t)) == once
  {}

  /** A writer that skips a version is refused for good: as long as it moves on from a version more
      than one ahead, no later attempt gets in and the stored record stands still. */
  lemma {:induction false} SkippedVersionNeverRecovers(ts: Tasks, run: seq<Op>, n: nat, id: Id)
    requires n <= |run| && id in ts.all
    requires forall m | 0 <= m < n ::
      run[m].SetTask? && (run[m].task.id == id ==> Rank(run[m].task.version) >= Rank(ts.all[id].version) + 2)
    ensures id in After(ts, run, n).all && After(ts, run, n).all[id] == ts.all[id]
    ensures forall next: Task | next.id == id && Rank(next.version) >= Rank(ts.all[id].version) + 2 ::
      !Accepts(After(ts, run, n).all, next)
  {
    if n > 0 {
      SkippedVersionNeverRecovers(ts, run, n - 1, id);
      var before, op := After(ts, run, n - 1), run[n - 1];
      if op.task.id == id {
        assert !Accepts(before.all, op.task);
        assert Step(before, op) == before;
      } else {
        RefinesPlainStore(before, op);
      }
    }
  }

  // ---------------------------------------------------------------- jobs and records

  function StepJob(js: Jobs, job: Job): Jobs {
    Jobs(js.all[job.id := job], Added(js.byTask, job.task, job.id))
  }

  function StepDeleteJob(js: Jobs, id: Id): Jobs {
    Jobs(js.all - {id}, if id in js.all then Removed(js.byTask, js.all[id].task, id) else js.byTask)
  }

  function StepRecord(rs: Records, kind: Kind, r: Record): Records {
    Records(rs.all[(kind, r.id) := r], Added(rs.index, kind, r.id))
  }

  /** The job index stays exact precisely when a stored job is not moved to another task: the old
      task's set is never cleaned up. */
  lemma JobIndexKeptIff(js: Jobs, job: Job)
    requires js.Indexed()
    ensures StepJob(js, job).Indexed() <==> (job.id in js.all ==> js.all[job.id].task == job.task)
  {
    var next := StepJob(js, job);
    assert forall t {:trigger Members(next.byTask, t)} ::
      Members(next.byTask, t) == Members(js.byTask, t) + if t == job.task then {job.id} else {};
    if job.id in js.all && js.all[job.id].task != job.task {
      assert job.id in Members(js.byTask, js.all[job.id].task);
      assert job.id in Members(next.byTask, js.all[job.id].task);
    }
  }

  /** A job can be read back after it is set, and no more once it is deleted; other jobs stay as they are. */
  lemma JobsReadBack(js: Jobs, job: Job, id: Id)
    ensures StepJob(js, job).all == js.all[job.id := job]
    ensures StepDeleteJob(js, id).all == js.all - {id}
  {}

  lemma DeleteJobKeepsIndex(js: Jobs, id: Id)
    requires js.Indexed()
    ensures StepDeleteJob(js, id).Indexed()
  {
    var next := StepDeleteJob(js, id);
    assert forall t {:trigger Members(next.byTask, t)} ::
      Members(next.byTask, t) == Members(js.byTask, t) - {id};
  }

  lemma RecordIndexKept(rs: Records, kind: Kind, r: Record)
    requires rs.Indexed()
    ensures StepRecord(rs, kind, r).Indexed()
  {
    var next := StepRecord(rs, kind, r);
    assert forall k {:trigger Members(next.index, k)} ::
      Members(next.index, k) == Members(rs.index, k) + if k == kind then {r.id} else {};
  }

  // ---------------------------------------------------------------- listings

  /** Length of `array.slice(0, limit)`: a negative limit cuts from the end. */
  function SliceLength(n: nat, limit: int): nat {
    if limit >= 0 then (if limit <= n then limit else n) else if n + limit > 0 then n + limit else 0
  }

  /** How many of `n` selected tasks each backend returns. */
  function RedisCount(n: nat, limit: Option<int>): nat {
    SliceLength(n, limit.GetOr(100))
  }

  function PlainCount(n: nat, limit: Option<int>): nat {
    if limit.GetOr(0) == 0 then n else SliceLength(n, limit.value)
  }

  /** The backends return equally many tasks except past the Redis default of 100, and except for a
      limit of zero, which means none to one and all to the other. */
  lemma CountsAgreeIff(n: nat, limit: Option<int>)
    ensures RedisCount(n, limit) == PlainCount(n, limit)
      <==> (limit.None? ==> n <= 100) && (limit == Some(0) ==> n == 0)
  {}

  /** In numbers: the first gives up to a hundred where no limit is set and none for a limit of zero, the
      second all in both cases; otherwise both as many as the limit, or all but that many if it is negative. */
  lemma CountsInNumbers(n: nat, limit: Option<int>)
    ensures limit.None? ==> RedisCount(n, limit) == (if n <= 100 then n else 100) && PlainCount(n, limit) == n
    ensures limit == Some(0) ==> RedisCount(n, limit) == 0 && PlainCount(n, limit) == n
    ensures limit.Some? && limit.value > 0 ==>
      RedisCount(n, limit) == PlainCount(n, limit) == if n <= limit.value then n else limit.value
    ensures limit.Some? && limit.value < 0 ==>
      RedisCount(n, limit) == PlainCount(n, limit) == if n + limit.value >= 0 then n + limit.value else 0
  {}

  /** The filter: no state, or the empty one, selects everything. */
  function Selected(tasks: map<Id, Task>, state: Option<State>): set<Id> {
    set id | id in tasks && (state.GetOr("") == "" || tasks[id].state == state.value)
  }

  /** `r` lists `n` different selected tasks. */
  ghost predicate IsListing(r: seq<Task>, tasks: map<Id, Task>, state: Option<State>, n: nat) {
    && |r| == n
    && (forall i :: 0 <= i < |r| ==> r[i].id in Selected(tasks, state) && tasks[r[i].id] == r[i])
    && (forall i, j :: 0 <= i < j < |r| ==> r[i].id != r[j].id)
  }

  lemma {:induction false} DistinctMembers(q: seq<Id>, s: set<Id>)
    requires forall i :: 0 <= i < |q| ==> q[i] in s
    requires forall i, j :: 0 <= i < j < |q| ==> q[i] != q[j]
    requires |q| == |s|
    ensures forall id :: id in s ==> id in q
  {
    if q == [] {
    } else {
      var last := q[|q| - 1];
      DistinctMembers(q[..|q| - 1], s - {last});
      assert forall id :: id in s ==> id == last || id in q[..|q| - 1];
    }
  }

  /** With room for all of them, any two listings hold the same tasks, whichever backend made them. */
  lemma FullListingIsTheSelection(r: seq<Task>, tasks: map<Id, Task>, state: Option<State>, n: nat)
    requires IsListing(r, tasks, state, n) && n == |Selected(tasks, state)|
    ensures forall t :: t in r <==>
      t.id in tasks && tasks[t.id] == t && (state.None? || state.value == "" || t.state == state.value)
  {
    var q := seq(|r|, i requires 0 <= i < |r| => r[i].id);
    DistinctMembers(q, Selected(tasks, state));
    forall t: Task | t.id in Selected(tasks, state) && tasks[t.id] == t ensures t in r {
      assert t.id in q;
      var i :| 0 <= i < |q| && q[i] == t.id;
      assert r[i] == t;
    }
  }

  /** So, with room for all, a listing by state after any run holds the same tasks as one of a plain
      store that took the accepted calls. */
  lemma ListingsAgree(
    ts: Tasks, run: seq<Op>, n: nat, plain: map<Id, Task>, state: Option<State>, r: seq<Task>, p: seq<Task>)
    requires n <= |run| && plain == PlainAfter(ts.all, AcceptedOps(ts, run, n))
    requires IsListing(r, After(ts, run, n).all, state, |Selected(plain, state)|)
    requires IsListing(p, plain, state, |Selected(plain, state)|)
    ensures forall t :: t in r <==> t in p
  {
    RunRefinesPlainStore(ts, run, n);
    FullListingIsTheSelection(r, plain, state, |r|);
    FullListingIsTheSelection(p, plain, state, |p|);
  }

  // ---------------------------------------------------------------- the backends

  class RedisBackend {
    var tasks: map<Id, Task>
    var byState: map<State, set<Id>>
    var listed: set<Id>
    var jobs: map<Id, Job>
    var jobsByTask: map<Id, set<Id>>
    var results: map<Id, Result>
    var events: map<Id, seq<Event>>
    var records: map<(Kind, Id), Record>
    var recordIndex: map<Kind, set<Id>>

    constructor ()
      ensures Contents() == EMPTY
    {
      tasks, byState, listed := map[], map[], {};
      jobs, jobsByTask, results, events := map[], map[], map[], map[];
      records, recordIndex := map[], map[];
    }

    function TaskPart(): Tasks
      reads this
    {
      Tasks(tasks, byState, listed)
    }

    function JobPart(): Jobs
      reads this
    {
      Jobs(jobs, jobsByTask)
    }

    function RecordPart(): Records
      reads this
    {
      Records(records, recordIndex)
    }

    function Contents(): Namespace
      reads this
    {
      Namespace(TaskPart(), JobPart(), RecordPart(), results, events)
    }

    /** One run of the script. False is VERSION_CONFLICT. */
    method SetTask(next: Task) returns (ok: bool)
      modifies this`tasks, this`byState, this`listed
      ensures ok == Accepted(old(TaskPart()), Op.SetTask(next))
      ensures ok <==> next.id in old(tasks) ==>
        || old(tasks)[next.id] == next
        || (old(tasks)[next.id].version != next.version
            && old(tasks)[next.id].version == Whole(if next.version.Whole? then next.version.n - 1 else -1))
      ensures tasks == if ok then old(tasks)[next.id := next] else old(tasks)
      ensures TaskPart() == Step(old(TaskPart()), Op.SetTask(next))
      ensures old(TaskPart().Indexed()) ==> TaskPart().Indexed()
    {
      ghost var before := TaskPart();
      RefinesPlainStore(before, Op.SetTask(next));
      if before.Indexed() {
        StepKeepsIndex(before, Op.SetTask(next));
      }
      var taskVersion := match next.version case Whole(n) => n case Missing => 0;
      var expected := if taskVersion == 0 then -1 else taskVersion - 1;
      if next.id in tasks {
        var current := tasks[next.id];
        if current.version == next.version {
          return current == next;
        }
        if current.version != Whole(expected) {
          return false;
        }
        if current.state != next.state {
          byState := Removed(byState, current.state, next.id);
        }
      }
      tasks := tasks[next.id := next];
      byState := Added(byState, next.state, next.id);
      listed := listed + {next.id};
      ok := true;
    }

    method DeleteTask(id: Id)
      modifies this`tasks, this`byState, this`listed, this`events
      ensures TaskPart() == Step(old(TaskPart()), Op.DeleteTask(id))
      ensures tasks == old(tasks) - {id} && events == old(events) - {id}
      ensures old(TaskPart().Indexed()) ==> TaskPart().Indexed()
    {
      if TaskPart().Indexed() {
        StepKeepsIndex(TaskPart(), Op.DeleteTask(id));
      }
      if id in tasks {
        byState := Removed(byState, tasks[id].state, id);
      }
      listed := listed - {id};
      tasks := tasks - {id};
      events := events - {id};
    }

    method ListTasks(state: Option<State>, limit: Option<int>) returns (r: seq<Task>)
      requires TaskPart().Indexed()
      ensures IsListing(r, tasks, state, RedisCount(|Selected(tasks, state)|, limit))
      ensures forall t :: t in r ==>
        t.id in tasks && tasks[t.id] == t && (state.None? || state.value == "" || t.state == state.value)
    {
      var ids: seq<Id>;
      if state.GetOr("") != "" {
        assert Members(byState, state.value) == Selected(tasks, state) by {
          assert forall id :: id in Members(TaskPart().byState, state.value) <==> id in Selected(tasks, state);
        }
        ids := Enumerate(Members(byState, state.value));
      } else {
        assert listed == Selected(tasks, state);
        ids := Enumerate(listed);
      }
      assert forall k :: 0 <= k < |ids| ==> ids[k] in Selected(tasks, state);
      ids := ids[..RedisCount(|ids|, limit)];
      r := [];
      for i := 0 to |ids|
        invariant |r| == i
        invariant forall k :: 0 <= k < i ==> r[k] == tasks[ids[k]] && r[k].id == ids[k]
      {
        if ids[i] in tasks {
          r := r + [tasks[ids[i]]];
        }
      }
    }

    method SetJob(job: Job)
      modifies this`jobs, this`jobsByTask
      ensures JobPart() == StepJob(old(JobPart()), job)
      ensures jobs == old(jobs)[job.id := job]
      ensures forall t {:trigger Members(jobsByTask, t)} ::
        Members(jobsByTask, t) == old(Members(jobsByTask, t)) + if t == job.task then {job.id} else {}
    {
      jobs := jobs[job.id := job];
      jobsByTask := Added(jobsByTask, job.task, job.id);
    }

    method DeleteJob(id: Id)
      modifies this`jobs, this`jobsByTask
      ensures JobPart() == StepDeleteJob(old(JobPart()), id)
      ensures jobs == old(jobs) - {id}
      ensures forall t {:trigger Members(jobsByTask, t)} ::
        Members(jobsByTask, t) == old(Members(jobsByTask, t))
                                  - if id in old(jobs) && t == old(jobs)[id].task then {id} else {}
    {
      if id in jobs {
        jobsByTask := Removed(jobsByTask, jobs[id].task, id);
      }
      jobs := jobs - {id};
    }

    method ListJobsByTask(task: Id) returns (r: seq<Job>)
      requires JobPart().Indexed()
      ensures forall job :: job in r <==> job.id in jobs && jobs[job.id] == job && job.task == task
      ensures forall i, j :: 0 <= i < j < |r| ==> r[i].id != r[j].id
    {
      assert forall id :: id in Members(JobPart().byTask, task) <==> id in jobs && jobs[id].task == task;
      var ids := Enumerate(Members(jobsByTask, task));
      r := [];
      for i := 0 to |ids|
        invariant |r| == i
        invariant forall k :: 0 <= k < i ==> ids[k] in jobs && r[k] == jobs[ids[k]] && r[k].id == ids[k]
      {
        if ids[i] in jobs {
          r := r + [jobs[ids[i]]];
        }
      }
      forall job: Job | job.id in jobs && jobs[job.id] == job && job.task == task ensures job in r {
        assert job.id in ids;
        var k :| 0 <= k < |ids| && ids[k] == job.id;
        assert r[k] == job;
      }
    }

    method SetResult(result: Result)
      modifies this`results
      ensures results == old(results)[result.job := result]
    {
      results := results[result.job := result];
    }

    method AddEvent(id: Id, event: Event)
      modifies this`events
      ensures events == old(events)[id := (if id in old(events) then old(events)[id] else []) + [event]]
    {
      events := events[id := (if id in events then events[id] else []) + [event]];
    }

    method ReplaceEvents(id: Id, log: seq<Event>)
      modifies this`events
      ensures events == WithLog(old(events), id, log)
      ensures events == if log == [] then old(events) - {id} else old(events)[id := log]
    {
      events := events - {id};
      if log != [] {
        events := events[id := log];
      }
    }

    method SetRecord(kind: Kind, record: Record)
      modifies this`records, this`recordIndex
      ensures RecordPart() == StepRecord(old(RecordPart()), kind, record)
      ensures records == old(records)[(kind, record.id) := record]
      ensures forall k {:trigger Members(recordIndex, k)} ::
        Members(recordIndex, k) == old(Members(recordIndex, k)) + if k == kind then {record.id} else {}
    {
      records := records[(kind, record.id) := record];
      recordIndex := Added(recordIndex, kind, record.id);
    }

    method DeleteRecord(kind: Kind, id: Id)
      modifies this`records, this`recordIndex
      ensures records == old(records) - {(kind, id)}
      ensures forall k {:trigger Members(recordIndex, k)} ::
        Members(recordIndex, k) == old(Members(recordIndex, k)) - if k == kind then {id} else {}
    {
      records := records - {(kind, id)};
      recordIndex := Removed(recordIndex, kind, id);
    }

    /** Fetches in batches of a hundred. */
    method ListRecords(kind: Kind) returns (r: seq<Record>)
      requires RecordPart().Indexed()
      ensures forall rec :: rec in r <==> (kind, rec.id) in records && records[(kind, rec.id)] == rec
      ensures forall i, j :: 0 <= i < j < |r| ==> r[i].id != r[j].id
    {
      assert forall id :: id in Members(RecordPart().index, kind) <==> (kind, id) in records;
      var ids := Enumerate(Members(recordIndex, kind));
      r := [];
      var offset := 0;
      while offset < |ids|
        invariant 0 <= offset && |r| == if offset <= |ids| then offset else |ids|
        invariant forall k :: 0 <= k < |r| ==> r[k] == records[(kind, ids[k])] && r[k].id == ids[k]
      {
        var batch := ids[offset..if offset + 100 <= |ids| then offset + 100 else |ids|];
        for i := 0 to |batch|
          invariant |r| == offset + i
          invariant forall k :: 0 <= k < |r| ==> r[k] == records[(kind, ids[k])] && r[k].id == ids[k]
        {
          if (kind, batch[i]) in records {
            r := r + [records[(kind, batch[i])]];
          }
        }
        offset := offset + 100;
      }
      forall rec: Record | (kind, rec.id) in records && records[(kind, rec.id)] == rec ensures rec in r {
        assert rec.id in ids;
        var k :| 0 <= k < |ids| && ids[k] == rec.id;
        assert r[k] == rec;
      }
    }
  }

  /** The array filter, over ids. */
  function Kept(ids: seq<Id>, tasks: map<Id, Task>, state: Option<State>): (r: seq<Id>)
    ensures forall id :: id in r ==> id in tasks
  {
    if ids == [] then []
    else
      var before, last := Kept(ids[..|ids| - 1], tasks, state), ids[|ids| - 1];
      if last in Selected(tasks, state) then before + [last] else before
  }

  lemma {:induction false} KeptIsTheSelection(ids: seq<Id>, tasks: map<Id, Task>, state: Option<State>)
    requires forall i, j :: 0 <= i < j < |ids| ==> ids[i] != ids[j]
    ensures forall id :: id in Kept(ids, tasks, state) <==> id in ids && id in Selected(tasks, state)
    ensures forall i, j :: 0 <= i < j < |Kept(ids, tasks, state)| ==> Kept(ids, tasks, state)[i] != Kept(ids, tasks, state)[j]
    ensures (forall id :: id in tasks ==> id in ids) ==> |Kept(ids, tasks, state)| == |Selected(tasks, state)|
  {
    if ids != [] {
      var last := ids[|ids| - 1];
      KeptIsTheSelection(ids[..|ids| - 1], tasks, state);
      assert forall id :: id in ids <==> id == last || id in ids[..|ids| - 1];
    }
    if forall id :: id in tasks ==> id in ids {
      CountDistinct(Kept(ids, tasks, state), Selected(tasks, state));
    }
  }

  lemma {:induction false} CountDistinct(q: seq<Id>, s: set<Id>)
    requires Enumerates(q, s)
    ensures |q| == |s|
  {
    if q != [] {
      var last := q[|q| - 1];
      forall id ensures id in s - {last} <==> id in q[..|q| - 1] {
        assert id in q <==> id == last || id in q[..|q| - 1];
      }
      CountDistinct(q[..|q| - 1], s - {last});
    } else {
      assert s == {};
    }
  }

  lemma KeptAreListed(r: seq<Task>, kept: seq<Id>, ids: seq<Id>, tasks: map<Id, Task>, state: Option<State>)
    requires Enumerates(ids, tasks.Keys) && kept == Kept(ids, tasks, state) && |r| == |kept|
    requires forall id :: id in tasks ==> tasks[id].id == id
    requires forall k :: 0 <= k < |r| ==> r[k] == tasks[kept[k]]
    ensures IsListing(r, tasks, state, |Selected(tasks, state)|)
  {
    KeptIsTheSelection(ids, tasks, state);
    assert forall k :: 0 <= k < |r| ==> r[k].id == kept[k] && kept[k] in kept;
  }

  class InMemoryBackend {
    var tasks: map<Id, Task>
    var events: map<Id, seq<Event>>

    constructor ()
      ensures tasks == map[] && events == map[]
    {
      tasks, events := map[], map[];
    }

    method SetTask(task: Task)
      modifies this
      ensures tasks == PlainStep(old(tasks), Op.SetTask(task)) && events == old(events)
      ensures tasks == old(tasks)[task.id := task]
    {
      tasks := tasks[task.id := task];
    }

    method DeleteTask(id: Id)
      modifies this
      ensures tasks == PlainStep(old(tasks), Op.DeleteTask(id)) && events == old(events) - {id}
      ensures tasks == old(tasks) - {id}
    {
      tasks := tasks - {id};
      events := events - {id};
    }

    method ListTasks(state: Option<State>, limit: Option<int>) returns (r: seq<Task>)
      requires forall id :: id in tasks ==> tasks[id].id == id
      ensures IsListing(r, tasks, state, PlainCount(|Selected(tasks, state)|, limit))
      ensures forall t :: t in r ==>
        t.id in tasks && tasks[t.id] == t && (state.None? || state.value == "" || t.state == state.value)
    {
      r := FilterByState(state);
      if limit.GetOr(0) != 0 {
        r := r[..SliceLength(|r|, limit.value)];
      }
    }

    method FilterByState(state: Option<State>) returns (r: seq<Task>)
      requires forall id :: id in tasks ==> tasks[id].id == id
      ensures IsListing(r, tasks, state, |Selected(tasks, state)|)
    {
      var ids := Enumerate(tasks.Keys);
      ghost var kept: seq<Id> := [];
      r := [];
      for i := 0 to |ids|
        invariant kept == Kept(ids[..i], tasks, state) && |r| == |kept|
        invariant forall k :: 0 <= k < |r| ==> r[k] == tasks[kept[k]]
      {
        assert ids[..i + 1][..i] == ids[..i];
        if state.GetOr("") == "" || tasks[ids[i]].state == state.value {
          kept := kept + [ids[i]];
          r := r + [tasks[ids[i]]];
        }
      }
      assert ids[..|ids|] == ids;
      KeptAreListed(r, kept, ids, tasks, state);
    }
  }
}
