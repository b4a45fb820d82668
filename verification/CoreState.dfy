/** Writing the control plane's state to the store and reading it back after a restart:
    `persistCoreState` and `restoreCoreState` of src/store/control-plane-store.ts. */
module CoreState {
  import opened Prelude
  import opened Store

  /** What a control plane keeps in memory. `records` stands for the four maps kept by the audit,
      checkpoint and retrospective services and by the publish idempotency keys. */
  datatype Core = Core(
    tasks: map<Id, Task>, events: map<Id, seq<Event>>,
    jobs: map<Id, Job>, results: map<Id, Result>, records: map<(Kind, Id), Record>)

  /** Every map files its values under their own ids. */
  ghost predicate Keyed(core: Core) {
    && (forall id :: id in core.tasks ==> core.tasks[id].id == id)
    && (forall id :: id in core.jobs ==> core.jobs[id].id == id)
    && (forall id :: id in core.results ==> core.results[id].job == id)
    && (forall key :: key in core.records ==> core.records[key].id == key.1)
  }

  /** Index agreement, and no job stored under one task that now belongs to another. */
  ghost predicate Sound(ns: Namespace, core: Core) {
    && ns.tasks.Indexed() && ns.jobs.Indexed() && ns.records.Indexed()
    && JobsStay(ns.jobs, core)
  }

  ghost predicate JobsStay(js: Jobs, core: Core) {
    forall id :: id in core.jobs && id in js.all ==> core.jobs[id].task == js.all[id].task
  }

  function JobsUnder(jobs: map<Id, Job>, tasks: set<Id>): set<Id> {
    set id | id in jobs && jobs[id].task in tasks
  }

  /** The jobs reached through a task; only these are written. */
  function OwnedJobs(core: Core): map<Id, Job> {
    map id | id in core.jobs && core.jobs[id].task in core.tasks :: core.jobs[id]
  }

  // ---------------------------------------------------------------- copying entry by entry

  /** `after` is `before` with the entries of `source` under `done` written over it. */
  ghost predicate Patched<K(!new), V>(before: map<K, V>, source: map<K, V>, done: set<K>, after: map<K, V>) {
    && done <= source.Keys
    && (forall k :: k in after <==> k in before || k in done)
    && (forall k :: k in after ==> after[k] == if k in done then source[k] else before[k])
  }

  lemma PatchedTwice<K(!new), V>(a: map<K, V>, source: map<K, V>, s: set<K>, b: map<K, V>, t: set<K>, c: map<K, V>)
    requires Patched(a, source, s, b) && Patched(b, source, t, c)
    ensures Patched(a, source, s + t, c)
  {}

  lemma PatchedEverywhere<K(!new), V>(before: map<K, V>, source: map<K, V>, after: map<K, V>)
    requires Patched(before, source, source.Keys, after)
    ensures after == before + source
  {}

  // ---------------------------------------------------------------- what is written, what is read

  /** Every task is one the store will take. */
  ghost predicate Writable(ts: Tasks, core: Core) {
    forall id :: id in core.tasks ==> Accepts(ts.all, core.tasks[id])
  }

  /** The logs of the tasks in `done`, and no others, are now the control plane's. */
  ghost predicate LogsReplaced(
    before: map<Id, seq<Event>>, core: Core, done: set<Id>, after: map<Id, seq<Event>>)
  {
    forall id {:trigger LogAt(after, id)} ::
      LogAt(after, id) == if id in done then LogAt(core.events, id) else LogAt(before, id)
  }

  /** `after` is `before` overlaid with the control plane's state. */
  ghost predicate Overlaid(before: Namespace, core: Core, after: Namespace) {
    && after.tasks.all == before.tasks.all + core.tasks
    && LogsReplaced(before.events, core, core.tasks.Keys, after.events)
    && Patched(before.jobs.all, core.jobs, JobsUnder(core.jobs, core.tasks.Keys), after.jobs.all)
    && after.results == before.results + core.results
    && after.records.all == before.records.all + core.records
  }

  /** For the tasks taken so far, everything under them is there and nothing else. */
  ghost predicate ReadUnder(ns: Namespace, core: Core) {
    && (forall id :: id in core.tasks ==> id in ns.tasks.all && core.tasks[id] == ns.tasks.all[id])
    && core.events.Keys == core.tasks.Keys
    && (forall id :: id in core.events ==> core.events[id] == LogAt(ns.events, id))
    && Patched(map[], ns.jobs.all, JobsUnder(ns.jobs.all, core.tasks.Keys), core.jobs)
    && Patched(map[], ns.results, ns.results.Keys * JobsUnder(ns.jobs.all, core.tasks.Keys), core.results)
  }

  /** What a restart reads: up to ten thousand of the tasks, and all that is reachable from those. */
  ghost predicate ReadFrom(ns: Namespace, core: Core) {
    && ReadUnder(ns, core)
    && |core.tasks| == SliceLength(|ns.tasks.all|, 10000)
    && core.records == ns.records.all
  }

  // ---------------------------------------------------------------- the round trip

  /** What survives a restart: one log per task, and only the jobs and results that hang off a task. */
  function Surviving(core: Core): Core {
    Core(core.tasks,
         map id | id in core.tasks :: LogAt(core.events, id),
         OwnedJobs(core),
         map id | id in core.results && id in OwnedJobs(core) :: core.results[id],
         core.records)
  }

  /** Logs are kept for exactly the tasks, every job's task exists, and every result's job does. */
  ghost predicate Closed(core: Core) {
    && core.events.Keys == core.tasks.Keys
    && (forall id :: id in core.jobs ==> core.jobs[id].task in core.tasks)
    && (forall id :: id in core.results ==> id in core.jobs)
  }

  /** A closed state survives whole, and only a closed one does. */
  lemma SurvivesWholeIff(core: Core)
    ensures Surviving(core) == core <==> Closed(core)
  {
    var s := Surviving(core);
    if Closed(core) {
      assert s.jobs == core.jobs && s.events == core.events && s.results == core.results;
    }
  }

  lemma {:induction false} SubsetCount(a: set<Id>, b: set<Id>)
    requires a <= b && |a| == |b|
    ensures a == b
  {
    if a != {} {
      var x :| x in a;
      SubsetCount(a - {x}, b - {x});
    }
  }

  /** With no more than ten thousand tasks none is left out. */
  lemma ReadsEveryTask(ns: Namespace, core: Core)
    requires ReadFrom(ns, core) && |ns.tasks.all| <= 10000
    ensures core.tasks == ns.tasks.all
  {
    assert |core.tasks.Keys| == |ns.tasks.all.Keys|;
    SubsetCount(core.tasks.Keys, ns.tasks.all.Keys);
  }

  /** Persist, restart, restore, over whatever the store held before: the newer state shines
      through exactly, and older tasks reappear beside it. */
  lemma RoundTrip(before: Namespace, core: Core, after: Namespace, restored: Core)
    requires Overlaid(before, core, after) && JobsStay(before.jobs, core)
    requires ReadFrom(after, restored) && |after.tasks.all| <= 10000
    ensures restored.tasks == before.tasks.all + core.tasks
    ensures forall id :: id in core.tasks ==> restored.events[id] == LogAt(core.events, id)
    ensures forall id :: id in OwnedJobs(core) ==> id in restored.jobs && restored.jobs[id] == core.jobs[id]
    ensures forall id :: id in core.results && id in OwnedJobs(core) ==>
      id in restored.results && restored.results[id] == core.results[id]
    ensures restored.records == before.records.all + core.records
  {
    ReadsEveryTask(after, restored);
    forall id | id in core.tasks ensures restored.events[id] == LogAt(core.events, id) {
      assert LogAt(after.events, id) == LogAt(core.events, id);
    }
    OwnedJobsReturn(before, core, after, restored);
  }

  lemma OwnedJobsReturn(before: Namespace, core: Core, after: Namespace, restored: Core)
    requires Overlaid(before, core, after) && ReadUnder(after, restored) && restored.tasks == after.tasks.all
    ensures forall id :: id in OwnedJobs(core) ==> id in restored.jobs && restored.jobs[id] == core.jobs[id]
    ensures forall id :: id in core.results && id in OwnedJobs(core) ==>
      id in restored.results && restored.results[id] == core.results[id]
  {
    forall id | id in OwnedJobs(core) ensures id in restored.jobs && restored.jobs[id] == core.jobs[id] {
      assert id in JobsUnder(core.jobs, core.tasks.Keys);
      assert id in JobsUnder(after.jobs.all, restored.tasks.Keys);
    }
  }

  /** From an empty store what comes back is exactly what survives; so a closed state comes back
      unchanged. */
  lemma RoundTripFromEmpty(core: Core, after: Namespace, restored: Core)
    requires |core.tasks| <= 10000
    requires Overlaid(EMPTY, core, after) && ReadFrom(after, restored)
    ensures restored == Surviving(core)
    ensures restored == core <==> Closed(core)
  {
    FromEmpty(core, after);
    ReadsEveryTask(after, restored);
    SameJobs(core, after, restored);
    SameLogs(core, after, restored);
    SurvivesWholeIff(core);
  }

  lemma FromEmpty(core: Core, after: Namespace)
    requires Overlaid(EMPTY, core, after)
    ensures after.tasks.all == core.tasks && after.jobs.all == OwnedJobs(core)
    ensures after.results == core.results && after.records.all == core.records
  {}

  lemma SameJobs(core: Core, after: Namespace, restored: Core)
    requires after.jobs.all == OwnedJobs(core) && after.results == core.results
    requires restored.tasks == core.tasks && ReadUnder(after, restored)
    ensures restored.jobs == OwnedJobs(core) && restored.results == Surviving(core).results
  {}

  lemma SameLogs(core: Core, after: Namespace, restored: Core)
    requires LogsReplaced(map[], core, core.tasks.Keys, after.events)
    requires restored.tasks == core.tasks && ReadUnder(after, restored)
    ensures restored.events == Surviving(core).events
  {}

  function Listed<T>(q: seq<T>): set<T> {
    set x | x in q
  }

  // ---------------------------------------------------------------- tasks, logs, jobs, records in some order

  function PutTasks(ts: Tasks, core: Core, ids: seq<Id>): Tasks
    requires Listed(ids) <= core.tasks.Keys
  {
    if ids == [] then ts else Step(PutTasks(ts, core, ids[..|ids| - 1]), Op.SetTask(core.tasks[ids[|ids| - 1]]))
  }

  lemma {:induction false} PutTasksContents(ts: Tasks, core: Core, ids: seq<Id>)
    requires Keyed(core) && Listed(ids) <= core.tasks.Keys
    requires forall id :: id in ids ==> Accepts(ts.all, core.tasks[id])
    requires forall i, j :: 0 <= i < j < |ids| ==> ids[i] != ids[j]
    ensures Patched(ts.all, core.tasks, Listed(ids), PutTasks(ts, core, ids).all)
    ensures ts.Indexed() ==> PutTasks(ts, core, ids).Indexed()
  {
    if ids != [] {
      var before, id := ids[..|ids| - 1], ids[|ids| - 1];
      PutTasksContents(ts, core, before);
      assert id !in Listed(before) && Listed(ids) == Listed(before) + {id};
      RefinesPlainStore(PutTasks(ts, core, before), Op.SetTask(core.tasks[id]));
      if ts.Indexed() {
        StepKeepsIndex(PutTasks(ts, core, before), Op.SetTask(core.tasks[id]));
      }
    }
  }

  /** What the store answers about one task does not depend on the others written before it. */
  lemma {:induction false} AnswersAreIndependent(ts: Tasks, core: Core, ids: seq<Id>, id: Id)
    requires Keyed(core) && Listed(ids) <= core.tasks.Keys && id in core.tasks && id !in ids
    ensures Accepts(PutTasks(ts, core, ids).all, core.tasks[id]) == Accepts(ts.all, core.tasks[id])
  {
    if ids != [] {
      AnswersAreIndependent(ts, core, ids[..|ids| - 1], id);
      RefinesPlainStore(PutTasks(ts, core, ids[..|ids| - 1]), Op.SetTask(core.tasks[ids[|ids| - 1]]));
    }
  }

  function PutLogs(events: map<Id, seq<Event>>, core: Core, ids: seq<Id>): map<Id, seq<Event>> {
    if ids == [] then events
    else WithLog(PutLogs(events, core, ids[..|ids| - 1]), ids[|ids| - 1], LogAt(core.events, ids[|ids| - 1]))
  }

  lemma {:induction false} PutLogsContents(events: map<Id, seq<Event>>, core: Core, ids: seq<Id>)
    ensures LogsReplaced(events, core, Listed(ids), PutLogs(events, core, ids))
  {
    if ids != [] {
      var before, id := ids[..|ids| - 1], ids[|ids| - 1];
      PutLogsContents(events, core, before);
      assert Listed(ids) == Listed(before) + {id};
      var logs, after := PutLogs(events, core, before), PutLogs(events, core, ids);
      assert forall k {:trigger LogAt(after, k)} ::
        LogAt(after, k) == if k == id then LogAt(core.events, id) else LogAt(logs, k);
    }
  }

  /** The jobs `done` of one task have been written. */
  function PutSomeJobs(js: Jobs, core: Core, task: Id, done: set<Id>): Jobs
    requires done <= core.jobs.Keys
  {
    if done == {} then js
    else Jobs(js.all + map id | id in done :: core.jobs[id], js.byTask[task := Members(js.byTask, task) + done])
  }

  lemma OneMoreJob(js: Jobs, core: Core, task: Id, done: set<Id>, id: Id)
    requires Keyed(core) && done <= core.jobs.Keys && id in core.jobs && core.jobs[id].task == task
    ensures StepJob(PutSomeJobs(js, core, task, done), core.jobs[id]) == PutSomeJobs(js, core, task, done + {id})
  {
    OneMoreEntry(js.all, core.jobs, done, id);
    OneMoreMember(js.byTask, task, done, id);
    assert done == {} ==> done + {id} == {id};
  }

  lemma OneMoreEntry(all: map<Id, Job>, source: map<Id, Job>, done: set<Id>, id: Id)
    requires done <= source.Keys && id in source
    ensures all + (map k | k in done + {id} :: source[k]) == (all + map k | k in done :: source[k])[id := source[id]]
    ensures all + (map k | k in {id} :: source[k]) == all[id := source[id]]
  {}

  lemma OneMoreMember(index: map<Id, set<Id>>, task: Id, done: set<Id>, id: Id)
    ensures Added(index, task, id) == index[task := Members(index, task) + {id}]
    ensures Added(index[task := Members(index, task) + done], task, id) == index[task := Members(index, task) + (done + {id})]
  {
    assert Members(index, task) + done + {id} == Members(index, task) + (done + {id});
  }

  function PutJobs(js: Jobs, core: Core, ids: seq<Id>): Jobs {
    if ids == [] then js
    else
      var id := ids[|ids| - 1];
      PutSomeJobs(PutJobs(js, core, ids[..|ids| - 1]), core, id, JobsUnder(core.jobs, {id}))
  }

  lemma PutSomeJobsContents(js: Jobs, core: Core, task: Id)
    requires Keyed(core)
    ensures var done := JobsUnder(core.jobs, {task});
      Patched(js.all, core.jobs, done, PutSomeJobs(js, core, task, done).all)
  {}

  lemma PutSomeJobsIndex(js: Jobs, core: Core, task: Id)
    requires Keyed(core) && js.Indexed() && JobsStay(js, core)
    ensures var after := PutSomeJobs(js, core, task, JobsUnder(core.jobs, {task}));
      after.Indexed() && JobsStay(after, core)
  {
    var done := JobsUnder(core.jobs, {task});
    var after := PutSomeJobs(js, core, task, done);
    assert forall t {:trigger Members(after.byTask, t)} ::
      Members(after.byTask, t) == Members(js.byTask, t) + if t == task then done else {};
  }

  lemma {:induction false} PutJobsContents(js: Jobs, core: Core, ids: seq<Id>)
    requires Keyed(core)
    ensures Patched(js.all, core.jobs, JobsUnder(core.jobs, Listed(ids)), PutJobs(js, core, ids).all)
  {
    if ids == [] {
      assert JobsUnder(core.jobs, Listed(ids)) == {};
    } else {
      var before, id := ids[..|ids| - 1], ids[|ids| - 1];
      PutJobsContents(js, core, before);
      PutSomeJobsContents(PutJobs(js, core, before), core, id);
      PatchedTwice(js.all, core.jobs, JobsUnder(core.jobs, Listed(before)), PutJobs(js, core, before).all,
                   JobsUnder(core.jobs, {id}), PutJobs(js, core, ids).all);
      assert JobsUnder(core.jobs, Listed(before)) + JobsUnder(core.jobs, {id}) == JobsUnder(core.jobs, Listed(ids));
    }
  }

  lemma {:induction false} PutJobsIndex(js: Jobs, core: Core, ids: seq<Id>)
    requires Keyed(core) && js.Indexed() && JobsStay(js, core)
    ensures PutJobs(js, core, ids).Indexed() && JobsStay(PutJobs(js, core, ids), core)
  {
    if ids != [] {
      PutJobsIndex(js, core, ids[..|ids| - 1]);
      PutSomeJobsIndex(PutJobs(js, core, ids[..|ids| - 1]), core, ids[|ids| - 1]);
    }
  }

  /** The tasks `ids`, all different and all taken by the store, have been written in that order, each
      with its log and its jobs. */
  ghost predicate Written(ns: Namespace, core: Core, ids: seq<Id>, after: Namespace) {
    && Listed(ids) <= core.tasks.Keys
    && (forall i, j :: 0 <= i < j < |ids| ==> ids[i] != ids[j])
    && (forall id :: id in ids ==> Accepts(ns.tasks.all, core.tasks[id]))
    && after.tasks == PutTasks(ns.tasks, core, ids)
    && after.jobs == PutJobs(ns.jobs, core, ids)
    && after.events == PutLogs(ns.events, core, ids)
  }

  lemma NotYet(ids: seq<Id>, i: nat)
    requires i < |ids| && forall j, k :: 0 <= j < k < |ids| ==> ids[j] != ids[k]
    ensures ids[i] !in ids[..i] && ids[..i] + [ids[i]] == ids[..i + 1]
  {}

  lemma NothingWritten(ns: Namespace, core: Core)
    ensures Written(ns, core, [], ns)
  {}

  lemma WrittenMeans(ns: Namespace, core: Core, ids: seq<Id>, after: Namespace)
    requires Keyed(core) && Written(ns, core, ids, after)
    ensures Patched(ns.tasks.all, core.tasks, Listed(ids), after.tasks.all)
    ensures Patched(ns.jobs.all, core.jobs, JobsUnder(core.jobs, Listed(ids)), after.jobs.all)
    ensures LogsReplaced(ns.events, core, Listed(ids), after.events)
    ensures Sound(ns, core) ==> after.tasks.Indexed() && after.jobs.Indexed() && JobsStay(after.jobs, core)
  {
    PutTasksContents(ns.tasks, core, ids);
    PutJobsContents(ns.jobs, core, ids);
    PutLogsContents(ns.events, core, ids);
    if Sound(ns, core) {
      PutJobsIndex(ns.jobs, core, ids);
    }
  }

  /** A pass that stopped early has written some tasks whole, and nothing else. */
  lemma SomeWritten(ns: Namespace, core: Core, ids: seq<Id>, after: Namespace)
    requires Keyed(core) && Written(ns, core, ids, after)
    requires after.results == ns.results && after.records == ns.records
    ensures exists done :: Patched(ns.tasks.all, core.tasks, done, after.tasks.all)
    ensures Sound(ns, core) ==> Sound(after, core)
  {
    WrittenMeans(ns, core, ids, after);
  }

  /** A pass that went through has overlaid the store with the state. */
  lemma AllWritten(ns: Namespace, core: Core, ids: seq<Id>, tasksDone: Namespace, after: Namespace)
    requires Keyed(core) && Written(ns, core, ids, tasksDone) && Listed(ids) == core.tasks.Keys
    requires (after.tasks, after.jobs, after.events) == (tasksDone.tasks, tasksDone.jobs, tasksDone.events)
    requires after.results == ns.results + core.results && after.records.all == ns.records.all + core.records
    requires ns.records.Indexed() ==> after.records.Indexed()
    ensures Overlaid(ns, core, after)
    ensures Sound(ns, core) ==> Sound(after, core)
  {
    WrittenMeans(ns, core, ids, tasksDone);
    PatchedEverywhere(ns.tasks.all, core.tasks, after.tasks.all);
  }

  lemma OneMoreTask(ns: Namespace, core: Core, ids: seq<Id>, id: Id)
    requires Keyed(core) && Listed(ids) <= core.tasks.Keys && id in core.tasks
    ensures Listed(ids + [id]) <= core.tasks.Keys
    ensures PutTasks(ns.tasks, core, ids + [id]) == Step(PutTasks(ns.tasks, core, ids), Op.SetTask(core.tasks[id]))
    ensures PutJobs(ns.jobs, core, ids + [id])
         == PutSomeJobs(PutJobs(ns.jobs, core, ids), core, id, JobsUnder(core.jobs, {id}))
    ensures PutLogs(ns.events, core, ids + [id]) == WithLog(PutLogs(ns.events, core, ids), id, LogAt(core.events, id))
  {}

  function PutRecords(rs: Records, core: Core, keys: seq<(Kind, Id)>): Records
    requires Listed(keys) <= core.records.Keys
  {
    if keys == [] then rs
    else StepRecord(PutRecords(rs, core, keys[..|keys| - 1]), keys[|keys| - 1].0, core.records[keys[|keys| - 1]])
  }

  lemma {:induction false} PutRecordsContents(rs: Records, core: Core, keys: seq<(Kind, Id)>)
    requires Keyed(core) && Listed(keys) <= core.records.Keys
    ensures Patched(rs.all, core.records, Listed(keys), PutRecords(rs, core, keys).all)
    ensures rs.Indexed() ==> PutRecords(rs, core, keys).Indexed()
  {
    if keys != [] {
      var before, key := keys[..|keys| - 1], keys[|keys| - 1];
      PutRecordsContents(rs, core, before);
      if rs.Indexed() {
        RecordIndexKept(PutRecords(rs, core, before), key.0, core.records[key]);
      }
      assert Listed(keys) == Listed(before) + {key};
      assert (key.0, core.records[key].id) == key;
    }
  }

  function KeysOf(records: map<(Kind, Id), Record>, kind: Kind): set<(Kind, Id)> {
    set key | key in records && key.0 == kind
  }

  // ---------------------------------------------------------------- the two loops

  class ControlPlaneStore {
    const backend: RedisBackend
    var tasks: map<Id, Task>
    var events: map<Id, seq<Event>>
    var jobs: map<Id, Job>
    var results: map<Id, Result>
    var records: map<(Kind, Id), Record>

    constructor (backend: RedisBackend)
      ensures this.backend == backend
      ensures State() == Core(map[], map[], map[], map[], map[])
    {
      this.backend := backend;
      tasks, events, jobs, results, records := map[], map[], map[], map[], map[];
    }

    function State(): Core
      reads this
    {
      Core(tasks, events, jobs, results, records)
    }

    /** False when a task was refused with VERSION_CONFLICT; nothing after it is then written. */
    method PersistCoreState() returns (ok: bool)
      requires Keyed(State())
      modifies backend
      ensures ok == old(Writable(backend.TaskPart(), State()))
      ensures ok ==> Overlaid(old(backend.Contents()), State(), backend.Contents())
      ensures !ok ==> backend.results == old(backend.results) && backend.records == old(backend.records)
      ensures !ok ==> exists done :: Patched(old(backend.tasks), tasks, done, backend.tasks)
      ensures old(Sound(backend.Contents(), State())) ==> Sound(backend.Contents(), State())
    {
      ghost var written;
      ok, written := PersistTasks();
      ghost var tasksDone := backend.Contents();
      if ok {
        PersistResults();
        PersistRecords();
        AllWritten(old(backend.Contents()), State(), written, tasksDone, backend.Contents());
      } else {
        SomeWritten(old(backend.Contents()), State(), written, tasksDone);
      }
    }

    /** Stops at the first refused task; `written` lists the ones before it. */
    method PersistTasks() returns (ok: bool, ghost written: seq<Id>)
      requires Keyed(State())
      modifies backend`tasks, backend`byState, backend`listed, backend`events, backend`jobs, backend`jobsByTask
      ensures Written(old(backend.Contents()), State(), written, backend.Contents())
      ensures ok ==> Listed(written) == tasks.Keys
      ensures ok == old(Writable(backend.TaskPart(), State()))
    {
      var ids := Enumerate(tasks.Keys);
      written := [];
      NothingWritten(backend.Contents(), State());
      ok := true;
      var i := 0;
      while i < |ids| && ok
        invariant 0 <= i <= |ids| && written == ids[..i]
        invariant Written(old(backend.Contents()), State(), written, backend.Contents())
        invariant !ok ==> i < |ids| && !Accepts(old(backend.tasks), tasks[ids[i]])
        decreases |ids| - i, ok
      {
        NotYet(ids, i);
        ok, written := PersistNext(ids[i], old(backend.Contents()), written);
        if ok {
          i := i + 1;
        }
      }
      assert ids[..|ids|] == ids;
    }

    /** Writes one more task, unless the store refuses it. */
    method PersistNext(id: Id, ghost before: Namespace, ghost done: seq<Id>) returns (ok: bool, ghost written: seq<Id>)
      requires Keyed(State()) && id in tasks && id !in done
      requires Written(before, State(), done, backend.Contents())
      modifies backend`tasks, backend`byState, backend`listed, backend`events, backend`jobs, backend`jobsByTask
      ensures ok == Accepts(before.tasks.all, tasks[id])
      ensures written == if ok then done + [id] else done
      ensures Written(before, State(), written, backend.Contents())
    {
      AnswersAreIndependent(before.tasks, State(), done, id);
      OneMoreTask(before, State(), done, id);
      ok := PersistTask(id);
      written := if ok then done + [id] else done;
    }

    /** Writes one task, its log and its jobs. */
    method PersistTask(id: Id) returns (ok: bool)
      requires Keyed(State()) && id in tasks
      modifies backend`tasks, backend`byState, backend`listed, backend`events, backend`jobs, backend`jobsByTask
      ensures ok == Accepts(old(backend.tasks), tasks[id])
      ensures backend.TaskPart() == if ok then Step(old(backend.TaskPart()), Op.SetTask(tasks[id])) else old(backend.TaskPart())
      ensures backend.events == if ok then WithLog(old(backend.events), id, LogAt(events, id)) else old(backend.events)
      ensures backend.JobPart() == if ok then PutSomeJobs(old(backend.JobPart()), State(), id, JobsUnder(jobs, {id}))
                                   else old(backend.JobPart())
    {
      ok := backend.SetTask(tasks[id]);
      if ok {
        backend.ReplaceEvents(id, LogAt(events, id));
        PersistJobs(id);
      }
    }

    method PersistJobs(task: Id)
      requires Keyed(State())
      modifies backend`jobs, backend`jobsByTask
      ensures backend.JobPart() == PutSomeJobs(old(backend.JobPart()), State(), task, JobsUnder(jobs, {task}))
    {
      var ids := Enumerate(JobsUnder(jobs, {task}));
      ghost var done: set<Id> := {};
      for i := 0 to |ids|
        invariant done <= JobsUnder(jobs, {task}) && done == Listed(ids[..i])
        invariant backend.JobPart() == PutSomeJobs(old(backend.JobPart()), State(), task, done)
      {
        assert ids[i] in JobsUnder(jobs, {task});
        assert ids[..i + 1] == ids[..i] + [ids[i]];
        OneMoreJob(old(backend.JobPart()), State(), task, done, ids[i]);
        backend.SetJob(jobs[ids[i]]);
        done := done + {ids[i]};
      }
      assert done == JobsUnder(jobs, {task});
    }

    method PersistResults()
      requires Keyed(State())
      modifies backend`results
      ensures backend.results == old(backend.results) + results
    {
      var ids := Enumerate(results.Keys);
      for i := 0 to |ids|
        invariant Patched(old(backend.results), results, Listed(ids[..i]), backend.results)
      {
        assert Listed(ids[..i + 1]) == Listed(ids[..i]) + {ids[i]};
        backend.SetResult(results[ids[i]]);
      }
      assert Listed(ids[..|ids|]) == results.Keys;
      PatchedEverywhere(old(backend.results), results, backend.results);
    }

    method PersistRecords()
      requires Keyed(State())
      modifies backend`records, backend`recordIndex
      ensures backend.records == old(backend.records) + records
      ensures old(backend.RecordPart().Indexed()) ==> backend.RecordPart().Indexed()
    {
      var keys := Enumerate(records.Keys);
      for i := 0 to |keys|
        invariant Listed(keys[..i]) <= records.Keys
        invariant backend.RecordPart() == PutRecords(old(backend.RecordPart()), State(), keys[..i])
      {
        assert keys[..i + 1] == keys[..i] + [keys[i]] && keys[..i + 1][..i] == keys[..i];
        backend.SetRecord(keys[i].0, records[keys[i]]);
      }
      assert keys[..|keys|] == keys && Listed(keys) == records.Keys;
      PutRecordsContents(old(backend.RecordPart()), State(), keys);
      PatchedEverywhere(old(backend.records), records, backend.records);
    }

    method RestoreCoreState()
      requires Sound(backend.Contents(), Core(map[], map[], map[], map[], map[]))
      modifies this
      ensures ReadFrom(backend.Contents(), State())
    {
      var listed := backend.ListTasks(None, Some(10000));
      tasks, events, jobs, results, records := map[], map[], map[], map[], map[];
      assert Selected(backend.tasks, None) == backend.tasks.Keys;
      for i := 0 to |listed|
        invariant forall k :: i <= k < |listed| ==> listed[k].id !in tasks
        invariant |tasks| == i
        invariant ReadUnder(backend.Contents(), State())
        invariant records == map[]
      {
        RestoreTask(listed[i]);
      }
      RestoreRecords();
    }

    method RestoreTask(task: Task)
      requires backend.JobPart().Indexed() && ReadUnder(backend.Contents(), State())
      requires task.id in backend.tasks && backend.tasks[task.id] == task
      modifies this`tasks, this`events, this`jobs, this`results
      ensures ReadUnder(backend.Contents(), State())
      ensures tasks == old(tasks)[task.id := task]
    {
      tasks := tasks[task.id := task];
      events := events[task.id := LogAt(backend.events, task.id)];
      RestoreJobs(task.id);
      ghost var before, here := JobsUnder(backend.jobs, old(tasks.Keys)), JobsUnder(backend.jobs, {task.id});
      assert JobsUnder(backend.jobs, tasks.Keys) == before + here;
      PatchedTwice(map[], backend.jobs, before, old(jobs), here, jobs);
      PatchedTwice(map[], backend.results, backend.results.Keys * before, old(results), backend.results.Keys * here, results);
      assert backend.results.Keys * (before + here) == backend.results.Keys * before + backend.results.Keys * here;
    }

    method RestoreJobs(task: Id)
      requires backend.JobPart().Indexed()
      modifies this`jobs, this`results
      ensures Patched(old(jobs), backend.jobs, JobsUnder(backend.jobs, {task}), jobs)
      ensures Patched(old(results), backend.results, backend.results.Keys * JobsUnder(backend.jobs, {task}), results)
    {
      var found := backend.ListJobsByTask(task);
      ghost var done: set<Id> := {};
      for i := 0 to |found|
        invariant done <= backend.jobs.Keys
        invariant forall k :: 0 <= k < i ==> found[k].id in done
        invariant forall id :: id in done ==> id in JobsUnder(backend.jobs, {task})
        invariant Patched(old(jobs), backend.jobs, done, jobs)
        invariant Patched(old(results), backend.results, backend.results.Keys * done, results)
      {
        var job := found[i];
        assert job in found;
        jobs := jobs[job.id := job];
        if job.id in backend.results {
          results := results[job.id := backend.results[job.id]];
        }
        done := done + {job.id};
      }
      forall id | id in JobsUnder(backend.jobs, {task}) ensures id in done {
        assert backend.jobs[id] in found;
      }
      assert done == JobsUnder(backend.jobs, {task});
    }

    method RestoreRecords()
      requires backend.RecordPart().Indexed() && records == map[]
      modifies this`records
      ensures records == backend.records
    {
      var kinds := [Audit, Checkpoint, Retrospective, PublishIdempotency];
      ghost var done: set<(Kind, Id)> := {};
      for i := 0 to |kinds|
        invariant forall key :: key in done <==> key in backend.records && key.0 in kinds[..i]
        invariant Patched(map[], backend.records, done, records)
      {
        assert kinds[..i + 1] == kinds[..i] + [kinds[i]];
        ghost var kept, recordsBefore := done, records;
        RestoreFamily(kinds[i]);
        done := kept + KeysOf(backend.records, kinds[i]);
        PatchedTwice(map[], backend.records, kept, recordsBefore, KeysOf(backend.records, kinds[i]), records);
      }
      assert kinds[..|kinds|] == kinds;
      forall kind: Kind ensures kind in kinds {
        assert kind == kinds[0] || kind == kinds[1] || kind == kinds[2] || kind == kinds[3];
      }
      assert done == backend.records.Keys;
      PatchedEverywhere(map[], backend.records, records);
    }

    method RestoreFamily(kind: Kind)
      requires backend.RecordPart().Indexed()
      modifies this`records
      ensures Patched(old(records), backend.records, KeysOf(backend.records, kind), records)
    {
      var found := backend.ListRecords(kind);
      ghost var done: set<(Kind, Id)> := {};
      for i := 0 to |found|
        invariant done <= KeysOf(backend.records, kind)
        invariant forall k :: 0 <= k < i ==> (kind, found[k].id) in done
        invariant Patched(old(records), backend.records, done, records)
      {
        assert found[i] in found;
        records := records[(kind, found[i].id) := found[i]];
        done := done + {(kind, found[i].id)};
      }
      forall key | key in KeysOf(backend.records, kind) ensures key in done {
        assert key == (kind, key.1);
        assert backend.records[key] in found;
      }
      assert done == KeysOf(backend.records, kind);
    }
  }

  /** A control plane persists over an empty store, and a new one restores from it. It starts with what
      survives of the old one's state: all of it, exactly when that state is closed. */
  method Restart(before: ControlPlaneStore) returns (after: ControlPlaneStore)
    requires Keyed(before.State()) && |before.tasks| <= 10000 && before.backend.Contents() == EMPTY
    modifies before.backend
    ensures fresh(after) && after.backend == before.backend
    ensures before.State() == old(before.State())
    ensures after.State() == Surviving(before.State())
    ensures after.State() == before.State() <==> Closed(before.State())
  {
    EmptyIsSound(before.State());
    var ok := before.PersistCoreState();
    after := new ControlPlaneStore(before.backend);
    after.RestoreCoreState();
    RoundTripFromEmpty(before.State(), before.backend.Contents(), after.State());
  }

  lemma EmptyIsSound(core: Core)
    ensures Sound(EMPTY, core) && Writable(EMPTY.tasks, core)
  {}
}
