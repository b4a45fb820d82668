/** The keys under which src/store/redis-backend.ts files its values. The Store module keeps one map per
    family; this module shows that the families, and the entries of each, do not get in each other's way. */
module RedisKeys {
  import opened Strings

  datatype Address =
    | TaskAt(id: string)
    | JobAt(id: string)
    | ResultAt(id: string)
    | EventsAt(id: string)
    | RetryAt(id: string)
    | TasksInState(state: string)
    | AllTasks
    | JobsOfTask(id: string)
    | RecordAt(kind: string, id: string)
    | RecordIndex(kind: string)

  /** What stands before the first colon behind the prefix, and what behind it. */
  function Family(a: Address): string {
    match a
    case TaskAt(_) => "task"
    case JobAt(_) => "job"
    case ResultAt(_) => "result"
    case EventsAt(_) => "events"
    case RetryAt(_) => "retry"
    case TasksInState(_) | AllTasks => "tasks"
    case JobsOfTask(_) => "jobs"
    case RecordAt(_, _) => "record"
    case RecordIndex(_) => "records"
  }

  function Entry(a: Address): string {
    match a
    case TaskAt(id) => id
    case JobAt(id) => id
    case ResultAt(id) => id
    case EventsAt(id) => id
    case RetryAt(id) => id
    case TasksInState(state) => Join("state", state)
    case AllTasks => "list"
    case JobsOfTask(id) => Join("task", id)
    case RecordAt(kind, id) => Join(kind, id)
    case RecordIndex(kind) => kind
  }

  function Key(prefix: string, a: Address): string {
    prefix + Join(Family(a), Entry(a))
  }

  /** The keys as they are written. */
  lemma KeysAreWritten(p: string, id: string)
    ensures Key(p, TaskAt(id)) == p + "task:" + id && Key(p, JobAt(id)) == p + "job:" + id
    ensures Key(p, ResultAt(id)) == p + "result:" + id && Key(p, EventsAt(id)) == p + "events:" + id
    ensures Key(p, RetryAt(id)) == p + "retry:" + id && Key(p, AllTasks) == p + "tasks:list"
  {}

  lemma IndexKeysAreWritten(p: string, id: string)
    ensures Key(p, TasksInState(id)) == p + "tasks:state:" + id && Key(p, JobsOfTask(id)) == p + "jobs:task:" + id
  {
    assert "tasks" + ":" + ("state" + ":" + id) == "tasks:state:" + id;
    assert "jobs" + ":" + ("task" + ":" + id) == "jobs:task:" + id;
    assert p + ("tasks:state:" + id) == p + "tasks:state:" + id;
    assert p + ("jobs:task:" + id) == p + "jobs:task:" + id;
  }

  lemma RecordKeysAreWritten(p: string, id: string, kind: string)
    ensures Key(p, RecordAt(kind, id)) == p + "record:" + kind + ":" + id
    ensures Key(p, RecordIndex(kind)) == p + "records:" + kind
  {
    assert "record" + ":" + (kind + ":" + id) == "record:" + kind + ":" + id;
    assert p + ("record:" + kind + ":" + id) == p + "record:" + kind + ":" + id;
  }

  predicate PlainKind(a: Address) {
    a.RecordAt? ==> ':' !in a.kind
  }

  lemma JoinIsInjective(head: string, rest: string, head': string, rest': string)
    requires ':' !in head && ':' !in head' && Join(head, rest) == Join(head', rest')
    ensures head == head' && rest == rest'
  {
    SplitsAtFirst(head, rest);
    SplitsAtFirst(head', rest');
  }

  /** No state's set is the list of all tasks. */
  lemma StatesAreNotTheList()
    ensures forall state {:trigger Join("state", state)} :: Join("state", state) != "list"
  {}

  lemma SameFamily(a: Address, b: Address)
    requires Family(a) == Family(b) && Entry(a) == Entry(b) && PlainKind(a) && PlainKind(b)
    ensures a == b
  {
    StatesAreNotTheList();
    match a
    case TasksInState(state) => JoinIsInjective("state", state, "state", b.state);
    case JobsOfTask(id) => JoinIsInjective("task", id, "task", b.id);
    case RecordAt(kind, id) => JoinIsInjective(kind, id, b.kind, b.id);
    case _ =>
  }

  /** Whatever the ids and states, two addresses share a key only if they are the same address, as
      long as no kind of record has a colon in its name. */
  lemma KeysCollideIff(prefix: string, a: Address, b: Address)
    requires PlainKind(a) && PlainKind(b)
    ensures Key(prefix, a) == Key(prefix, b) <==> a == b
  {
    if Key(prefix, a) == Key(prefix, b) {
      assert Key(prefix, a)[|prefix|..] == Join(Family(a), Entry(a));
      assert Key(prefix, b)[|prefix|..] == Join(Family(b), Entry(b));
      JoinIsInjective(Family(a), Entry(a), Family(b), Entry(b));
      SameFamily(a, b);
    }
  }

  /** With a colon in a kind they would: one part of the id could as well belong to the kind. */
  lemma ColonInKindCollides(prefix: string, kind: string, more: string, id: string)
    ensures Key(prefix, RecordAt(Join(kind, more), id)) == Key(prefix, RecordAt(kind, Join(more, id)))
    ensures RecordAt(Join(kind, more), id) != RecordAt(kind, Join(more, id))
  {}
}
