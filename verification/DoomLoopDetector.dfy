/** Repetition guards: src/domain/doom-loop/doom-loop-detector.ts. */
module DoomLoop {
  import opened Prelude

  type JobId = string
  type State = string

  // ---------------------------------------------------------------- transition loops

  datatype Transition = Transition(from: State, to: State)

  datatype Loop =
    | StateRepeat(state: State, count: nat)
    | Simple(pair: set<State>)
    | Complex(cycle: seq<State>)

  /** The states a job has visited: where it started, then where each transition led. */
  function Visited(h: seq<Transition>): seq<State> {
    if h == [] then [] else [h[0].from] + seq(|h|, i requires 0 <= i < |h| => h[i].to)
  }

  function Visits(s: seq<State>, x: State): nat {
    multiset(s)[x]
  }

  function Distinct(s: seq<State>): set<State> {
    set x | x in s
  }

  /** Some state was visited more often than allowed. */
  ghost predicate Repeats(h: seq<Transition>, maxRepeats: int) {
    |h| >= 2 && exists x :: x in Visited(h) && Visits(Visited(h), x) > maxRepeats
  }

  ghost predicate Oscillates(h: seq<Transition>) {
    |h| >= 2 && |Distinct(Visited(h))| == 2
  }

  /** At least five visits, with the first state seen again three or more places later. */
  ghost predicate ReturnsToStart(h: seq<Transition>) {
    |h| >= 4 && exists i :: 3 <= i <= |h| && Visited(h)[i] == Visited(h)[0]
  }

  /** The `i`th state: where the job started, and where transition `i - 1` led. */
  function StateAt(h: seq<Transition>, i: nat): State
    requires i <= |h| && h != []
  {
    if i == 0 then h[0].from else h[i - 1].to
  }

  /** The places at which the job was in `x`. */
  function PlacesOf(h: seq<Transition>, x: State): set<nat>
    requires h != []
  {
    set i: nat | i <= |h| && StateAt(h, i) == x
  }

  function PlacesIn(s: seq<State>, x: State): set<nat> {
    set i: nat | i < |s| && s[i] == x
  }

  lemma {:induction false} VisitsCountPlaces(s: seq<State>, x: State)
    ensures Visits(s, x) == |PlacesIn(s, x)|
  {
    if s == [] {
      assert PlacesIn(s, x) == {};
    } else {
      var before, last := s[..|s| - 1], |s| - 1;
      VisitsCountPlaces(before, x);
      assert s == before + [s[last]];
      assert PlacesIn(s, x) == PlacesIn(before, x) + if s[last] == x then {last} else {};
    }
  }

  lemma VisitsArePlaces(h: seq<Transition>, x: State)
    requires h != []
    ensures Visits(Visited(h), x) == |PlacesOf(h, x)| && (x in Visited(h) <==> PlacesOf(h, x) != {})
  {
    VisitsCountPlaces(Visited(h), x);
    assert PlacesIn(Visited(h), x) == PlacesOf(h, x);
    if x in Visited(h) {
      var i :| 0 <= i < |Visited(h)| && Visited(h)[i] == x;
      assert i in PlacesOf(h, x);
    }
  }

  /** A state repeats if the job was in it at more than so many places. */
  lemma RepeatsIff(h: seq<Transition>, maxRepeats: int)
    requires |h| >= 2
    ensures Repeats(h, maxRepeats) <==> exists x :: PlacesOf(h, x) != {} && |PlacesOf(h, x)| > maxRepeats
  {
    if Repeats(h, maxRepeats) {
      var x :| x in Visited(h) && Visits(Visited(h), x) > maxRepeats;
      VisitsArePlaces(h, x);
    }
    if x :| PlacesOf(h, x) != {} && |PlacesOf(h, x)| > maxRepeats {
      VisitsArePlaces(h, x);
    }
  }

  /** The job was in the states at the first and at place `i`, two different ones, and in no third. */
  ghost predicate TwoOnly(h: seq<Transition>, i: nat) {
    && h != [] && i <= |h| && StateAt(h, i) != h[0].from
    && forall k: nat :: k <= |h| ==> StateAt(h, k) in {h[0].from, StateAt(h, i)}
  }

  lemma TwoOf(d: set<State>, x: State) returns (y: State)
    requires |d| == 2 && x in d
    ensures y != x && d == {x, y}
  {
    var rest := d - {x};
    assert |rest| == 1;
    y :| y in rest;
    assert |rest - {y}| == 0;
    assert d == {x, y};
  }

  lemma WhereVisited(h: seq<Transition>, x: State) returns (i: nat)
    requires h != [] && x in Visited(h)
    ensures i <= |h| && StateAt(h, i) == x
  {
    i :| i < |Visited(h)| && Visited(h)[i] == x;
  }

  lemma VisitedThere(h: seq<Transition>, i: nat)
    requires h != [] && i <= |h|
    ensures StateAt(h, i) in Distinct(Visited(h))
  {
    assert Visited(h)[i] == StateAt(h, i);
  }

  lemma TwoVisited(h: seq<Transition>, i: nat)
    requires TwoOnly(h, i)
    ensures Distinct(Visited(h)) == {h[0].from, StateAt(h, i)}
  {
    VisitedThere(h, 0);
    VisitedThere(h, i);
    forall x | x in Distinct(Visited(h)) ensures x in {h[0].from, StateAt(h, i)} {
      var k := WhereVisited(h, x);
    }
  }

  /** The job alternates if it was in two states and in no third. */
  lemma OscillatesIff(h: seq<Transition>)
    requires |h| >= 2
    ensures Oscillates(h) <==> exists i :: TwoOnly(h, i)
  {
    if Oscillates(h) {
      VisitedThere(h, 0);
      var y := TwoOf(Distinct(Visited(h)), h[0].from);
      var i := WhereVisited(h, y);
      forall k: nat | k <= |h| ensures StateAt(h, k) in {h[0].from, y} {
        VisitedThere(h, k);
      }
      assert TwoOnly(h, i);
    }
    if i :| TwoOnly(h, i) {
      TwoVisited(h, i);
    }
  }

  lemma ReturnsIff(h: seq<Transition>)
    requires h != []
    ensures ReturnsToStart(h) <==> |h| >= 4 && exists i: nat :: 3 <= i <= |h| && StateAt(h, i) == h[0].from
  {
    assert forall i: nat :: i <= |h| ==> Visited(h)[i] == StateAt(h, i);
  }

  /** One transition alone is no loop of any kind. */
  lemma ShortIsNoLoop(h: seq<Transition>, maxRepeats: int)
    requires |h| < 2
    ensures !Repeats(h, maxRepeats) && !Oscillates(h) && !ReturnsToStart(h)
  {}

  lemma {:induction false} CountedByState(m: multiset<State>, support: set<State>, bound: int)
    requires bound >= 0
    requires forall x :: x in m ==> x in support && m[x] <= bound
    ensures |m| <= bound * |support|
    decreases support
  {
    if support == {} {
      assert m == multiset{};
    } else {
      var x :| x in support;
      CountedByState(m[x := 0], support - {x}, bound);
      assert |m| == |m[x := 0]| + m[x];
      assert bound * |support| == bound * |support - {x}| + bound;
    }
  }

  /** Pigeonhole: more visits than `maxRepeats` per distinct state means some state repeats. */
  lemma Pigeonhole(h: seq<Transition>, maxRepeats: int)
    requires |h| >= 2
    requires |Visited(h)| > maxRepeats * |Distinct(Visited(h))|
    ensures Repeats(h, maxRepeats)
  {
    var s := Visited(h);
    assert |multiset(s)| == |s|;
    if maxRepeats < 0 {
      assert s[0] in s && Visits(s, s[0]) > maxRepeats;
    } else if forall x :: x in s ==> Visits(s, x) <= maxRepeats {
      CountedByState(multiset(s), Distinct(s), maxRepeats);
    }
  }

  lemma CountInPrefix(s: seq<State>, t: seq<State>, x: State)
    requires s <= t
    ensures Visits(s, x) <= Visits(t, x)
  {
    assert t == s + t[|s|..];
  }

  /** A repeated state stays repeated however the history goes on. */
  lemma RepeatsIsPermanent(h: seq<Transition>, more: seq<Transition>, maxRepeats: int)
    requires Repeats(h, maxRepeats)
    ensures Repeats(h + more, maxRepeats)
  {
    var s, t := Visited(h), Visited(h + more);
    var x :| x in s && Visits(s, x) > maxRepeats;
    forall i | 0 <= i < |s| ensures s[i] == t[i] {
      assert i > 0 ==> (h + more)[i - 1] == h[i - 1];
    }
    CountInPrefix(s, t, x);
  }

  // ---------------------------------------------------------------- fingerprint window

  type Fingerprint = string

  datatype Entry = Entry(fingerprint: Fingerprint, stage: string, task: string, job: JobId)

  datatype WindowConfig = WindowConfig(window: int, warn: int, block: int)

  const DEFAULT_WINDOW := WindowConfig(20, 3, 4)

  datatype Guard = Guard(history: seq<Entry>, warned: set<Fingerprint>, blocked: set<Fingerprint>)

  const CLEAR := Guard([], {}, {})

  datatype Action = NoAction | Warn | Block

  /** The last `n` entries; none at all for a window of zero or less. */
  function Last(log: seq<Entry>, n: int): seq<Entry> {
    if n <= 0 then [] else if |log| <= n then log else log[|log| - n..]
  }

  predicate Same(a: Entry, b: Entry) {
    a.fingerprint == b.fingerprint && a.stage == b.stage
  }

  function Occurrences(h: seq<Entry>, e: Entry): nat {
    if h == [] then 0
    else Occurrences(h[..|h| - 1], e) + (if Same(h[|h| - 1], e) then 1 else 0)
  }

  function Verdict(g: Guard, cfg: WindowConfig, e: Entry, count: nat): Action {
    if e.fingerprint in g.blocked || count >= cfg.block then Block
    else if count >= cfg.warn && e.fingerprint !in g.warned then Warn
    else NoAction
  }

  function Check(g: Guard, cfg: WindowConfig, e: Entry): (r: (Guard, Action)) {
    var history := Last(g.history + [e], cfg.window);
    match Verdict(g, cfg, e, Occurrences(history, e))
    case Block => (Guard(history, g.warned, g.blocked + {e.fingerprint}), Block)
    case Warn => (Guard(history, g.warned + {e.fingerprint}, g.blocked), Warn)
    case NoAction => (Guard(history, g.warned, g.blocked), NoAction)
  }

  datatype GuardOp = CheckLoop(entry: Entry) | Clear(fingerprint: Fingerprint) | ClearAll

  function GuardStep(g: Guard, cfg: WindowConfig, op: GuardOp): Guard {
    match op
    case CheckLoop(e) => Check(g, cfg, e).0
    case Clear(f) => Guard(g.history, g.warned - {f}, g.blocked - {f})
    case ClearAll => CLEAR
  }

  function GuardAfter(cfg: WindowConfig, run: seq<GuardOp>, n: nat): Guard
    requires n <= |run|
  {
    if n == 0 then CLEAR else GuardStep(GuardAfter(cfg, run, n - 1), cfg, run[n - 1])
  }

  /** Every call since the guard was last cleared completely. */
  function FullLog(run: seq<GuardOp>, n: nat): seq<Entry>
    requires n <= |run|
  {
    if n == 0 then [] else Logged(FullLog(run, n - 1), run[n - 1])
  }

  function Logged(log: seq<Entry>, op: GuardOp): seq<Entry> {
    match op
    case CheckLoop(e) => log + [e]
    case Clear(_) => log
    case ClearAll => []
  }

  /** The answer to call `i` of the run. */
  function Answer(cfg: WindowConfig, run: seq<GuardOp>, i: nat): Action
    requires i < |run|
  {
    if run[i].CheckLoop? then Check(GuardAfter(cfg, run, i), cfg, run[i].entry).1 else NoAction
  }

  /** Event `i` clears the verdicts on `f`. */
  predicate Clears(run: seq<GuardOp>, i: nat, f: Fingerprint)
    requires i < |run|
  {
    run[i].ClearAll? || run[i] == Clear(f)
  }

  predicate Answers(cfg: WindowConfig, run: seq<GuardOp>, i: nat, f: Fingerprint, a: Action)
    requires i < |run|
  {
    run[i].CheckLoop? && run[i].entry.fingerprint == f && Answer(cfg, run, i) == a
  }

  lemma TailOfTail(log: seq<Entry>, e: Entry, n: int)
    ensures Last(Last(log, n) + [e], n) == Last(log + [e], n)
  {}

  lemma StepTrims(g: Guard, cfg: WindowConfig, op: GuardOp, log: seq<Entry>)
    requires g.history == Last(log, cfg.window)
    ensures GuardStep(g, cfg, op).history == Last(Logged(log, op), cfg.window)
  {
    if op.CheckLoop? {
      TailOfTail(log, op.entry, cfg.window);
    }
  }

  /** The window kept is always the tail of the full log: trimming as one goes loses nothing. */
  lemma {:induction false} WindowIsTailOfLog(cfg: WindowConfig, run: seq<GuardOp>, n: nat)
    requires n <= |run|
    ensures GuardAfter(cfg, run, n).history == Last(FullLog(run, n), cfg.window)
  {
    if n > 0 {
      WindowIsTailOfLog(cfg, run, n - 1);
      StepTrims(GuardAfter(cfg, run, n - 1), cfg, run[n - 1], FullLog(run, n - 1));
    }
  }

  /** `f` was answered `a` before call `n`, and has not been cleared since. */
  ghost predicate Stands(cfg: WindowConfig, run: seq<GuardOp>, n: nat, f: Fingerprint, a: Action)
    requires n <= |run|
  {
    n > 0 && !Clears(run, n - 1, f) && (Answers(cfg, run, n - 1, f, a) || Stands(cfg, run, n - 1, f, a))
  }

  lemma {:induction false} WhenAnswered(cfg: WindowConfig, run: seq<GuardOp>, n: nat, f: Fingerprint, a: Action) returns (i: nat)
    requires n <= |run| && Stands(cfg, run, n, f, a)
    ensures i < n && Answers(cfg, run, i, f, a)
    ensures forall m | i < m < n :: !Clears(run, m, f)
  {
    i := n - 1;
    if !Answers(cfg, run, n - 1, f, a) {
      i := WhenAnswered(cfg, run, n - 1, f, a);
    }
  }

  lemma {:induction false} StandsUntilCleared(cfg: WindowConfig, run: seq<GuardOp>, i: nat, n: nat, f: Fingerprint, a: Action)
    requires i < n <= |run| && Answers(cfg, run, i, f, a)
    requires forall m | i < m < n :: !Clears(run, m, f)
    ensures Stands(cfg, run, n, f, a)
  {
    if n > i + 1 {
      StandsUntilCleared(cfg, run, i, n - 1, f, a);
      assert !Clears(run, n - 1, f);
    }
  }

  lemma StepSetsVerdict(g: Guard, cfg: WindowConfig, op: GuardOp, f: Fingerprint)
    ensures var answered := if op.CheckLoop? && op.entry.fingerprint == f then Check(g, cfg, op.entry).1 else NoAction;
            var cleared := op.ClearAll? || op == Clear(f);
            var after := GuardStep(g, cfg, op);
      && (f in after.blocked <==> !cleared && (answered == Block || f in g.blocked))
      && (f in after.warned <==> !cleared && (answered == Warn || f in g.warned))
  {}

  lemma {:induction false} SetsAreStandingVerdicts(cfg: WindowConfig, run: seq<GuardOp>, n: nat, f: Fingerprint)
    requires n <= |run|
    ensures f in GuardAfter(cfg, run, n).blocked <==> Stands(cfg, run, n, f, Block)
    ensures f in GuardAfter(cfg, run, n).warned <==> Stands(cfg, run, n, f, Warn)
  {
    if n > 0 {
      SetsAreStandingVerdicts(cfg, run, n - 1, f);
      StepSetsVerdict(GuardAfter(cfg, run, n - 1), cfg, run[n - 1], f);
    }
  }

  /** A fingerprint stands blocked from its first block until it is cleared. */
  lemma BlockedUntilCleared(cfg: WindowConfig, run: seq<GuardOp>, i: nat, n: nat, f: Fingerprint)
    requires i < n <= |run| && Answers(cfg, run, i, f, Block)
    requires forall m | i < m < n :: !Clears(run, m, f)
    ensures f in GuardAfter(cfg, run, n).blocked
  {
    StandsUntilCleared(cfg, run, i, n, f, Block);
    SetsAreStandingVerdicts(cfg, run, n, f);
  }

  /** Where the same call was made at the same stage, among the last `window` of the log. */
  function Sightings(log: seq<Entry>, window: int, e: Entry): set<nat> {
    set i: nat | |log| - window <= i < |log| && log[i].fingerprint == e.fingerprint && log[i].stage == e.stage
  }

  function SameFrom(log: seq<Entry>, from: nat, e: Entry): set<nat> {
    set i: nat | from <= i < |log| && Same(log[i], e)
  }

  lemma {:induction false} OccurrencesFrom(log: seq<Entry>, from: nat, e: Entry)
    requires from <= |log|
    ensures Occurrences(log[from..], e) == |SameFrom(log, from, e)|
    decreases |log|
  {
    if from == |log| {
      assert SameFrom(log, from, e) == {};
    } else {
      var before, last := log[..|log| - 1], |log| - 1;
      OccurrencesFrom(before, from, e);
      assert log[from..][..last - from] == before[from..];
      assert SameFrom(log, from, e) == SameFrom(before, from, e) + if Same(log[last], e) then {last} else {};
    }
  }

  lemma CountedSightings(log: seq<Entry>, window: int, e: Entry)
    ensures Occurrences(Last(log, window), e) == |Sightings(log, window, e)|
  {
    var from := if window <= 0 then |log| else if |log| <= window then 0 else |log| - window;
    OccurrencesFrom(log, from, e);
    assert log[from..] == Last(log, window);
    assert SameFrom(log, from, e) == Sightings(log, window, e);
  }

  /** With the default thresholds: the third sighting among the last twenty calls warns, the fourth blocks. */
  lemma DefaultAnswers(run: seq<GuardOp>, n: nat)
    requires n < |run| && run[n].CheckLoop? && !Stands(DEFAULT_WINDOW, run, n, run[n].entry.fingerprint, Block)
    ensures var e := run[n].entry;
            var count := |Sightings(FullLog(run, n) + [e], 20, e)|;
      && (count < 3 ==> Answer(DEFAULT_WINDOW, run, n) == NoAction)
      && (count == 3 && !Stands(DEFAULT_WINDOW, run, n, e.fingerprint, Warn) ==> Answer(DEFAULT_WINDOW, run, n) == Warn)
      && (count >= 4 <==> Answer(DEFAULT_WINDOW, run, n) == Block)
  {
    AnsweredExactly(DEFAULT_WINDOW, run, n);
  }

  /** What every call is answered, read off the run alone. It is blocked iff its fingerprint was
      blocked earlier and not cleared since, or it occurs often enough, for its stage, among the last
      `window` calls of the full log; it is warned about iff it is not blocked, occurs often enough
      for that, and was not warned about since it was last cleared. */
  lemma AnsweredExactly(cfg: WindowConfig, run: seq<GuardOp>, n: nat)
    requires n < |run| && run[n].CheckLoop?
    ensures var e := run[n].entry;
            var count := |Sightings(FullLog(run, n) + [e], cfg.window, e)|;
      Answer(cfg, run, n) ==
        if Stands(cfg, run, n, e.fingerprint, Block) || count >= cfg.block then Block
        else if count >= cfg.warn && !Stands(cfg, run, n, e.fingerprint, Warn) then Warn
        else NoAction
  {
    WindowIsTailOfLog(cfg, run, n);
    CountedSightings(FullLog(run, n) + [run[n].entry], cfg.window, run[n].entry);
    SetsAreStandingVerdicts(cfg, run, n, run[n].entry.fingerprint);
    TailOfTail(FullLog(run, n), run[n].entry, cfg.window);
  }

  // ---------------------------------------------------------------- warning before blocking

  /** Calls only: what happens between two complete clears when no fingerprint is cleared by hand. */
  function Calls(log: seq<Entry>): seq<GuardOp> {
    seq(|log|, i requires 0 <= i < |log| => CheckLoop(log[i]))
  }

  /** No fingerprint is cleared by hand. */
  predicate NoneCleared(run: seq<GuardOp>) {
    forall m :: 0 <= m < |run| ==> !run[m].Clear?
  }

  /** The call at `k` blocks its fingerprint. */
  predicate BlocksAt(cfg: WindowConfig, run: seq<GuardOp>, k: nat)
    requires k < |run|
  {
    run[k].CheckLoop? && Answer(cfg, run, k) == Block
  }

  /** An earlier call warned about it, and no complete clear came between. */
  ghost predicate WarnedBefore(cfg: WindowConfig, run: seq<GuardOp>, k: nat)
    requires k < |run| && run[k].CheckLoop?
  {
    exists i :: 0 <= i < k && Answers(cfg, run, i, run[k].entry.fingerprint, Warn) && forall m | i < m < k :: !run[m].ClearAll?
  }

  /** In every run of calls and complete clears, no fingerprint is blocked that was not warned about since
      the last complete clear. */
  ghost predicate WarnsFirst(cfg: WindowConfig) {
    forall run: seq<GuardOp>, k: nat | k < |run| && NoneCleared(run) && BlocksAt(cfg, run, k) ::
      WarnedBefore(cfg, run, k)
  }

  lemma {:induction false} OccurrencesBounded(h: seq<Entry>, e: Entry)
    ensures Occurrences(h, e) <= |h|
  {
    if h != [] {
      OccurrencesBounded(h[..|h| - 1], e);
    }
  }

  lemma {:induction false} OccurrencesInTail(h: seq<Entry>, from: nat, e: Entry)
    requires from <= |h|
    ensures Occurrences(h[from..], e) <= Occurrences(h, e)
    decreases |h|
  {
    if from < |h| {
      OccurrencesInTail(h[..|h| - 1], from, e);
      assert h[from..][..|h| - from - 1] == h[..|h| - 1][from..];
    }
  }

  lemma {:induction false} LogOfCalls(log: seq<Entry>, n: nat)
    requires n <= |log|
    ensures FullLog(Calls(log), n) == log[..n]
  {
    if n > 0 {
      LogOfCalls(log, n - 1);
    }
  }

  /** The last sighting in a stretch has counted all of them. */
  lemma {:induction false} LastSighting(h: seq<Entry>, e: Entry) returns (p: nat)
    requires Occurrences(h, e) >= 1
    ensures p < |h| && Same(h[p], e) && Occurrences(h[..p + 1], e) == Occurrences(h, e)
  {
    p := |h| - 1;
    if Same(h[p], e) {
      assert h[..p + 1] == h;
    } else {
      p := LastSighting(h[..p], e);
      assert h[..|h| - 1][..p + 1] == h[..p + 1];
    }
  }

  /** The window at `p` covers any earlier window's entries up to `p`. */
  lemma WindowCovers(log: seq<Entry>, window: int, start: nat, p: nat, e: Entry)
    requires start <= p < |log| && p + 1 - start <= window
    ensures Occurrences(log[start..p + 1], e) <= Occurrences(Last(log[..p + 1], window), e)
  {
    var tail := Last(log[..p + 1], window);
    var skip := start - (p + 1 - |tail|);
    assert tail[skip..] == log[start..p + 1];
    OccurrencesInTail(tail, skip, e);
  }

  /** The number of recent sightings grows by at most one from one sighting to the next, so a count
      of two or more was preceded by a sighting that counted at least one less. */
  lemma PreviousSighting(log: seq<Entry>, window: int, k: nat) returns (p: nat)
    requires k < |log| && Occurrences(Last(log[..k + 1], window), log[k]) >= 2
    ensures p < k && Same(log[p], log[k])
    ensures Occurrences(Last(log[..p + 1], window), log[p]) + 1 >= Occurrences(Last(log[..k + 1], window), log[k])
  {
    var start := k + 1 - |Last(log[..k + 1], window)|;
    EarlierSightings(log, window, k, start);
    p := SightingAfter(log, start, k);
    WindowCovers(log, window, start, p, log[k]);
    SameKeySameCount(Last(log[..p + 1], window), log[k], log[p]);
  }

  lemma EarlierSightings(log: seq<Entry>, window: int, k: nat, start: int)
    requires k < |log| && start == k + 1 - |Last(log[..k + 1], window)|
    requires Occurrences(Last(log[..k + 1], window), log[k]) >= 1
    ensures 0 <= start <= k && k + 1 - start <= window
    ensures Occurrences(log[start..k], log[k]) == Occurrences(Last(log[..k + 1], window), log[k]) - 1
  {
    var tail := Last(log[..k + 1], window);
    assert tail == log[start..k + 1] && tail[..|tail| - 1] == log[start..k];
  }

  /** The last sighting before `k`, but not before `start`. */
  lemma SightingAfter(log: seq<Entry>, start: nat, k: nat) returns (p: nat)
    requires start <= k < |log| && Occurrences(log[start..k], log[k]) >= 1
    ensures start <= p < k && Same(log[p], log[k])
    ensures Occurrences(log[start..p + 1], log[k]) == Occurrences(log[start..k], log[k])
  {
    var q := LastSighting(log[start..k], log[k]);
    p := start + q;
    assert log[start..k][..q + 1] == log[start..p + 1];
  }

  lemma {:induction false} SameKeySameCount(h: seq<Entry>, e: Entry, f: Entry)
    requires Same(e, f)
    ensures Occurrences(h, e) == Occurrences(h, f)
  {
    if h != [] {
      SameKeySameCount(h[..|h| - 1], e, f);
    }
  }

  /** The count cannot reach the block threshold, or passes through the warn threshold on an earlier call. */
  predicate PassesWarn(cfg: WindowConfig) {
    1 <= cfg.block && (cfg.window < cfg.block || (cfg.warn < cfg.block && 2 <= cfg.block))
  }

  /** When the count can reach the block threshold at all, it passes through the warn threshold on
      an earlier call precisely when the block threshold is at least two and above the warn
      threshold. */
  lemma WarnsFirstIff(cfg: WindowConfig)
    ensures WarnsFirst(cfg) <==>
      || (cfg.window < cfg.block && 1 <= cfg.block)
      || (cfg.warn < cfg.block && 2 <= cfg.block)
  {
    if PassesWarn(cfg) {
      forall run: seq<GuardOp>, k: nat | k < |run| && NoneCleared(run) && BlocksAt(cfg, run, k)
        ensures WarnedBefore(cfg, run, k)
      {
        WarnedInStretch(cfg, run, k);
      }
    } else {
      UnwarnedBlock(cfg);
    }
  }

  // ---------------------------------------------------------------- the stretch since the last clear

  /** Where the events since the last complete clear begin. */
  function StretchStart(run: seq<GuardOp>, n: nat): (c: nat)
    requires n <= |run|
    ensures c <= n && (c > 0 ==> run[c - 1].ClearAll?)
    ensures forall m :: c <= m < n ==> !run[m].ClearAll?
  {
    if n == 0 || run[n - 1].ClearAll? then n else StretchStart(run, n - 1)
  }

  /** `ops` are the events of `run` from `c` on, up to some later one, after a complete clear. */
  ghost predicate IsStretch(cfg: WindowConfig, run: seq<GuardOp>, c: nat, ops: seq<GuardOp>) {
    && c + |ops| <= |run| && GuardAfter(cfg, run, c) == CLEAR
    && forall m :: 0 <= m < |ops| ==> ops[m] == run[c + m]
  }

  ghost predicate SameGuard(cfg: WindowConfig, run: seq<GuardOp>, c: nat, ops: seq<GuardOp>, j: nat) {
    j <= |ops| && c + j <= |run| && GuardAfter(cfg, run, c + j) == GuardAfter(cfg, ops, j)
  }

  lemma NextSameGuard(cfg: WindowConfig, run: seq<GuardOp>, c: nat, ops: seq<GuardOp>, j: nat)
    requires SameGuard(cfg, run, c, ops, j) && j < |ops| && c + j < |run| && ops[j] == run[c + j]
    ensures SameGuard(cfg, run, c, ops, j + 1)
  {}

  /** From a clear guard on, it knows no more than what came since. */
  lemma {:induction false} GuardOfStretch(cfg: WindowConfig, run: seq<GuardOp>, c: nat, ops: seq<GuardOp>, i: nat, j: nat)
    requires IsStretch(cfg, run, c, ops) && i <= j <= |ops| && SameGuard(cfg, run, c, ops, i)
    ensures SameGuard(cfg, run, c, ops, j)
    decreases j - i
  {
    if i < j {
      NextSameGuard(cfg, run, c, ops, i);
      GuardOfStretch(cfg, run, c, ops, i + 1, j);
    }
  }

  lemma AnswerInStretch(cfg: WindowConfig, run: seq<GuardOp>, c: nat, ops: seq<GuardOp>, j: nat, f: Fingerprint, a: Action)
    requires IsStretch(cfg, run, c, ops) && j < |ops|
    ensures Answers(cfg, run, c + j, f, a) <==> Answers(cfg, ops, j, f, a)
  {
    GuardOfStretch(cfg, run, c, ops, 0, j);
  }

  function EntriesOf(ops: seq<GuardOp>): seq<Entry>
    requires forall m :: 0 <= m < |ops| ==> ops[m].CheckLoop?
  {
    seq(|ops|, m requires 0 <= m < |ops| => ops[m].entry)
  }

  lemma CallsOfEntries(ops: seq<GuardOp>)
    requires forall m :: 0 <= m < |ops| ==> ops[m].CheckLoop?
    ensures Calls(EntriesOf(ops)) == ops
  {}

  lemma StretchIsWarned(cfg: WindowConfig, ops: seq<GuardOp>, k: nat) returns (i: nat)
    requires k < |ops| && forall m :: 0 <= m < |ops| ==> ops[m].CheckLoop?
    requires PassesWarn(cfg) && Answers(cfg, ops, k, ops[k].entry.fingerprint, Block)
    ensures i < k && Answers(cfg, ops, i, ops[k].entry.fingerprint, Warn)
  {
    var log := EntriesOf(ops);
    CallsOfEntries(ops);
    BlockImpliesWarning(cfg, log, k);
    i :| 0 <= i < k && Answers(cfg, Calls(log), i, log[k].fingerprint, Warn);
  }

  lemma WarnedSince(cfg: WindowConfig, run: seq<GuardOp>, c: nat, ops: seq<GuardOp>, k: nat) returns (i: nat)
    requires IsStretch(cfg, run, c, ops) && k < |ops| && forall m :: 0 <= m < |ops| ==> ops[m].CheckLoop?
    requires BlocksAt(cfg, run, c + k) && PassesWarn(cfg)
    ensures i < k && Answers(cfg, run, c + i, run[c + k].entry.fingerprint, Warn)
  {
    var f := run[c + k].entry.fingerprint;
    AnswerInStretch(cfg, run, c, ops, k, f, Block);
    i := StretchIsWarned(cfg, ops, k);
    AnswerInStretch(cfg, run, c, ops, i, f, Warn);
  }

  lemma StretchUpTo(cfg: WindowConfig, run: seq<GuardOp>, k: nat) returns (c: nat, ops: seq<GuardOp>)
    requires k < |run| && NoneCleared(run) && run[k].CheckLoop?
    ensures c <= k && |ops| == k - c + 1 && IsStretch(cfg, run, c, ops)
    ensures forall m :: 0 <= m < |ops| ==> ops[m].CheckLoop?
    ensures forall m :: c <= m <= k ==> !run[m].ClearAll?
  {
    c := StretchStart(run, k);
    ops := run[c..k + 1];
  }

  lemma WarnedInStretch(cfg: WindowConfig, run: seq<GuardOp>, k: nat)
    requires k < |run| && NoneCleared(run) && BlocksAt(cfg, run, k) && PassesWarn(cfg)
    ensures WarnedBefore(cfg, run, k)
  {
    var c, ops := StretchUpTo(cfg, run, k);
    var i := WarnedSince(cfg, run, c, ops, k - c);
    assert Answers(cfg, run, c + i, run[k].entry.fingerprint, Warn);
  }

  /** The count the guard sees at call `i`. */
  function CountAt(cfg: WindowConfig, log: seq<Entry>, i: nat): nat
    requires i < |log|
  {
    Occurrences(Last(log[..i + 1], cfg.window), log[i])
  }

  lemma HistoryAtCall(cfg: WindowConfig, log: seq<Entry>, i: nat)
    requires i < |log|
    ensures GuardAfter(cfg, Calls(log), i).history == Last(log[..i], cfg.window)
  {
    WindowIsTailOfLog(cfg, Calls(log), i);
    LogOfCalls(log, i);
  }

  lemma NextWindow(log: seq<Entry>, i: nat, window: int)
    requires i < |log|
    ensures Last(Last(log[..i], window) + [log[i]], window) == Last(log[..i + 1], window)
  {
    var longer := log[..i + 1];
    assert longer == log[..i] + [log[i]];
    TailOfTail(log[..i], log[i], window);
  }

  lemma WindowAtCall(cfg: WindowConfig, log: seq<Entry>, i: nat)
    requires i < |log|
    ensures Last(GuardAfter(cfg, Calls(log), i).history + [log[i]], cfg.window) == Last(log[..i + 1], cfg.window)
  {
    HistoryAtCall(cfg, log, i);
    NextWindow(log, i, cfg.window);
  }

  lemma CallsSeeTheLog(cfg: WindowConfig, log: seq<Entry>, i: nat)
    requires i < |log|
    ensures Answer(cfg, Calls(log), i) == Verdict(GuardAfter(cfg, Calls(log), i), cfg, log[i], CountAt(cfg, log, i))
  {
    WindowAtCall(cfg, log, i);
    assert Calls(log)[i] == CheckLoop(log[i]);
  }

  /** A call that finds its fingerprint unblocked and blocks it was preceded by another that warned
      about it, or blocked it already. */
  lemma FirstBlock(cfg: WindowConfig, log: seq<Entry>, k: nat) returns (p: nat)
    requires PassesWarn(cfg)
    requires k < |log| && Answers(cfg, Calls(log), k, log[k].fingerprint, Block)
    requires log[k].fingerprint !in GuardAfter(cfg, Calls(log), k).blocked
    ensures p < k && log[p].fingerprint == log[k].fingerprint
    ensures Answer(cfg, Calls(log), p) != NoAction || log[p].fingerprint in GuardAfter(cfg, Calls(log), p).warned
  {
    CallsSeeTheLog(cfg, log, k);
    OccurrencesBounded(Last(log[..k + 1], cfg.window), log[k]);
    p := PreviousSighting(log, cfg.window, k);
    CallsSeeTheLog(cfg, log, p);
  }

  lemma {:induction false} BlockImpliesWarning(cfg: WindowConfig, log: seq<Entry>, k: nat)
    requires PassesWarn(cfg)
    requires k < |log| && Answers(cfg, Calls(log), k, log[k].fingerprint, Block)
    ensures exists i :: 0 <= i < k && Answers(cfg, Calls(log), i, log[k].fingerprint, Warn)
  {
    var f, run := log[k].fingerprint, Calls(log);
    SetsAreStandingVerdicts(cfg, run, k, f);
    if f in GuardAfter(cfg, run, k).blocked {
      var i := WhenAnswered(cfg, run, k, f, Block);
      BlockImpliesWarning(cfg, log, i);
    } else {
      var p := FirstBlock(cfg, log, k);
      EarlierVerdict(cfg, log, p, f);
      if Answer(cfg, run, p) == Block {
        BlockImpliesWarning(cfg, log, p);
      }
    }
  }

  lemma EarlierVerdict(cfg: WindowConfig, log: seq<Entry>, p: nat, f: Fingerprint)
    requires p < |log| && log[p].fingerprint == f
    ensures Answers(cfg, Calls(log), p, f, Answer(cfg, Calls(log), p))
    ensures f in GuardAfter(cfg, Calls(log), p).warned ==> exists i :: 0 <= i < p && Answers(cfg, Calls(log), i, f, Warn)
  {
    SetsAreStandingVerdicts(cfg, Calls(log), p, f);
    if f in GuardAfter(cfg, Calls(log), p).warned {
      var i := WhenAnswered(cfg, Calls(log), p, f, Warn);
    }
  }

  lemma {:induction false} AllTheSame(e: Entry, n: nat, window: int)
    ensures Occurrences(Last(seq(n, _ => e), window), e) == if window < 0 then 0 else if n <= window then n else window
    decreases n
  {
    if 0 < n <= window {
      AllTheSame(e, n - 1, window);
      assert seq(n, _ => e)[..n - 1] == seq(n - 1, _ => e);
    } else if 0 < window < n {
      AllTheSame(e, window, window);
      assert seq(n, _ => e)[n - window..] == seq(window, _ => e);
    }
  }

  lemma RepeatedCount(cfg: WindowConfig, e: Entry, n: nat, i: nat)
    requires i < n
    ensures CountAt(cfg, seq(n, _ => e), i) == if cfg.window < 0 then 0 else if i + 1 <= cfg.window then i + 1 else cfg.window
  {
    assert seq(n, _ => e)[..i + 1] == seq(i + 1, _ => e);
    AllTheSame(e, i + 1, cfg.window);
  }

  lemma RepeatedIsNotWarned(cfg: WindowConfig, e: Entry, n: nat, i: nat)
    requires i + 1 < n == cfg.block <= cfg.window && cfg.warn >= cfg.block
    ensures !Answers(cfg, Calls(seq(n, _ => e)), i, e.fingerprint, Warn)
  {
    CallsSeeTheLog(cfg, seq(n, _ => e), i);
    RepeatedCount(cfg, e, n, i);
  }

  lemma RepeatedBlocks(cfg: WindowConfig, e: Entry, n: nat)
    requires n == if cfg.block < 1 then 1 else cfg.block
    requires cfg.block < 1 || cfg.window >= cfg.block
    ensures Answers(cfg, Calls(seq(n, _ => e)), n - 1, e.fingerprint, Block)
  {
    CallsSeeTheLog(cfg, seq(n, _ => e), n - 1);
    RepeatedCount(cfg, e, n, n - 1);
  }

  /** The counterexample: one call repeated until it blocks, with no warning on the way. */
  lemma UnwarnedBlock(cfg: WindowConfig)
    requires cfg.block < 1 || (cfg.window >= cfg.block && (cfg.block == 1 || cfg.warn >= cfg.block))
    ensures !WarnsFirst(cfg)
  {
    var e := Entry("f", "dev", "t", "j");
    var n := if cfg.block < 1 then 1 else cfg.block;
    var run := Calls(seq(n, _ => e));
    RepeatedBlocks(cfg, e, n);
    forall i: nat | i < n - 1 ensures !Answers(cfg, run, i, "f", Warn) {
      RepeatedIsNotWarned(cfg, e, n, i);
    }
    assert NoneCleared(run) && BlocksAt(cfg, run, n - 1) && !WarnedBefore(cfg, run, n - 1);
  }

  // ---------------------------------------------------------------- the detector

  /** What a verdict on a history says: which test fired, and its evidence. A repeated state is the
      first one, in order of first visit, that exceeds the limit. */
  ghost predicate Explains(r: Option<Loop>, h: seq<Transition>, maxRepeats: int) {
    var s := Visited(h);
    match r
    case None => !Repeats(h, maxRepeats) && !Oscillates(h) && !ReturnsToStart(h)
    case Some(StateRepeat(x, count)) =>
      && Repeats(h, maxRepeats) && count == Visits(s, x) > maxRepeats
      && exists i :: 0 <= i < |s| && s[i] == x && forall k :: 0 <= k < i ==> Visits(s, s[k]) <= maxRepeats
    case Some(Simple(pair)) =>
      !Repeats(h, maxRepeats) && Oscillates(h) && pair == Distinct(s)
    case Some(Complex(cycle)) =>
      && !Repeats(h, maxRepeats) && !Oscillates(h) && ReturnsToStart(h)
      && cycle < s && s[|cycle|] == s[0] && forall k :: |cycle| < k < |s| ==> s[k] != s[0]
  }

  /** The distinct states in the order they were first visited. */
  function FirstVisits(s: seq<State>): seq<State> {
    if s == [] then []
    else
      var before := FirstVisits(s[..|s| - 1]);
      if s[|s| - 1] in before then before else before + [s[|s| - 1]]
  }

  lemma {:induction false} FirstVisitsListsAll(s: seq<State>)
    ensures forall x :: x in FirstVisits(s) <==> x in s
    ensures forall i, j :: 0 <= i < j < |FirstVisits(s)| ==> FirstVisits(s)[i] != FirstVisits(s)[j]
  {
    if s != [] {
      FirstVisitsListsAll(s[..|s| - 1]);
      assert s == s[..|s| - 1] + [s[|s| - 1]];
    }
  }

  lemma {:induction false} FirstVisitsInOrder(s: seq<State>, k: nat) returns (p: nat)
    requires k < |FirstVisits(s)|
    ensures p < |s| && s[p] == FirstVisits(s)[k]
    ensures forall q :: 0 <= q < p ==> s[q] in FirstVisits(s)[..k]
  {
    var before := FirstVisits(s[..|s| - 1]);
    if k < |before| {
      p := FirstVisitsInOrder(s[..|s| - 1], k);
      assert FirstVisits(s)[..k] == before[..k];
    } else {
      p := |s| - 1;
      FirstVisitsListsAll(s[..p]);
      assert FirstVisits(s)[..k] == before;
      assert forall q :: 0 <= q < p ==> s[q] in s[..p];
    }
  }

  lemma FirstOverLimit(h: seq<Transition>, maxRepeats: int, k: nat, p: nat)
    requires |h| >= 2 && k < |FirstVisits(Visited(h))|
    requires Visits(Visited(h), FirstVisits(Visited(h))[k]) > maxRepeats
    requires forall q :: 0 <= q < k ==> Visits(Visited(h), FirstVisits(Visited(h))[q]) <= maxRepeats
    requires p < |Visited(h)| && Visited(h)[p] == FirstVisits(Visited(h))[k]
    requires forall q :: 0 <= q < p ==> Visited(h)[q] in FirstVisits(Visited(h))[..k]
    ensures var x := FirstVisits(Visited(h))[k];
      Explains(Some(StateRepeat(x, Visits(Visited(h), x))), h, maxRepeats)
  {}

  class DoomLoopDetector {
    const maxRepeats: int
    const windowConfig: WindowConfig
    var transitions: map<JobId, seq<Transition>>
    var loopResults: map<JobId, Loop>
    var history: seq<Entry>
    var warned: set<Fingerprint>
    var blocked: set<Fingerprint>

    constructor (maxRepeats: int := 3, windowConfig: WindowConfig := DEFAULT_WINDOW)
      ensures this.maxRepeats == maxRepeats && this.windowConfig == windowConfig
      ensures transitions == map[] && loopResults == map[] && GuardState() == CLEAR
    {
      this.maxRepeats, this.windowConfig := maxRepeats, windowConfig;
      transitions, loopResults, history, warned, blocked := map[], map[], [], {}, {};
    }

    function GuardState(): Guard
      reads this
    {
      Guard(history, warned, blocked)
    }

    function HistoryOf(job: JobId): seq<Transition>
      reads this
    {
      if job in transitions then transitions[job] else []
    }

    method TrackTransition(job: JobId, from: State, to: State)
      modifies this`transitions
      ensures transitions == old(transitions)[job := old(HistoryOf(job)) + [Transition(from, to)]]
    {
      if job !in transitions {
        transitions := transitions[job := []];
      }
      transitions := transitions[job := transitions[job] + [Transition(from, to)]];
    }

    method DetectLoop(job: JobId) returns (r: Option<Loop>)
      modifies this`loopResults
      ensures Explains(r, HistoryOf(job), maxRepeats)
      ensures loopResults == if r.Some? then old(loopResults)[job := r.value] else old(loopResults)
    {
      r := LoopIn(HistoryOf(job));
      if r.Some? {
        loopResults := loopResults[job := r.value];
      }
    }

    method LoopIn(h: seq<Transition>) returns (r: Option<Loop>)
      ensures Explains(r, h, maxRepeats)
    {
      if |h| < 2 {
        return None;
      }
      r := RepeatedState(h);
      if r.Some? {
        return;
      }
      var sequence := [h[0].from] + seq(|h|, i requires 0 <= i < |h| => h[i].to);
      assert sequence == Visited(h);
      var unique := set x | x in sequence;
      assert unique == Distinct(Visited(h));
      if |unique| == 2 && |sequence| >= 3 {
        return Some(Simple(unique));
      }
      var cycle := DetectComplexLoop(sequence);
      if cycle.Some? {
        assert ReturnsToStart(h) by {
          assert Visited(h)[|cycle.value|] == Visited(h)[0];
        }
        return Some(Complex(cycle.value));
      }
      r := None;
    }

    method RepeatedState(h: seq<Transition>) returns (r: Option<Loop>)
      requires |h| >= 2
      ensures r.None? <==> !Repeats(h, maxRepeats)
      ensures r.Some? ==> r.value.StateRepeat? && Explains(r, h, maxRepeats)
    {
      var visits, order := CountVisits(h);
      FirstVisitsListsAll(Visited(h));
      for k := 0 to |order|
        invariant forall q :: 0 <= q < k ==> Visits(Visited(h), order[q]) <= maxRepeats
      {
        if visits[order[k]] > maxRepeats {
          ghost var p := FirstVisitsInOrder(Visited(h), k);
          FirstOverLimit(h, maxRepeats, k, p);
          return Some(StateRepeat(order[k], visits[order[k]]));
        }
      }
      r := None;
    }

    /** Visit counts, and the states in the order they were first counted. */
    method CountVisits(h: seq<Transition>) returns (visits: map<State, nat>, order: seq<State>)
      requires |h| > 0
      ensures order == FirstVisits(Visited(h))
      ensures forall x :: x in visits <==> x in Visited(h)
      ensures forall x :: x in visits ==> visits[x] == Visits(Visited(h), x)
    {
      ghost var s := Visited(h);
      visits := map[h[0].from := 1];
      order := [h[0].from];
      for i := 0 to |h|
        invariant forall x :: x in visits <==> x in s[..i + 1]
        invariant forall x :: x in visits ==> visits[x] == Visits(s[..i + 1], x)
        invariant order == FirstVisits(s[..i + 1])
      {
        assert s[..i + 2] == s[..i + 1] + [h[i].to] && s[..i + 2][..i + 1] == s[..i + 1];
        FirstVisitsListsAll(s[..i + 1]);
        if h[i].to !in visits {
          order := order + [h[i].to];
        }
        visits := visits[h[i].to := (if h[i].to in visits then visits[h[i].to] else 0) + 1];
      }
      assert s[..|h| + 1] == s;
    }

    /** The stretch from the first visit of the starting state up to its last one. */
    method DetectComplexLoop(sequence: seq<State>) returns (r: Option<seq<State>>)
      ensures r.Some? <==> |sequence| >= 5 && exists i :: 3 <= i < |sequence| && sequence[i] == sequence[0]
      ensures r.Some? ==> 3 <= |r.value| && r.value < sequence && sequence[|r.value|] == sequence[0]
      ensures r.Some? ==> forall k :: |r.value| < k < |sequence| ==> sequence[k] != sequence[0]
    {
      if |sequence| < 5 {
        return None;
      }
      var positions: seq<nat> := [];
      for i := 0 to |sequence|
        invariant i > 0 ==> |positions| > 0 && positions[0] == 0
        invariant |positions| > 0 ==> positions[|positions| - 1] < i && sequence[positions[|positions| - 1]] == sequence[0]
        invariant forall k :: 0 <= k < i && sequence[k] == sequence[0] ==> |positions| > 0 && k <= positions[|positions| - 1]
        invariant |positions| <= 1 ==> forall k :: 0 < k < i ==> sequence[k] != sequence[0]
      {
        if sequence[i] == sequence[0] {
          positions := positions + [i];
        }
      }
      if |positions| >= 2 {
        var first, last := positions[0], positions[|positions| - 1];
        if last - first >= 3 {
          return Some(sequence[first..last]);
        }
      }
      r := None;
    }

    method CheckLoop(stage: string, fingerprint: Fingerprint, task: string, job: JobId)
      returns (action: Action, occurrences: nat)
      modifies this`history, this`warned, this`blocked
      ensures (GuardState(), action) == Check(old(GuardState()), windowConfig, Entry(fingerprint, stage, task, job))
      ensures occurrences == |Sightings(old(history) + [Entry(fingerprint, stage, task, job)], windowConfig.window,
                                        Entry(fingerprint, stage, task, job))|
    {
      occurrences := RecordCall(Entry(fingerprint, stage, task, job));
      if fingerprint in blocked {
        assert blocked == blocked + {fingerprint};
        return Block, occurrences;
      }
      if occurrences >= windowConfig.block {
        blocked := blocked + {fingerprint};
        return Block, occurrences;
      }
      if occurrences >= windowConfig.warn && fingerprint !in warned {
        warned := warned + {fingerprint};
        return Warn, occurrences;
      }
      action := NoAction;
    }

    /** Puts the call into the window and counts how often it is there. */
    method RecordCall(e: Entry) returns (occurrences: nat)
      modifies this`history
      ensures history == Last(old(history) + [e], windowConfig.window)
      ensures occurrences == Occurrences(history, e) == |Sightings(old(history) + [e], windowConfig.window, e)|
    {
      history := history + [e];
      if |history| > windowConfig.window {
        history := if windowConfig.window < 0 then [] else history[|history| - windowConfig.window..];
      }
      assert history == Last(old(history) + [e], windowConfig.window);
      CountedSightings(old(history) + [e], windowConfig.window, e);
      occurrences := CountIn(history, e);
    }

    static method CountIn(h: seq<Entry>, e: Entry) returns (n: nat)
      ensures n == Occurrences(h, e)
    {
      n := 0;
      for i := 0 to |h|
        invariant n == Occurrences(h[..i], e)
      {
        assert h[..i + 1][..i] == h[..i];
        if Same(h[i], e) {
          n := n + 1;
        }
      }
      assert h[..|h|] == h;
    }

    method ClearFingerprintState(fingerprint: Fingerprint)
      modifies this`warned, this`blocked
      ensures GuardState() == GuardStep(old(GuardState()), windowConfig, Clear(fingerprint))
      ensures history == old(history) && warned == old(warned) - {fingerprint} && blocked == old(blocked) - {fingerprint}
    {
      blocked := blocked - {fingerprint};
      warned := warned - {fingerprint};
    }

    method ClearAllFingerprintState()
      modifies this`history, this`warned, this`blocked
      ensures GuardState() == GuardStep(old(GuardState()), windowConfig, ClearAll)
      ensures history == [] && warned == {} && blocked == {}
    {
      history, warned, blocked := [], {}, {};
    }
  }
}
