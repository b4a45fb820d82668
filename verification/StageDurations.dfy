/** Time spent per state: `calculateStageDurations` of src/domain/retrospective/retrospective-service.ts,
    and the total taken of it. */
module Durations {
  import opened Prelude

  type State = string

  datatype Event = Event(occurredAt: string, toState: State)

  /** What the platform supplies: how it collates timestamps, and the instant each one means. */
  datatype Platform = Platform(before: (string, string) -> bool, time: string -> int)
  {
    /** Timestamps in one format: their order as strings is a weak order, and that of their instants. */
    ghost predicate Uniform() {
      WeakOrder(before) && forall a, b :: !before(b, a) ==> time(a) <= time(b)
    }
  }

  function Sorted(p: Platform, events: seq<Event>): seq<Event> {
    Sort((a: Event, b: Event) => p.before(a.occurredAt, b.occurredAt), events)
  }

  /** The time between an event and the one before it. */
  function Step(p: Platform, s: seq<Event>, i: nat): int
    requires 0 < i < |s|
  {
    p.time(s[i].occurredAt) - p.time(s[i - 1].occurredAt)
  }

  /** The time spent in a state: from each event that entered it to the next event. */
  function Spent(p: Platform, s: seq<Event>, state: State): int {
    if |s| < 2 then 0
    else Spent(p, s[..|s| - 1], state) + if s[|s| - 2].toState == state then Step(p, s, |s| - 1) else 0
  }

  /** The states that an event left behind for a later one; a state without a name is skipped. */
  function Left(s: seq<Event>): set<State> {
    set i | 0 <= i < |s| - 1 && s[i].toState != "" :: s[i].toState
  }

  method CalculateStageDurations(p: Platform, events: seq<Event>) returns (durations: map<State, int>)
    ensures durations.Keys == Left(Sorted(p, events))
    ensures forall state :: state in durations ==> durations[state] == Spent(p, Sorted(p, events), state)
  {
    var sorted := Sorted(p, events);
    durations := map[];
    var lastTransition: Option<Event> := None;
    for i := 0 to |sorted|
      invariant lastTransition == if i == 0 then None else Some(sorted[i - 1])
      invariant durations.Keys == Left(sorted[..i])
      invariant forall state :: state in durations ==> durations[state] == Spent(p, sorted[..i], state)
    {
      var event := sorted[i];
      NextEvent(p, sorted, i);
      if lastTransition.Some? {
        var duration := p.time(event.occurredAt) - p.time(lastTransition.value.occurredAt);
        var state := lastTransition.value.toState;
        if state != "" {
          durations := durations[state := (if state in durations then durations[state] else 0) + duration];
        }
      }
      lastTransition := Some(event);
    }
    assert sorted[..|sorted|] == sorted;
  }

  lemma NextEvent(p: Platform, s: seq<Event>, i: nat)
    requires i < |s|
    ensures Left(s[..i + 1]) == Left(s[..i]) + if i > 0 && s[i - 1].toState != "" then {s[i - 1].toState} else {}
    ensures forall state {:trigger Spent(p, s[..i + 1], state)} ::
      Spent(p, s[..i + 1], state) == Spent(p, s[..i], state) + if i > 0 && s[i - 1].toState == state then Step(p, s, i) else 0
    ensures forall state {:trigger Spent(p, s[..i], state)} :: state != "" && state !in Left(s[..i]) ==> Spent(p, s[..i], state) == 0
  {
    var t := s[..i + 1];
    assert t[..i] == s[..i];
    if i > 0 {
      assert t[i - 1] == s[i - 1] && t[i] == s[i] && |t| == i + 1;
      forall x | x in Left(t) ensures x in Left(s[..i]) || x == s[i - 1].toState {
        var k :| 0 <= k < |t| - 1 && t[k].toState != "" && t[k].toState == x;
        assert k < i - 1 ==> s[..i][k] == t[k];
      }
      forall x | x in Left(s[..i]) ensures x in Left(t) {
        var k :| 0 <= k < i - 1 && s[..i][k].toState == x;
        assert t[k] == s[..i][k];
      }
    }
    forall state | state != "" && state !in Left(s[..i]) ensures Spent(p, s[..i], state) == 0 {
      NeverLeft(p, s[..i], state);
    }
  }

  lemma {:induction false} NeverLeft(p: Platform, s: seq<Event>, state: State)
    requires state != "" && state !in Left(s)
    ensures Spent(p, s, state) == 0
  {
    if |s| >= 2 {
      var before := s[..|s| - 1];
      assert s[|s| - 2].toState != state;
      forall i | 0 <= i < |before| - 1 ensures before[i].toState != state {
        assert before[i] == s[i];
      }
      NeverLeft(p, before, state);
    }
  }

  /** One more event ends the time in the state before it, and starts none that counts yet. */
  lemma NextCounts(p: Platform, s: seq<Event>, e: Event, state: State)
    ensures Spent(p, [e], state) == 0 && Left([e]) == {}
    ensures s != [] ==> var last := s[|s| - 1];
      && Spent(p, s + [e], state) == Spent(p, s, state)
           + (if last.toState == state then p.time(e.occurredAt) - p.time(last.occurredAt) else 0)
      && Left(s + [e]) == Left(s) + if last.toState != "" then {last.toState} else {}
  {
    if s != [] {
      var longer := s + [e];
      assert longer[..|longer| - 1] == s;
      NextEvent(p, longer, |s|);
      assert longer[..|s| + 1] == longer;
    }
  }

  /** Events at one time stay in the order they were recorded. */
  lemma SameTimeKeepsOrder(p: Platform, events: seq<Event>, at: string)
    requires p.Uniform()
    ensures Picked((e: Event) => e.occurredAt == at, Sorted(p, events)) == Picked((e: Event) => e.occurredAt == at, events)
  {
    var like := (e: Event) => e.occurredAt == at;
    assert forall a: string :: !p.before(a, a);
    SortIsStable((a: Event, b: Event) => p.before(a.occurredAt, b.occurredAt), like, events);
    SameFilter(like, (e: Event) => e.occurredAt == at, Sorted(p, events));
    SameFilter(like, (e: Event) => e.occurredAt == at, events);
  }

  lemma {:induction false} SameFilter(f: Event -> bool, g: Event -> bool, s: seq<Event>)
    requires forall e :: f(e) == g(e)
    ensures Picked(f, s) == Picked(g, s)
  {
    if s != [] {
      SameFilter(f, g, s[..|s| - 1]);
    }
  }

  // ---------------------------------------------------------------- the total

  function SumSpent(p: Platform, s: seq<Event>, states: seq<State>): int {
    if states == [] then 0
    else SumSpent(p, s, states[..|states| - 1]) + Spent(p, s, states[|states| - 1])
  }

  /** From the first event to the last; nothing for fewer than two. */
  function Elapsed(p: Platform, s: seq<Event>): int {
    if |s| < 2 then 0 else p.time(s[|s| - 1].occurredAt) - p.time(s[0].occurredAt)
  }

  lemma {:induction false} OneMoreStep(p: Platform, s: seq<Event>, states: seq<State>)
    requires |s| >= 2 && forall i, j :: 0 <= i < j < |states| ==> states[i] != states[j]
    ensures SumSpent(p, s, states)
         == SumSpent(p, s[..|s| - 1], states) + if s[|s| - 2].toState in states then Step(p, s, |s| - 1) else 0
  {
    if states != [] {
      var before, last := states[..|states| - 1], states[|states| - 1];
      OneMoreStep(p, s, before);
      assert states == before + [last];
    }
  }

  /** The durations telescope: over any list of states that misses none, the time spent in them and
      in the nameless state adds up to the time from the first event to the last. */
  lemma {:induction false} Telescopes(p: Platform, s: seq<Event>, states: seq<State>)
    requires forall i, j :: 0 <= i < j < |states| ==> states[i] != states[j]
    requires "" !in states && forall state :: state in Left(s) ==> state in states
    ensures SumSpent(p, s, states) + Spent(p, s, "") == Elapsed(p, s)
  {
    if |s| < 2 {
      NothingSpent(p, s, states);
    } else {
      var before := s[..|s| - 1];
      assert s[|s| - 2].toState == "" || s[|s| - 2].toState in Left(s);
      forall state | state in Left(before) ensures state in states {
        var i :| 0 <= i < |before| - 1 && before[i].toState != "" && before[i].toState == state;
        assert s[i] == before[i] && state in Left(s);
      }
      Telescopes(p, before, states);
      OneMoreStep(p, s, states);
      assert before[|before| - 1] == s[|s| - 2] && before[0] == s[0];
    }
  }

  lemma {:induction false} NothingSpent(p: Platform, s: seq<Event>, states: seq<State>)
    requires |s| < 2
    ensures SumSpent(p, s, states) == 0
  {
    if states != [] {
      NothingSpent(p, s, states[..|states| - 1]);
    }
  }

  /** After sorting, no state is left before it was entered. */
  lemma {:induction false} NeverNegative(p: Platform, s: seq<Event>, state: State)
    requires p.Uniform() && Ordered((a: Event, b: Event) => p.before(a.occurredAt, b.occurredAt), s)
    ensures Spent(p, s, state) >= 0
  {
    if |s| >= 2 {
      NeverNegative(p, s[..|s| - 1], state);
      assert !p.before(s[|s| - 1].occurredAt, s[|s| - 2].occurredAt);
    }
  }

  lemma SortedInTime(p: Platform, events: seq<Event>)
    requires p.Uniform()
    ensures Ordered((a: Event, b: Event) => p.before(a.occurredAt, b.occurredAt), Sorted(p, events))
    ensures |Sorted(p, events)| == |events| && forall e :: e in Sorted(p, events) <==> e in events
  {
    var less := (a: Event, b: Event) => p.before(a.occurredAt, b.occurredAt);
    forall a: Event, b: Event, c: Event | less(a, c) ensures less(a, b) || less(b, c) {
      var x, y, z := a.occurredAt, b.occurredAt, c.occurredAt;
      assert p.before(x, z) ==> p.before(x, y) || p.before(y, z);
    }
    forall a: Event, b: Event | less(a, b) ensures !less(b, a) {
      assert p.before(a.occurredAt, b.occurredAt);
    }
    assert WeakOrder(less);
    SortOrders((a: Event, b: Event) => p.before(a.occurredAt, b.occurredAt), events);
  }

  /** `total` is the sum the summary reports. */
  method SummariseDurations(p: Platform, events: seq<Event>) returns (durations: map<State, int>, total: int)
    ensures total == Elapsed(p, Sorted(p, events)) - Spent(p, Sorted(p, events), "")
    ensures p.Uniform() ==> forall state :: state in durations ==> durations[state] >= 0
  {
    durations := CalculateStageDurations(p, events);
    var states := Enumerate(durations.Keys);
    total := 0;
    for i := 0 to |states|
      invariant total == SumSpent(p, Sorted(p, events), states[..i])
    {
      assert states[..i + 1][..i] == states[..i];
      total := total + durations[states[i]];
    }
    assert states[..|states|] == states;
    Telescopes(p, Sorted(p, events), states);
    if p.Uniform() {
      SortedInTime(p, events);
      forall state | state in durations ensures durations[state] >= 0 {
        NeverNegative(p, Sorted(p, events), state);
      }
    }
  }

  lemma {:induction false} NamelessIsFree(p: Platform, s: seq<Event>)
    requires forall e :: e in s ==> e.toState != ""
    ensures Spent(p, s, "") == 0
  {
    if |s| >= 2 {
      NamelessIsFree(p, s[..|s| - 1]);
      assert s[|s| - 2] in s;
    }
  }

  /** So where every event names its state the total is the time from the earliest event to the
      latest, whatever happened in between, and never negative. */
  lemma TotalIsElapsed(p: Platform, events: seq<Event>)
    requires p.Uniform() && forall e :: e in events ==> e.toState != ""
    ensures var s := Sorted(p, events);
      && Elapsed(p, s) - Spent(p, s, "") == Elapsed(p, s) >= 0
      && (|events| >= 2 ==> forall e :: e in events ==>
            p.time(s[0].occurredAt) <= p.time(e.occurredAt) <= p.time(s[|s| - 1].occurredAt))
  {
    var s := Sorted(p, events);
    SortedInTime(p, events);
    NamelessIsFree(p, s);
    forall e | e in s && |s| >= 2
      ensures p.time(s[0].occurredAt) <= p.time(e.occurredAt) <= p.time(s[|s| - 1].occurredAt)
    {
      var i :| 0 <= i < |s| && s[i] == e;
      assert i > 0 ==> !p.before(s[i].occurredAt, s[0].occurredAt);
      assert i < |s| - 1 ==> !p.before(s[|s| - 1].occurredAt, s[i].occurredAt);
    }
    if |s| >= 2 {
      assert s[0] in s;
    }
  }
}
