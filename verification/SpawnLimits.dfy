/** The limit on concurrently active agents: when src/domain/agent/index.ts keeps it, and how it comes to
    be exceeded. Evaluating a spawn tests it; registering an agent does not. */
module SpawnLimits {
  import opened Prelude
  import opened Spawning

  function ActiveAt(s: Scopes, k: ScopeKey): set<AgentId> {
    if k in s then s[k].active else {}
  }

  lemma CountsActive(s: Scopes, k: ScopeKey)
    ensures ActiveCount(s, k) == |ActiveAt(s, k)|
  {}

  /** Agents come and go by registering and unregistering alone. */
  lemma StepChangesActive(s: Scopes, limits: Limits, rate: Rate, op: Op, k: ScopeKey)
    ensures ActiveAt(Step(s, limits, rate, op), k) ==
      if op.Register? && op.key == k then ActiveAt(s, k) + {op.agent}
      else if op.Unregister? && op.key == k then ActiveAt(s, k) - {op.agent}
      else ActiveAt(s, k)
  {}

  // ---------------------------------------------------------------- one registration

  /** An operation finds a place for the agent it registers at `k`, if it does register one. */
  predicate FindsPlace(s: Scopes, limits: Limits, op: Op, k: ScopeKey) {
    op.Register? && op.key == k ==> op.agent in ActiveAt(s, k) || ActiveCount(s, k) < limits.maxConcurrent
  }

  predicate WithinLimit(s: Scopes, limits: Limits, k: ScopeKey) {
    ActiveCount(s, k) <= limits.maxConcurrent
  }

  lemma CountAfter(s: set<AgentId>, a: AgentId)
    ensures |s + {a}| == |s| + if a in s then 0 else 1
    ensures |s - {a}| <= |s|
  {
    if a in s {
      assert s + {a} == s;
      assert |s - {a}| == |s| - 1;
    } else {
      assert s - {a} == s;
    }
  }

  /** Within the limit, one operation stays within it exactly when it registers no new agent, or there
      is a place left for it. */
  lemma StepKeepsLimitIff(s: Scopes, limits: Limits, rate: Rate, op: Op, k: ScopeKey)
    requires WithinLimit(s, limits, k)
    ensures WithinLimit(Step(s, limits, rate, op), limits, k) <==> FindsPlace(s, limits, op, k)
  {
    StepChangesActive(s, limits, rate, op, k);
    CountsActive(s, k);
    CountsActive(Step(s, limits, rate, op), k);
    if op.Register? || op.Unregister? {
      CountAfter(ActiveAt(s, k), op.agent);
    }
  }

  // ---------------------------------------------------------------- runs

  ghost predicate Within(s: Scopes, limits: Limits, rate: Rate, run: Run, n: nat, k: ScopeKey)
    requires n <= |run|
  {
    WithinLimit(After(s, limits, rate, run, n), limits, k)
  }

  ghost predicate PlaceAt(s: Scopes, limits: Limits, rate: Rate, run: Run, i: nat, k: ScopeKey)
    requires i < |run|
  {
    FindsPlace(After(s, limits, rate, run, i), limits, run[i], k)
  }

  lemma LimitKeptAt(s: Scopes, limits: Limits, rate: Rate, run: Run, i: nat, k: ScopeKey)
    requires i < |run| && Within(s, limits, rate, run, i, k)
    ensures Within(s, limits, rate, run, i + 1, k) <==> PlaceAt(s, limits, rate, run, i, k)
  {
    StepKeepsLimitIff(After(s, limits, rate, run, i), limits, rate, run[i], k);
  }

  /** A run keeps the limit throughout exactly when every agent it newly registers finds a place. */
  lemma {:induction false} LimitKeptIff(s: Scopes, limits: Limits, rate: Rate, run: Run, n: nat, k: ScopeKey)
    requires n <= |run| && WithinLimit(s, limits, k)
    ensures (forall i :: 0 <= i <= n ==> Within(s, limits, rate, run, i, k))
       <==> (forall i :: 0 <= i < n ==> PlaceAt(s, limits, rate, run, i, k))
  {
    if n > 0 {
      LimitKeptIff(s, limits, rate, run, n - 1, k);
      if forall i :: 0 <= i <= n - 1 ==> Within(s, limits, rate, run, i, k) {
        LimitKeptAt(s, limits, rate, run, n - 1, k);
      }
    }
    assert Within(s, limits, rate, run, 0, k);
  }

  // ---------------------------------------------------------------- a discipline that keeps it

  predicate Concerns(op: Op, k: ScopeKey) {
    (op.Evaluate? || op.Register?) && op.key == k
  }

  /** Registration `i` uses up the evaluation `e` before it: nothing else was evaluated or registered at
      the key in between. */
  ghost predicate Uses(s: Scopes, limits: Limits, rate: Rate, run: Run, e: nat, i: nat, k: ScopeKey)
    requires e < i < |run|
  {
    Allows(s, limits, rate, run, e, k) && forall m :: e < m < i ==> !Concerns(run[m], k)
  }

  ghost predicate Disciplined(s: Scopes, limits: Limits, rate: Rate, run: Run, k: ScopeKey) {
    forall i :: 0 <= i < |run| && run[i].Register? && run[i].key == k ==>
      exists e :: 0 <= e < i && Uses(s, limits, rate, run, e, i, k)
  }

  ghost function CountAt(s: Scopes, limits: Limits, rate: Rate, run: Run, n: nat, k: ScopeKey): nat
    requires n <= |run|
  {
    ActiveCount(After(s, limits, rate, run, n), k)
  }

  lemma CountFalls(s: Scopes, limits: Limits, rate: Rate, run: Run, i: nat, k: ScopeKey)
    requires i < |run| && !(run[i].Register? && run[i].key == k)
    ensures CountAt(s, limits, rate, run, i + 1, k) <= CountAt(s, limits, rate, run, i, k)
  {
    var now := After(s, limits, rate, run, i);
    StepChangesActive(now, limits, rate, run[i], k);
    CountsActive(now, k);
    CountsActive(Step(now, limits, rate, run[i]), k);
    if run[i].Unregister? {
      CountAfter(ActiveAt(now, k), run[i].agent);
    }
  }

  lemma {:induction false} CountFallsOn(s: Scopes, limits: Limits, rate: Rate, run: Run, e: nat, i: nat, k: ScopeKey)
    requires e < i <= |run| && Allows(s, limits, rate, run, e, k) && forall m :: e < m < i ==> !Concerns(run[m], k)
    ensures CountAt(s, limits, rate, run, i, k) < limits.maxConcurrent
  {
    CountFalls(s, limits, rate, run, i - 1, k);
    if i > e + 1 {
      CountFallsOn(s, limits, rate, run, e, i - 1, k);
    }
  }

  /** Who registers each allowed agent before evaluating the next, and none besides, keeps the limit. */
  lemma DisciplineKeepsLimit(s: Scopes, limits: Limits, rate: Rate, run: Run, n: nat, k: ScopeKey)
    requires n <= |run| && WithinLimit(s, limits, k) && Disciplined(s, limits, rate, run, k)
    ensures forall i :: 0 <= i <= n ==> Within(s, limits, rate, run, i, k)
  {
    forall i | 0 <= i < n ensures PlaceAt(s, limits, rate, run, i, k) {
      if run[i].Register? && run[i].key == k {
        var e :| 0 <= e < i && Uses(s, limits, rate, run, e, i, k);
        CountFallsOn(s, limits, rate, run, e, i, k);
      }
    }
    LimitKeptIff(s, limits, rate, run, n, k);
  }

  // ---------------------------------------------------------------- how it is exceeded

  /** `n` evaluations in a row, all at one instant. */
  function Burst(k: ScopeKey, now: int, n: nat): Run {
    seq(n, _ => Evaluate(k, Times(now, now, now)))
  }

  /** Allowing a spawn reserves no place among the active agents: with one place left, as many spawns
      in a row are allowed as there are tokens. */
  lemma {:induction false} PlacesNotReserved(s: Scopes, limits: Limits, rate: Rate, k: ScopeKey, now: int, n: nat, m: nat)
    requires rate.Sensible() && Settled(s, rate, now) && m <= n
    requires limits.enabled && ActiveCount(s, k) < limits.maxConcurrent && Level(s, rate, k, now) >= m as real
    ensures AllowedCount(s, limits, rate, Burst(k, now, n), 0, m, k) == m
    ensures var after := After(s, limits, rate, Burst(k, now, n), m);
      && Settled(after, rate, now) && ActiveCount(after, k) == ActiveCount(s, k)
      && Level(after, rate, k, now) == Level(s, rate, k, now) - m as real
  {
    if m > 0 {
      PlacesNotReserved(s, limits, rate, k, now, n, m - 1);
      AllowedAtOnce(After(s, limits, rate, Burst(k, now, n), m - 1), limits, rate, k, now);
    }
  }

  lemma AllowedAtOnce(s: Scopes, limits: Limits, rate: Rate, k: ScopeKey, now: int)
    requires rate.Sensible() && Settled(s, rate, now)
    requires limits.enabled && ActiveCount(s, k) < limits.maxConcurrent && Level(s, rate, k, now) >= 1.0
    ensures ReasonOf(s, limits, rate, k, Times(now, now, now)) == Allowed
    ensures var after := Evaluated(s, limits, rate, k, Times(now, now, now));
      && Settled(after, rate, now) && ActiveCount(after, k) == ActiveCount(s, k)
      && Level(after, rate, k, now) == Level(s, rate, k, now) - 1.0
  {
    var read := ReadTokens(s, rate, k, now);
    ReadsAreHarmless(s, rate, k, k, now, now);
    TakeCostsOne(read, rate, k, k, now);
    ReadsAreHarmless(TakeToken(read, rate, k, now), rate, k, k, now, now);
  }

  /** Agents with different numbers have different names. */
  function Agent(i: nat): AgentId {
    seq(i, _ => 'a')
  }

  function Agents(n: nat): set<AgentId> {
    set i | 0 <= i < n :: Agent(i)
  }

  lemma {:induction false} AgentsCount(n: nat)
    ensures |Agents(n)| == n && Agent(n) !in Agents(n) && Agents(n + 1) == Agents(n) + {Agent(n)}
  {
    if n > 0 {
      AgentsCount(n - 1);
    }
    forall i | 0 <= i < n ensures Agent(i) != Agent(n) {
      assert |Agent(i)| == i && |Agent(n)| == n;
    }
  }

  function Now(k: ScopeKey): Op {
    Evaluate(k, Times(0, 0, 0))
  }

  function Joins(k: ScopeKey, i: nat): Op {
    Register(k, Agent(i), 0)
  }

  /** All places but one are taken; then two spawns are evaluated, and both agents registered. */
  function TwoAtOnce(k: ScopeKey, places: nat): Run
    requires places > 0
  {
    seq(places - 1, i requires 0 <= i < places - 1 => Joins(k, i))
      + [Now(k), Now(k), Joins(k, places - 1), Joins(k, places)]
  }

  lemma {:induction false} AllAtZero(run: Run, n: nat)
    requires n <= |run|
    requires forall i :: 0 <= i < |run| ==> InOrder(run[i], 0) && EndOf(run[i], 0) == 0
    ensures Clock(run, n, 0) == 0
  {
    if n > 0 {
      AllAtZero(run, n - 1);
    }
  }

  /** `n` agents have joined at time zero, and these many tokens are left. */
  ghost predicate Filled(s: Scopes, rate: Rate, k: ScopeKey, n: nat, tokens: real) {
    Settled(s, rate, 0) && ActiveAt(s, k) == Agents(n) && Level(s, rate, k, 0) == tokens
  }

  lemma OneJoins(s: Scopes, limits: Limits, rate: Rate, k: ScopeKey, n: nat, tokens: real)
    requires rate.Sensible() && Filled(s, rate, k, n, tokens)
    ensures Filled(Step(s, limits, rate, Joins(k, n)), rate, k, n + 1, tokens)
  {
    AgentsCount(n);
    RegistersKeepLevel(s, rate, k, Agent(n), 0, k);
  }

  lemma OneAllowed(s: Scopes, limits: Limits, rate: Rate, k: ScopeKey, n: nat, tokens: real)
    requires rate.Sensible() && Filled(s, rate, k, n, tokens)
    requires limits.enabled && n < limits.maxConcurrent && tokens >= 1.0
    ensures AllowsNow(s, limits, rate, Now(k), k)
    ensures Filled(Step(s, limits, rate, Now(k)), rate, k, n, tokens - 1.0)
  {
    AgentsCount(n);
    CountsActive(s, k);
    AllowedAtOnce(s, limits, rate, k, 0);
    StepChangesActive(s, limits, rate, Now(k), k);
  }

  ghost predicate FilledAt(limits: Limits, rate: Rate, k: ScopeKey, i: nat, n: nat, tokens: real)
    requires limits.maxConcurrent > 0 && i <= limits.maxConcurrent + 3
  {
    Filled(After(map[], limits, rate, TwoAtOnce(k, limits.maxConcurrent), i), rate, k, n, tokens)
  }

  lemma {:induction false} PlacesFill(limits: Limits, rate: Rate, k: ScopeKey, n: nat)
    requires rate.Sensible() && limits.maxConcurrent > 0 && n < limits.maxConcurrent
    ensures FilledAt(limits, rate, k, n, n, rate.burst)
  {
    if n > 0 {
      PlacesFill(limits, rate, k, n - 1);
      OneJoins(After(map[], limits, rate, TwoAtOnce(k, limits.maxConcurrent), n - 1), limits, rate, k, n - 1, rate.burst);
    }
  }

  /** The next event of the run allows a spawn. */
  lemma AllowedNext(limits: Limits, rate: Rate, k: ScopeKey, i: nat, n: nat, tokens: real)
    requires rate.Sensible() && limits.enabled && 0 <= n < limits.maxConcurrent && tokens >= 1.0
    requires i < limits.maxConcurrent + 3 && TwoAtOnce(k, limits.maxConcurrent)[i] == Now(k)
    requires FilledAt(limits, rate, k, i, n, tokens)
    ensures Allows(map[], limits, rate, TwoAtOnce(k, limits.maxConcurrent), i, k)
    ensures FilledAt(limits, rate, k, i + 1, n, tokens - 1.0)
  {
    OneAllowed(After(map[], limits, rate, TwoAtOnce(k, limits.maxConcurrent), i), limits, rate, k, n, tokens);
  }

  lemma JoinsNext(limits: Limits, rate: Rate, k: ScopeKey, i: nat, n: nat, tokens: real)
    requires rate.Sensible() && limits.maxConcurrent > 0
    requires i < limits.maxConcurrent + 3 && TwoAtOnce(k, limits.maxConcurrent)[i] == Joins(k, n)
    requires FilledAt(limits, rate, k, i, n, tokens)
    ensures FilledAt(limits, rate, k, i + 1, n + 1, tokens)
  {
    OneJoins(After(map[], limits, rate, TwoAtOnce(k, limits.maxConcurrent), i), limits, rate, k, n, tokens);
  }

  lemma AllAtOnce(k: ScopeKey, places: nat)
    requires places > 0
    ensures Chronological(TwoAtOnce(k, places), 0)
  {
    var run := TwoAtOnce(k, places);
    forall i | 0 <= i < |run| ensures InOrder(run[i], Clock(run, i, 0)) {
      AllAtZero(run, i);
    }
  }

  lemma FilledCounts(limits: Limits, rate: Rate, k: ScopeKey, i: nat, n: nat, tokens: real)
    requires limits.maxConcurrent > 0 && i <= limits.maxConcurrent + 3 && FilledAt(limits, rate, k, i, n, tokens)
    ensures ActiveCount(After(map[], limits, rate, TwoAtOnce(k, limits.maxConcurrent), i), k) == n
  {
    AgentsCount(n);
    CountsActive(After(map[], limits, rate, TwoAtOnce(k, limits.maxConcurrent), i), k);
  }

  lemma BothAllowed(limits: Limits, rate: Rate, k: ScopeKey)
    requires rate.Sensible() && rate.burst >= 2.0 && limits.enabled && limits.maxConcurrent > 0
    ensures var run, m := TwoAtOnce(k, limits.maxConcurrent), limits.maxConcurrent;
      && Allows(map[], limits, rate, run, m - 1, k) && Allows(map[], limits, rate, run, m, k)
      && FilledAt(limits, rate, k, m + 1, m - 1, rate.burst - 1.0 - 1.0)
  {
    var m := limits.maxConcurrent;
    PlacesFill(limits, rate, k, m - 1);
    AllowedNext(limits, rate, k, m - 1, m - 1, rate.burst);
    AllowedNext(limits, rate, k, m, m - 1, rate.burst - 1.0);
  }

  lemma BothJoin(limits: Limits, rate: Rate, k: ScopeKey, tokens: real)
    requires rate.Sensible() && limits.maxConcurrent > 0
    requires FilledAt(limits, rate, k, limits.maxConcurrent + 1, limits.maxConcurrent - 1, tokens)
    ensures ActiveCount(After(map[], limits, rate, TwoAtOnce(k, limits.maxConcurrent), limits.maxConcurrent + 3), k)
         == limits.maxConcurrent + 1
  {
    var m := limits.maxConcurrent;
    JoinsNext(limits, rate, k, m + 1, m - 1, tokens);
    JoinsNext(limits, rate, k, m + 2, m, tokens);
    FilledCounts(limits, rate, k, m + 3, m + 1, tokens);
  }

  /** From nothing, whatever the limit: where the burst holds two tokens, a run in which every agent of
      the last two was allowed before it was registered ends with one agent too many. */
  lemma LimitOvershot(limits: Limits, rate: Rate, k: ScopeKey)
    requires rate.Sensible() && rate.burst >= 2.0 && limits.enabled && limits.maxConcurrent > 0
    ensures var run, m := TwoAtOnce(k, limits.maxConcurrent), limits.maxConcurrent;
      && |run| == m + 3 && Chronological(run, 0)
      && Allows(map[], limits, rate, run, m - 1, k) && Allows(map[], limits, rate, run, m, k)
      && run[m + 1] == Joins(k, m - 1) && run[m + 2] == Joins(k, m)
      && ActiveCount(After(map[], limits, rate, run, m + 3), k) == m + 1
  {
    AllAtOnce(k, limits.maxConcurrent);
    BothAllowed(limits, rate, k);
    BothJoin(limits, rate, k, rate.burst - 1.0 - 1.0);
  }
}
