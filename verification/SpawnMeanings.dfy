/** What evaluating a spawn answers and costs, in tokens and milliseconds, and when a scope that has been
    left alone is served again. */
module SpawnMeanings {
  import opened Prelude
  import opened Spawning

  // ---------------------------------------------------------------- tokens at a moment

  function Capped(rate: Rate, tokens: real): real {
    if tokens >= rate.burst then rate.burst else tokens
  }

  /** What a bucket holds at `now`: what it held, and what came in since, up to the burst. */
  function Holds(b: Bucket, rate: Rate, now: int): real {
    Capped(rate, b.tokens + (now - b.lastRefill) as real * rate.perMs)
  }

  /** The tokens of a scope; one that does not exist yet is full. */
  function TokensAt(s: Scopes, rate: Rate, k: ScopeKey, now: int): real {
    if k in s then Holds(s[k].bucket, rate, now) else rate.burst
  }

  function Agents(s: Scopes, k: ScopeKey): nat {
    if k in s then |s[k].active| else 0
  }

  lemma EarnedBetween(rate: Rate, from: int, to: int)
    ensures rate.Earned(to) - rate.Earned(from) == (to - from) as real * rate.perMs
  {
    assert to as real == from as real + (to - from) as real;
  }

  lemma RefillHolds(b: Bucket, rate: Rate, now: int)
    ensures Refill(b, rate, now) == Bucket(Holds(b, rate, now), now)
  {
    EarnedBetween(rate, b.lastRefill, now);
  }

  /** A refill brings a bucket up to the burst, or adds exactly what the rate has brought in. */
  lemma RefillAddsExactly(b: Bucket, rate: Rate, now: int, later: int)
    requires rate.perMs >= 0.0 && b.lastRefill <= now <= later
    ensures var before, after := Refill(b, rate, now).tokens, Refill(b, rate, later).tokens;
      after == rate.burst || after == before + (later - now) as real * rate.perMs
  {
    EarnedBetween(rate, b.lastRefill, now);
    EarnedBetween(rate, now, later);
    EarnsMore(rate, now, later);
  }

  lemma TokensAreLevel(s: Scopes, rate: Rate, k: ScopeKey, now: int)
    requires rate.Sensible() && Settled(s, rate, now)
    ensures Level(s, rate, k, now) == TokensAt(s, rate, k, now)
  {
    RefillHolds(ScopeAt(s, rate, k, now).bucket, rate, now);
  }

  // ---------------------------------------------------------------- one evaluation

  /** What a request is told: with room among the agents it is allowed exactly if a whole token is there
      when it takes one. */
  lemma EvaluationAnswered(s: Scopes, limits: Limits, rate: Rate, k: ScopeKey, at: Times)
    requires rate.Sensible() && Settled(s, rate, at.seen) && at.seen <= at.taken
    ensures var r := ResultOf(s, limits, rate, k, at);
            var policy := if r.reason.RateLimitExceeded? then limits.onRateLimit else limits.onConcurrentLimit;
      && (r.reason.Disabled? <==> !limits.enabled)
      && (r.reason.ConcurrentLimitExceeded? <==> limits.enabled && Agents(s, k) >= limits.maxConcurrent)
      && (r.reason.Allowed? <==>
            limits.enabled && Agents(s, k) < limits.maxConcurrent && TokensAt(s, rate, k, at.taken) >= 1.0)
      && r.decision == (if r.reason.Allowed? || r.reason.Disabled? then Allow else if policy.Reject? then Rejected else Queued)
      && r.activeCount == Agents(s, k) && r.remainingTokens == TokensAt(s, rate, k, at.seen)
      && r.queueExpiresAt == if r.decision == Queued then Some(at.noted + 1000 * limits.maxQueueWaitSeconds) else None
  {
    if limits.enabled && ActiveCount(s, k) < limits.maxConcurrent {
      DecidedByLevel(s, limits, rate, k, at);
      LevelMoves(s, rate, k, at.seen, at.taken);
      TokensAreLater(s, rate, k, at.seen, at.taken);
    }
    RefillHolds(ScopeAt(s, rate, k, at.seen).bucket, rate, at.seen);
  }

  lemma TokensAreLater(s: Scopes, rate: Rate, k: ScopeKey, now: int, later: int)
    requires rate.Sensible() && Settled(s, rate, now) && now <= later
    ensures Level(s, rate, k, later) == TokensAt(s, rate, k, later)
  {
    TokensAreLevel(s, rate, k, later);
  }

  lemma HoldsOn(b: Bucket, rate: Rate, now: int, later: int)
    requires rate.perMs >= 0.0 && b.lastRefill <= now <= later
    ensures Holds(Bucket(Holds(b, rate, now), now), rate, later) == Holds(b, rate, later)
  {
    RefillsCompose(b, rate, now, later);
    RefillHolds(b, rate, now);
    RefillHolds(Refill(b, rate, now), rate, later);
    RefillHolds(b, rate, later);
  }

  lemma ReadLeaves(s: Scopes, rate: Rate, read: ScopeKey, k: ScopeKey, now: int, later: int)
    requires rate.Sensible() && Settled(s, rate, now) && now <= later
    ensures Settled(ReadTokens(s, rate, read, now), rate, now)
    ensures TokensAt(ReadTokens(s, rate, read, now), rate, k, later) == TokensAt(s, rate, k, later)
    ensures Agents(ReadTokens(s, rate, read, now), k) == Agents(s, k)
  {
    ReadsAreHarmless(s, rate, read, k, now, later);
    TokensAreLater(s, rate, k, now, later);
    TokensAreLater(ReadTokens(s, rate, read, now), rate, k, now, later);
  }

  /** What is there `later` once one of these tokens is taken. */
  function OneTaken(rate: Rate, tokens: real, now: int, later: int): real {
    Capped(rate, tokens - 1.0 + (later - now) as real * rate.perMs)
  }

  /** Taking a token takes exactly one, where there is one, from its own scope. */
  lemma TakeLeaves(s: Scopes, rate: Rate, taken: ScopeKey, k: ScopeKey, now: int, later: int)
    requires rate.Sensible() && Settled(s, rate, now) && now <= later
    ensures Settled(TakeToken(s, rate, taken, now), rate, now)
    ensures var there := TokensAt(s, rate, k, now);
      TokensAt(TakeToken(s, rate, taken, now), rate, k, later) ==
        if k == taken && there >= 1.0 then OneTaken(rate, there, now, later) else TokensAt(s, rate, k, later)
    ensures Agents(TakeToken(s, rate, taken, now), k) == Agents(s, k)
  {
    TakeCostsOne(s, rate, taken, k, now);
    TokensAreLevel(s, rate, k, now);
    RefillHolds(ScopeAt(s, rate, taken, now).bucket, rate, now);
    if k in s {
      HoldsOn(s[k].bucket, rate, now, later);
    } else {
      HoldsOn(Full(rate, now), rate, now, later);
      EarnsMore(rate, now, later);
    }
  }

  lemma AllowedLeaves(s: Scopes, limits: Limits, rate: Rate, e: ScopeKey, at: Times, k: ScopeKey, later: int)
    requires rate.Sensible() && Settled(s, rate, at.seen) && at.seen <= at.taken <= at.noted <= later
    requires ReasonOf(s, limits, rate, e, at) == Allowed && TokensAt(s, rate, e, at.taken) >= 1.0
    ensures TokensAt(Evaluated(s, limits, rate, e, at), rate, k, later) ==
      if k == e then OneTaken(rate, TokensAt(s, rate, e, at.taken), at.taken, later) else TokensAt(s, rate, k, later)
    ensures Agents(Evaluated(s, limits, rate, e, at), k) == Agents(s, k)
  {
    var read := ReadTokens(s, rate, e, at.seen);
    ReadLeaves(s, rate, e, k, at.seen, later);
    ReadLeaves(s, rate, e, k, at.seen, at.taken);
    SettledLater(read, rate, at.seen, at.taken);
    TakeLeaves(read, rate, e, k, at.taken, later);
    var spent := TakeToken(read, rate, e, at.taken);
    SettledLater(spent, rate, at.taken, at.noted);
    ReadLeaves(spent, rate, e, k, at.noted, later);
  }

  lemma RefusedLeaves(s: Scopes, limits: Limits, rate: Rate, e: ScopeKey, at: Times, k: ScopeKey, later: int)
    requires rate.Sensible() && Settled(s, rate, at.seen) && at.seen <= at.taken <= later
    requires ReasonOf(s, limits, rate, e, at) != Allowed
    requires ReasonOf(s, limits, rate, e, at) == RateLimitExceeded ==> TokensAt(s, rate, e, at.taken) < 1.0
    ensures TokensAt(Evaluated(s, limits, rate, e, at), rate, k, later) == TokensAt(s, rate, k, later)
    ensures Agents(Evaluated(s, limits, rate, e, at), k) == Agents(s, k)
  {
    var read := ReadTokens(s, rate, e, at.seen);
    ReadLeaves(s, rate, e, k, at.seen, later);
    ReadLeaves(s, rate, e, e, at.seen, at.taken);
    SettledLater(read, rate, at.seen, at.taken);
    TakeLeaves(read, rate, e, k, at.taken, later);
  }

  /** An evaluation takes exactly one token if it allows the spawn and none otherwise; no other scope and no
      set of agents changes. */
  lemma EvaluationLeaves(s: Scopes, limits: Limits, rate: Rate, e: ScopeKey, at: Times, k: ScopeKey, later: int)
    requires rate.Sensible() && Settled(s, rate, at.seen) && at.seen <= at.taken <= at.noted <= later
    ensures var after := Evaluated(s, limits, rate, e, at);
            var allowed := limits.enabled && Agents(s, e) < limits.maxConcurrent && TokensAt(s, rate, e, at.taken) >= 1.0;
      && TokensAt(after, rate, k, later) ==
           (if k == e && allowed then OneTaken(rate, TokensAt(s, rate, e, at.taken), at.taken, later)
            else TokensAt(s, rate, k, later))
      && Agents(after, k) == Agents(s, k)
  {
    EvaluationAnswered(s, limits, rate, e, at);
    if ReasonOf(s, limits, rate, e, at) == Allowed {
      AllowedLeaves(s, limits, rate, e, at, k, later);
    } else {
      RefusedLeaves(s, limits, rate, e, at, k, later);
    }
  }

  lemma SettledLater(s: Scopes, rate: Rate, now: int, later: int)
    requires Settled(s, rate, now) && now <= later
    ensures Settled(s, rate, later)
  {}

  // ---------------------------------------------------------------- scopes left alone

  lemma OtherScopesKept(s: Scopes, limits: Limits, rate: Rate, op: Op, k: ScopeKey)
    requires op.key != k
    ensures var after := Step(s, limits, rate, op); (k in after <==> k in s) && (k in s ==> after[k] == s[k])
  {}

  /** Nothing has been done to `k` since. */
  ghost predicate LeftAlone(s: Scopes, limits: Limits, rate: Rate, run: Run, i: nat, n: nat, k: ScopeKey) {
    && i <= n <= |run|
    && var a, b := After(s, limits, rate, run, i), After(s, limits, rate, run, n);
       (k in a <==> k in b) && (k in a ==> a[k] == b[k])
  }

  /** No operation of `run[i..n]` is on `k`. */
  predicate Untouched(run: Run, i: nat, n: nat, k: ScopeKey)
    requires i <= n <= |run|
    decreases n - i
  {
    i == n || (run[i].key != k && Untouched(run, i + 1, n, k))
  }

  lemma {:induction false} StaysAlone(s: Scopes, limits: Limits, rate: Rate, run: Run, i: nat, m: nat, n: nat, k: ScopeKey)
    requires m <= n <= |run| && LeftAlone(s, limits, rate, run, i, m, k) && Untouched(run, m, n, k)
    ensures LeftAlone(s, limits, rate, run, i, n, k)
    decreases n - m
  {
    if m < n {
      OtherScopesKept(After(s, limits, rate, run, m), limits, rate, run[m], k);
      StaysAlone(s, limits, rate, run, i, m + 1, n, k);
    }
  }

  lemma {:induction false} ClockNeverBack(run: Run, start: int, i: nat, n: nat)
    requires Chronological(run, start) && i <= n <= |run|
    ensures Clock(run, i, start) <= Clock(run, n, start)
    decreases n - i
  {
    if i < n {
      assert InOrder(run[i], Clock(run, i, start));
      ClockNeverBack(run, start, i + 1, n);
    }
  }

  lemma IdleHere(s: Scopes, rate: Rate, k: ScopeKey, since: int, now: int)
    requires rate.Sensible() && Settled(s, rate, since) && since <= now
    ensures Idled(TokensAt(s, rate, k, now), rate, now - since)
  {
    if k in s {
      HoldsAtLeast(s[k].bucket, rate, since, now);
    }
  }

  /** The whole burst, or at least what the rate brings in over `ms`. */
  predicate Idled(tokens: real, rate: Rate, ms: int) {
    tokens == rate.burst || tokens >= ms as real * rate.perMs
  }

  lemma SameTokens(s: Scopes, limits: Limits, rate: Rate, run: Run, i: nat, n: nat, k: ScopeKey, now: int)
    requires LeftAlone(s, limits, rate, run, i, n, k)
    ensures TokensAt(After(s, limits, rate, run, n), rate, k, now) == TokensAt(After(s, limits, rate, run, i), rate, k, now)
  {}

  /** A scope not touched since then holds the burst, or at least what the rate brought in meanwhile. */
  lemma IdleTokens(limits: Limits, rate: Rate, run: Run, start: int, i: nat, n: nat, k: ScopeKey, now: int)
    requires rate.Sensible() && Chronological(run, start) && i <= n <= |run| && Clock(run, n, start) <= now
    requires Untouched(run, i, n, k)
    ensures Idled(TokensAt(After(map[], limits, rate, run, n), rate, k, now), rate, now - Clock(run, i, start))
  {
    StaysAlone(map[], limits, rate, run, i, i, n, k);
    SameTokens(map[], limits, rate, run, i, n, k, now);
    TokensStayInBounds(limits, rate, run, start, i);
    ClockNeverBack(run, start, i, n);
    IdleHere(After(map[], limits, rate, run, i), rate, k, Clock(run, i, start), now);
  }

  lemma HoldsAtLeast(b: Bucket, rate: Rate, since: int, now: int)
    requires rate.Sensible() && b.tokens >= 0.0 && b.lastRefill <= since <= now
    ensures Holds(b, rate, now) == rate.burst || Holds(b, rate, now) >= (now - since) as real * rate.perMs
  {
    EarnsMore(rate, b.lastRefill, since);
    assert (now - b.lastRefill) as real == (now - since) as real + (since - b.lastRefill) as real;
  }

  /** The rate brings in a token over `ms`. */
  predicate EarnsOne(rate: Rate, ms: int) {
    ms as real * rate.perMs >= 1.0
  }

  /** A request meets a scope that has idled since. */
  predicate MeetsIdle(s: Scopes, rate: Rate, k: ScopeKey, at: Times, since: int) {
    Settled(s, rate, at.seen) && at.seen <= at.taken && Idled(TokensAt(s, rate, k, at.taken), rate, at.taken - since)
  }

  lemma IdleAllows(s: Scopes, limits: Limits, rate: Rate, op: Op, since: int)
    requires rate.Sensible() && rate.burst >= 1.0 && op.Evaluate? && MeetsIdle(s, rate, op.key, op.at, since)
    requires limits.enabled && Agents(s, op.key) < limits.maxConcurrent && EarnsOne(rate, op.at.taken - since)
    ensures AllowsNow(s, limits, rate, op, op.key)
  {
    EvaluationAnswered(s, limits, rate, op.key, op.at);
  }

  lemma MeetsWhatIdled(limits: Limits, rate: Rate, run: Run, since: int, i: nat, n: nat, k: ScopeKey)
    requires rate.Sensible() && n < |run| && run[n].Evaluate? && LeftAlone(map[], limits, rate, run, i, n, k)
    requires Settled(After(map[], limits, rate, run, i), rate, since)
    requires Settled(After(map[], limits, rate, run, n), rate, run[n].at.seen)
    requires since <= run[n].at.seen <= run[n].at.taken
    ensures MeetsIdle(After(map[], limits, rate, run, n), rate, k, run[n].at, since)
  {
    SameTokens(map[], limits, rate, run, i, n, k, run[n].at.taken);
    IdleHere(After(map[], limits, rate, run, i), rate, k, since, run[n].at.taken);
  }

  lemma RequestMeetsIdle(limits: Limits, rate: Rate, run: Run, start: int, i: nat, n: nat, k: ScopeKey)
    requires rate.Sensible() && Chronological(run, start) && i <= n < |run| && run[n].Evaluate?
    requires LeftAlone(map[], limits, rate, run, i, n, k)
    ensures MeetsIdle(After(map[], limits, rate, run, n), rate, k, run[n].at, Clock(run, i, start))
  {
    SettledWhenSeen(limits, rate, run, start, n);
    ClockNeverBack(run, start, i, n);
    TokensStayInBounds(limits, rate, run, start, i);
    MeetsWhatIdled(limits, rate, run, Clock(run, i, start), i, n, k);
  }

  /** In every run, with room among the agents and a burst of at least one, a spawn is allowed as soon as
      its scope has been left alone long enough for the rate to bring in one token. */
  lemma IdleIsAllowed(limits: Limits, rate: Rate, run: Run, start: int, i: nat, n: nat, k: ScopeKey)
    requires rate.Sensible() && rate.burst >= 1.0 && Chronological(run, start) && i <= n < |run|
    requires Untouched(run, i, n, k)
    requires run[n].Evaluate? && run[n].key == k && limits.enabled
    requires Agents(After(map[], limits, rate, run, n), k) < limits.maxConcurrent
    requires EarnsOne(rate, run[n].at.taken - Clock(run, i, start))
    ensures Allows(map[], limits, rate, run, n, k)
  {
    StaysAlone(map[], limits, rate, run, i, i, n, k);
    RequestMeetsIdle(limits, rate, run, start, i, n, k);
    IdleAllowsAt(limits, rate, run, Clock(run, i, start), n, k);
  }

  lemma IdleAllowsAt(limits: Limits, rate: Rate, run: Run, since: int, n: nat, k: ScopeKey)
    requires rate.Sensible() && rate.burst >= 1.0 && n < |run| && run[n].Evaluate? && run[n].key == k && limits.enabled
    requires MeetsIdle(After(map[], limits, rate, run, n), rate, k, run[n].at, since)
    requires Agents(After(map[], limits, rate, run, n), k) < limits.maxConcurrent
    requires EarnsOne(rate, run[n].at.taken - since)
    ensures Allows(map[], limits, rate, run, n, k)
  {
    IdleAllows(After(map[], limits, rate, run, n), limits, rate, run[n], since);
  }

  lemma SettledWhenSeen(limits: Limits, rate: Rate, run: Run, start: int, n: nat)
    requires rate.Sensible() && Chronological(run, start) && n < |run| && run[n].Evaluate?
    ensures Settled(After(map[], limits, rate, run, n), rate, run[n].at.seen)
    ensures Clock(run, n, start) <= run[n].at.seen <= run[n].at.taken
  {
    assert InOrder(run[n], Clock(run, n, start));
    TokensStayInBounds(limits, rate, run, start, n);
    SettledLater(After(map[], limits, rate, run, n), rate, Clock(run, n, start), run[n].at.seen);
  }

  lemma MinuteIdled(tokens: real, ms: int)
    requires ms >= 60000 && Idled(tokens, DEFAULT_LIMITS.Speed(), ms) && tokens <= 150.0
    ensures tokens == 150.0
  {
    MinuteFills(ms as real);
  }

  lemma NoMoreThanBurst(s: Scopes, rate: Rate, k: ScopeKey, now: int)
    ensures TokensAt(s, rate, k, now) <= rate.burst
  {}

  /** With the default limits a scope left alone for a minute has its whole burst again. */
  lemma DefaultMinute(run: Run, start: int, i: nat, n: nat, k: ScopeKey, now: int)
    requires Chronological(run, start) && i <= n <= |run| && Clock(run, n, start) <= now
    requires Untouched(run, i, n, k)
    requires now >= Clock(run, i, start) + 60000
    ensures TokensAt(After(map[], DEFAULT_LIMITS, DEFAULT_LIMITS.Speed(), run, n), DEFAULT_LIMITS.Speed(), k, now) == 150.0
  {
    var rate := DEFAULT_LIMITS.Speed();
    var tokens := TokensAt(After(map[], DEFAULT_LIMITS, rate, run, n), rate, k, now);
    MinuteFills(60000.0);
    IdleTokens(DEFAULT_LIMITS, rate, run, start, i, n, k, now);
    NoMoreThanBurst(After(map[], DEFAULT_LIMITS, rate, run, n), rate, k, now);
    MinuteIdled(tokens, now - Clock(run, i, start));
  }

  lemma MinuteFills(ms: real)
    requires ms >= 60000.0
    ensures ms * DEFAULT_LIMITS.Speed().perMs >= 150.0 && DEFAULT_LIMITS.Speed().burst == 150.0
  {
    assert DEFAULT_LIMITS.Speed().perMs == 0.0025;
  }

  /** And the other defaults: three hundred agents to a job, and who comes too many waits a minute. */
  lemma DefaultAnswers(s: Scopes, k: ScopeKey, at: Times)
    ensures var r := ResultOf(s, DEFAULT_LIMITS, DEFAULT_LIMITS.Speed(), k, at);
      && (r.reason.ConcurrentLimitExceeded? <==> Agents(s, k) >= 300) && !r.reason.Disabled?
      && (!r.reason.Allowed? ==> r.decision == Queued && r.queueExpiresAt == Some(at.noted + 60000))
    ensures DEFAULT_LIMITS.scope == PerJob
  {}

  /** Scopes are told apart by these names. */
  lemma ScopeNames(id: string)
    ensures BuildScopeKey(PerJob, Some(id), None) == "job:" + id
    ensures BuildScopeKey(PerWorker, None, Some(id)) == "worker:" + id
    ensures BuildScopeKey(Global, Some(id), Some(id)) == "global"
  {}
}
