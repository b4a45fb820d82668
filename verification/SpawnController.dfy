/** Limits on spawning sub-agents: src/domain/agent/index.ts. Times are milliseconds, tokens exact reals. */
module Spawning {
  import opened Prelude

  // ---------------------------------------------------------------- token bucket

  datatype Bucket = Bucket(tokens: real, lastRefill: int)

  datatype Rate = Rate(burst: real, perMs: real)
  {
    predicate Sensible() {
      burst >= 0.0 && perMs >= 0.0
    }

    /** What the rate brings in from time zero up to `now`. */
    function Earned(now: int): real {
      now as real * perMs
    }
  }

  function Min(a: real, b: real): real {
    if a <= b then a else b
  }

  function Refill(b: Bucket, rate: Rate, now: int): Bucket {
    Bucket(Min(rate.burst, b.tokens + (rate.Earned(now) - rate.Earned(b.lastRefill))), now)
  }

  predicate CanTake(b: Bucket, rate: Rate, count: real, now: int) {
    Refill(b, rate, now).tokens >= count
  }

  function Take(b: Bucket, rate: Rate, count: real, now: int): Bucket {
    var full := Refill(b, rate, now);
    if full.tokens >= count then full.(tokens := full.tokens - count) else full
  }

  lemma EarnsMore(rate: Rate, now: int, later: int)
    requires rate.perMs >= 0.0 && now <= later
    ensures rate.Earned(now) <= rate.Earned(later)
    ensures rate.Earned(later) - rate.Earned(now) == (later - now) as real * rate.perMs
  {
    Nonnegative((later - now) as real, rate.perMs);
    assert later as real == now as real + (later - now) as real;
  }

  lemma Nonnegative(x: real, y: real)
    requires x >= 0.0 && y >= 0.0
    ensures x * y >= 0.0
  {}

  /** What a bucket is when made, and again when reset. */
  function Full(rate: Rate, now: int): Bucket {
    Bucket(rate.burst, now)
  }

  /** Only a reset gives more than the rate does: what a drained bucket refuses it grants right after
      one, so the rate bound is about runs without. */
  lemma ResetRefills(b: Bucket, rate: Rate, now: int)
    requires rate.Sensible() && rate.burst >= 1.0 && b.tokens == 0.0 && b.lastRefill == now
    ensures !CanTake(b, rate, 1.0, now) && CanTake(Full(rate, now), rate, 1.0, now)
    ensures Take(Full(rate, now), rate, rate.burst, now).tokens == 0.0
  {}

  /** Refilling on the way changes nothing. */
  lemma RefillsCompose(b: Bucket, rate: Rate, now: int, later: int)
    requires rate.perMs >= 0.0 && b.lastRefill <= now <= later
    ensures Refill(Refill(b, rate, now), rate, later) == Refill(b, rate, later)
  {
    EarnsMore(rate, b.lastRefill, now);
    EarnsMore(rate, now, later);
  }

  /** A bucket gains no more than the rate allows, and never holds more than the burst. */
  lemma LevelRises(b: Bucket, rate: Rate, now: int, later: int)
    requires rate.perMs >= 0.0 && b.lastRefill <= now <= later
    ensures Refill(b, rate, now).tokens <= Refill(b, rate, later).tokens <= rate.burst
    ensures Refill(b, rate, later).tokens <= Refill(b, rate, now).tokens + rate.Earned(later) - rate.Earned(now)
  {
    EarnsMore(rate, b.lastRefill, now);
    EarnsMore(rate, now, later);
  }

  class TokenBucket {
    const maxTokens: real
    const refillRate: real
    var tokens: real
    var lastRefill: int

    constructor (maxTokens: real, refillRate: real, now: int)
      ensures this.maxTokens == maxTokens && this.refillRate == refillRate
      ensures Level() == Full(Speed(), now)
    {
      this.maxTokens, this.refillRate := maxTokens, refillRate;
      tokens, lastRefill := maxTokens, now;
    }

    function Level(): Bucket
      reads this
    {
      Bucket(tokens, lastRefill)
    }

    function Speed(): Rate {
      Rate(maxTokens, refillRate)
    }

    /** What the bucket holds at `now`: no more than it can, and what has come in since. */
    function Topped(now: int): real
      reads this
    {
      var sum := tokens + (now - lastRefill) as real * refillRate;
      if sum >= maxTokens then maxTokens else sum
    }

    method Replenish(now: int)
      modifies this
      ensures tokens == old(Topped(now)) && lastRefill == now
      ensures Level() == Refill(old(Level()), Speed(), now)
    {
      var elapsed := now - lastRefill;
      var tokensToAdd := elapsed as real * refillRate;
      assert tokensToAdd == Speed().Earned(now) - Speed().Earned(lastRefill);
      tokens := Min(maxTokens, tokens + tokensToAdd);
      lastRefill := now;
    }

    method Consume(count: real, now: int) returns (ok: bool)
      modifies this
      ensures ok <==> old(Topped(now)) >= count
      ensures tokens == old(Topped(now)) - if ok then count else 0.0
      ensures Level() == Take(old(Level()), Speed(), count, now)
    {
      Replenish(now);
      if tokens >= count {
        tokens := tokens - count;
        return true;
      }
      ok := false;
    }

    method GetTokens(now: int) returns (r: real)
      modifies this
      ensures Level() == Refill(old(Level()), Speed(), now)
      ensures r == tokens == old(Topped(now)) && lastRefill == now
    {
      Replenish(now);
      r := tokens;
    }

    method Reset(now: int)
      modifies this
      ensures Level() == Full(Speed(), now)
    {
      tokens, lastRefill := maxTokens, now;
    }
  }

  // ---------------------------------------------------------------- scopes

  type AgentId = string
  type ScopeKey = string

  datatype Kind = PerJob | PerWorker | Global

  type Positive = r: real | r > 0.0 witness 1.0

  datatype Overflow = Queue | Reject

  datatype Limits = Limits(
    enabled: bool, scope: Kind, maxConcurrent: int, windowSeconds: Positive, maxSpawnsPerWindow: real, burst: real,
    onConcurrentLimit: Overflow, onRateLimit: Overflow, maxQueueWaitSeconds: int)
  {
    function Speed(): Rate {
      Rate(burst, maxSpawnsPerWindow / (windowSeconds * 1000.0))
    }
  }

  const DEFAULT_LIMITS := Limits(true, PerJob, 300, 60.0, 150.0, 150.0, Queue, Queue, 60)

  function BuildScopeKey(kind: Kind, job: Option<string>, worker: Option<string>): ScopeKey {
    match kind
    case PerJob => "job:" + job.GetOr("unknown")
    case PerWorker => "worker:" + worker.GetOr("unknown")
    case Global => "global"
  }

  /** Two requests share limits exactly when they are of one kind and, where it matters, name the same
      job or worker; naming none is the same as naming "unknown". */
  lemma ScopesShareIff(k: Kind, j: Option<string>, w: Option<string>, k': Kind, j': Option<string>, w': Option<string>)
    ensures BuildScopeKey(k, j, w) == BuildScopeKey(k', j', w') <==>
      && k == k'
      && (k.PerJob? ==> j.GetOr("unknown") == j'.GetOr("unknown"))
      && (k.PerWorker? ==> w.GetOr("unknown") == w'.GetOr("unknown"))
  {
    var a, b := BuildScopeKey(k, j, w), BuildScopeKey(k', j', w');
    if k == k' {
      if k.PerJob? {
        assert a[4..] == j.GetOr("unknown") && b[4..] == j'.GetOr("unknown");
      } else if k.PerWorker? {
        assert a[7..] == w.GetOr("unknown") && b[7..] == w'.GetOr("unknown");
      }
    } else {
      assert a[0] != b[0];
    }
  }

  datatype Scope = Scope(active: set<AgentId>, bucket: Bucket)

  type Scopes = map<ScopeKey, Scope>

  /** The scope at a key; one that does not exist yet is created full. */
  function ScopeAt(s: Scopes, rate: Rate, k: ScopeKey, now: int): Scope {
    if k in s then s[k] else Scope({}, Full(rate, now))
  }

  function ActiveCount(s: Scopes, k: ScopeKey): nat {
    if k in s then |s[k].active| else 0
  }

  function ReadTokens(s: Scopes, rate: Rate, k: ScopeKey, now: int): Scopes {
    var scope := ScopeAt(s, rate, k, now);
    s[k := scope.(bucket := Refill(scope.bucket, rate, now))]
  }

  function TakeToken(s: Scopes, rate: Rate, k: ScopeKey, now: int): Scopes {
    var scope := ScopeAt(s, rate, k, now);
    s[k := scope.(bucket := Take(scope.bucket, rate, 1.0, now))]
  }

  predicate HasToken(s: Scopes, rate: Rate, k: ScopeKey, now: int) {
    CanTake(ScopeAt(s, rate, k, now).bucket, rate, 1.0, now)
  }

  // ---------------------------------------------------------------- decisions

  datatype Reason = Allowed | Disabled | ConcurrentLimitExceeded | RateLimitExceeded
  datatype Decision = Allow | Queued | Rejected

  /** The clock is read up to three times in one evaluation. */
  datatype Times = Times(seen: int, taken: int, noted: int)

  datatype Op =
    | Evaluate(key: ScopeKey, at: Times)
    | Register(key: ScopeKey, agent: AgentId, now: int)
    | Unregister(key: ScopeKey, agent: AgentId)
    | Peek(key: ScopeKey, now: int)

  function ReasonOf(s: Scopes, limits: Limits, rate: Rate, k: ScopeKey, at: Times): Reason {
    if !limits.enabled then Disabled
    else if ActiveCount(s, k) >= limits.maxConcurrent then ConcurrentLimitExceeded
    else if !HasToken(ReadTokens(s, rate, k, at.seen), rate, k, at.taken) then RateLimitExceeded
    else Allowed
  }

  function DecisionOn(reason: Reason, limits: Limits): Decision {
    match reason
    case Allowed | Disabled => Allow
    case ConcurrentLimitExceeded => if limits.onConcurrentLimit.Reject? then Rejected else Queued
    case RateLimitExceeded => if limits.onRateLimit.Reject? then Rejected else Queued
  }

  /** What the caller is told, with the agents and tokens seen at the start and, for a queued spawn, how
      long it may wait. */
  datatype SpawnResult = SpawnResult(
    decision: Decision, reason: Reason, activeCount: nat, remainingTokens: real, queueExpiresAt: Option<int>)

  function ResultOf(s: Scopes, limits: Limits, rate: Rate, k: ScopeKey, at: Times): SpawnResult {
    var reason := ReasonOf(s, limits, rate, k, at);
    SpawnResult(
      DecisionOn(reason, limits), reason, ActiveCount(s, k), ScopeAt(ReadTokens(s, rate, k, at.seen), rate, k, at.seen).bucket.tokens,
      if DecisionOn(reason, limits).Queued? then Some(at.noted + limits.maxQueueWaitSeconds * 1000) else None)
  }

  function Evaluated(s: Scopes, limits: Limits, rate: Rate, k: ScopeKey, at: Times): Scopes {
    var read := ReadTokens(s, rate, k, at.seen);
    match ReasonOf(s, limits, rate, k, at)
    case Disabled | ConcurrentLimitExceeded => read
    case RateLimitExceeded => TakeToken(read, rate, k, at.taken)
    case Allowed => ReadTokens(TakeToken(read, rate, k, at.taken), rate, k, at.noted)
  }

  function Registered(s: Scopes, rate: Rate, k: ScopeKey, agent: AgentId, now: int): Scopes {
    var scope := ScopeAt(s, rate, k, now);
    s[k := scope.(active := scope.active + {agent})]
  }

  function Step(s: Scopes, limits: Limits, rate: Rate, op: Op): Scopes {
    match op
    case Evaluate(k, at) => Evaluated(s, limits, rate, k, at)
    case Register(k, agent, now) => Registered(s, rate, k, agent, now)
    case Unregister(k, agent) =>
      if k in s then s[k := s[k].(active := s[k].active - {agent})] else s
    case Peek(k, now) => ReadTokens(s, rate, k, now)
  }

  type Run = seq<Op>

  function After(s: Scopes, limits: Limits, rate: Rate, run: Run, n: nat): Scopes
    requires n <= |run|
  {
    if n == 0 then s else Step(After(s, limits, rate, run, n - 1), limits, rate, run[n - 1])
  }

  /** When an operation starts and ends, no earlier than `since`. */
  predicate InOrder(op: Op, since: int) {
    match op
    case Evaluate(_, at) => since <= at.seen <= at.taken <= at.noted
    case Register(_, _, now) => since <= now
    case Peek(_, now) => since <= now
    case Unregister(_, _) => true
  }

  function EndOf(op: Op, since: int): int {
    match op
    case Evaluate(_, at) => at.noted
    case Register(_, _, now) => now
    case Peek(_, now) => now
    case Unregister(_, _) => since
  }

  /** The clock after `n` operations. */
  function Clock(run: Run, n: nat, start: int): int
    requires n <= |run|
  {
    if n == 0 then start else EndOf(run[n - 1], Clock(run, n - 1, start))
  }

  predicate Chronological(run: Run, start: int) {
    forall i :: 0 <= i < |run| ==> InOrder(run[i], Clock(run, i, start))
  }

  predicate AllowsNow(s: Scopes, limits: Limits, rate: Rate, op: Op, k: ScopeKey) {
    op.Evaluate? && op.key == k && ReasonOf(s, limits, rate, k, op.at) == Allowed
  }

  predicate Allows(s: Scopes, limits: Limits, rate: Rate, run: Run, i: nat, k: ScopeKey)
    requires i < |run|
  {
    AllowsNow(After(s, limits, rate, run, i), limits, rate, run[i], k)
  }

  /** How many spawns `run[i..n]` allowed at one key. */
  function AllowedCount(s: Scopes, limits: Limits, rate: Rate, run: Run, i: nat, n: nat, k: ScopeKey): nat
    requires i <= n <= |run|
  {
    if i == n then 0
    else AllowedCount(s, limits, rate, run, i, n - 1, k) + if Allows(s, limits, rate, run, n - 1, k) then 1 else 0
  }

  // ---------------------------------------------------------------- the rate bound

  /** The tokens at a key as of `now`; the same whether or not the scope has been created yet. */
  function Level(s: Scopes, rate: Rate, k: ScopeKey, now: int): real {
    Refill(ScopeAt(s, rate, k, now).bucket, rate, now).tokens
  }

  /** Every bucket holds between zero and the burst, and was last refilled in the past. */
  predicate Settled(s: Scopes, rate: Rate, now: int) {
    forall k :: k in s ==> 0.0 <= s[k].bucket.tokens <= rate.burst && s[k].bucket.lastRefill <= now
  }

  lemma LevelMoves(s: Scopes, rate: Rate, k: ScopeKey, now: int, later: int)
    requires rate.Sensible() && Settled(s, rate, now) && now <= later
    ensures Level(s, rate, k, later) <= Level(s, rate, k, now) + rate.Earned(later) - rate.Earned(now)
    ensures 0.0 <= Level(s, rate, k, later) <= rate.burst
  {
    LevelRises(ScopeAt(s, rate, k, now).bucket, rate, now, later);
    if k in s {
      EarnsMore(rate, s[k].bucket.lastRefill, now);
      EarnsMore(rate, now, later);
    }
  }

  /** Reading the tokens of any scope changes no scope's tokens at any later time. */
  lemma ReadsAreHarmless(s: Scopes, rate: Rate, read: ScopeKey, k: ScopeKey, now: int, later: int)
    requires rate.Sensible() && Settled(s, rate, now) && now <= later
    ensures Settled(ReadTokens(s, rate, read, now), rate, now)
    ensures Level(ReadTokens(s, rate, read, now), rate, k, later) == Level(s, rate, k, later)
    ensures ActiveCount(ReadTokens(s, rate, read, now), k) == ActiveCount(s, k)
  {
    LevelMoves(s, rate, read, now, now);
    RefillsCompose(ScopeAt(s, rate, read, now).bucket, rate, now, later);
    EarnsMore(rate, now, now);
    EarnsMore(rate, now, later);
  }

  lemma TakeCostsOne(s: Scopes, rate: Rate, taken: ScopeKey, k: ScopeKey, now: int)
    requires rate.Sensible() && Settled(s, rate, now)
    ensures Settled(TakeToken(s, rate, taken, now), rate, now)
    ensures Level(TakeToken(s, rate, taken, now), rate, k, now)
         == Level(s, rate, k, now) - if k == taken && HasToken(s, rate, k, now) then 1.0 else 0.0
  {
    LevelMoves(s, rate, taken, now, now);
  }

  /** What a spawn is told depends on the tokens as of the time it takes one, not on who looked before. */
  lemma DecidedByLevel(s: Scopes, limits: Limits, rate: Rate, k: ScopeKey, at: Times)
    requires rate.Sensible() && Settled(s, rate, at.seen) && at.seen <= at.taken
    requires limits.enabled && ActiveCount(s, k) < limits.maxConcurrent
    ensures ReasonOf(s, limits, rate, k, at) == Allowed <==> Level(s, rate, k, at.taken) >= 1.0
  {
    ReadsAreHarmless(s, rate, k, k, at.seen, at.taken);
  }

  /** An evaluation costs a token exactly when it allows the spawn, and then there was one to take. */
  lemma EvaluationSpends(s: Scopes, limits: Limits, rate: Rate, e: ScopeKey, at: Times, k: ScopeKey)
    requires rate.Sensible() && Settled(s, rate, at.seen) && at.seen <= at.taken <= at.noted
    ensures var allowed := e == k && ReasonOf(s, limits, rate, e, at) == Allowed;
            var after := Evaluated(s, limits, rate, e, at);
      && Settled(after, rate, at.noted)
      && Level(after, rate, k, at.noted) <= Level(s, rate, k, at.taken)
           + rate.Earned(at.noted) - rate.Earned(at.taken) - (if allowed then 1.0 else 0.0)
      && (allowed ==> Level(s, rate, k, at.taken) >= 1.0)
  {
    var read := ReadTokens(s, rate, e, at.seen);
    var spent := TakeToken(read, rate, e, at.taken);
    ReadsAreHarmless(s, rate, e, k, at.seen, at.taken);
    TakeCostsOne(read, rate, e, k, at.taken);
    match ReasonOf(s, limits, rate, e, at)
    case Disabled | ConcurrentLimitExceeded => LevelMoves(read, rate, k, at.taken, at.noted);
    case RateLimitExceeded => LevelMoves(spent, rate, k, at.taken, at.noted);
    case Allowed =>
      LevelMoves(spent, rate, k, at.taken, at.noted);
      ReadsAreHarmless(spent, rate, e, k, at.noted, at.noted);
  }

  /** One operation costs what it allows, and time brings in no more than the rate. */
  lemma StepSpends(s: Scopes, limits: Limits, rate: Rate, op: Op, since: int, k: ScopeKey)
    requires rate.Sensible() && Settled(s, rate, since) && InOrder(op, since)
    ensures since <= EndOf(op, since) && Settled(Step(s, limits, rate, op), rate, EndOf(op, since))
    ensures Level(Step(s, limits, rate, op), rate, k, EndOf(op, since))
         <= Level(s, rate, k, since) + rate.Earned(EndOf(op, since)) - rate.Earned(since)
            - (if AllowsNow(s, limits, rate, op, k) then 1.0 else 0.0)
  {
    LevelMoves(s, rate, k, since, EndOf(op, since));
    match op
    case Evaluate(e, at) =>
      EvaluationSpends(s, limits, rate, e, at, k);
      LevelMoves(s, rate, k, since, at.taken);
    case Register(e, agent, now) => RegistersKeepLevel(s, rate, e, agent, now, k);
    case Unregister(_, _) =>
    case Peek(e, now) => ReadsAreHarmless(s, rate, e, k, now, now);
  }

  lemma RegistersKeepLevel(s: Scopes, rate: Rate, e: ScopeKey, agent: AgentId, now: int, k: ScopeKey)
    requires rate.Sensible() && Settled(s, rate, now)
    ensures Settled(Registered(s, rate, e, agent, now), rate, now)
    ensures Level(Registered(s, rate, e, agent, now), rate, k, now) == Level(s, rate, k, now)
  {}

  /** In every run the tokens of every scope stay between zero and the burst. */
  lemma {:induction false} TokensStayInBounds(limits: Limits, rate: Rate, run: Run, start: int, n: nat)
    requires rate.Sensible() && Chronological(run, start) && n <= |run|
    ensures Settled(After(map[], limits, rate, run, n), rate, Clock(run, n, start))
  {
    if n > 0 {
      TokensStayInBounds(limits, rate, run, start, n - 1);
      StepSpends(After(map[], limits, rate, run, n - 1), limits, rate, run[n - 1], Clock(run, n - 1, start), "");
    }
  }

  ghost function LevelAt(limits: Limits, rate: Rate, run: Run, start: int, n: nat, k: ScopeKey): real
    requires n <= |run|
  {
    Level(After(map[], limits, rate, run, n), rate, k, Clock(run, n, start))
  }

  /** Since event `i` the spawns allowed at `k` have been paid for. */
  ghost predicate PaidFor(limits: Limits, rate: Rate, run: Run, start: int, i: nat, n: nat, k: ScopeKey)
    requires i < n <= |run| && run[i].Evaluate?
  {
    AllowedCount(map[], limits, rate, run, i, n, k) as real
      <= rate.burst + rate.Earned(Clock(run, n, start)) - rate.Earned(run[i].at.taken) - LevelAt(limits, rate, run, start, n, k)
  }

  lemma FirstSpent(limits: Limits, rate: Rate, run: Run, start: int, i: nat, k: ScopeKey)
    requires rate.Sensible() && Chronological(run, start) && i < |run| && Allows(map[], limits, rate, run, i, k)
    ensures PaidFor(limits, rate, run, start, i, i + 1, k)
  {
    var before, since := After(map[], limits, rate, run, i), Clock(run, i, start);
    TokensStayInBounds(limits, rate, run, start, i);
    assert InOrder(run[i], since);
    EvaluationSpends(before, limits, rate, k, run[i].at, k);
    LevelMoves(before, rate, k, since, run[i].at.taken);
  }

  lemma NextSpent(limits: Limits, rate: Rate, run: Run, start: int, n: nat, k: ScopeKey)
    requires rate.Sensible() && Chronological(run, start) && n < |run|
    ensures LevelAt(limits, rate, run, start, n + 1, k) <= LevelAt(limits, rate, run, start, n, k)
              + rate.Earned(Clock(run, n + 1, start)) - rate.Earned(Clock(run, n, start))
              - (if Allows(map[], limits, rate, run, n, k) then 1.0 else 0.0)
  {
    TokensStayInBounds(limits, rate, run, start, n);
    assert InOrder(run[n], Clock(run, n, start));
    StepSpends(After(map[], limits, rate, run, n), limits, rate, run[n], Clock(run, n, start), k);
  }

  lemma StillPaidFor(limits: Limits, rate: Rate, run: Run, start: int, i: nat, n: nat, k: ScopeKey)
    requires rate.Sensible() && Chronological(run, start) && i < n < |run| && run[i].Evaluate?
    requires PaidFor(limits, rate, run, start, i, n, k)
    ensures PaidFor(limits, rate, run, start, i, n + 1, k)
  {
    NextSpent(limits, rate, run, start, n, k);
  }

  /** Everything that keeps the account going. */
  ghost predicate AccountKept(limits: Limits, rate: Rate, run: Run, start: int, i: nat, n: nat, k: ScopeKey) {
    && rate.Sensible() && Chronological(run, start) && i < n <= |run| && run[i].Evaluate?
    && PaidFor(limits, rate, run, start, i, n, k)
  }

  lemma AccountKeptOn(limits: Limits, rate: Rate, run: Run, start: int, i: nat, n: nat, k: ScopeKey)
    requires n < |run| && AccountKept(limits, rate, run, start, i, n, k)
    ensures AccountKept(limits, rate, run, start, i, n + 1, k)
  {
    StillPaidFor(limits, rate, run, start, i, n, k);
  }

  lemma {:induction false} StaysPaidFor(limits: Limits, rate: Rate, run: Run, start: int, i: nat, m: nat, n: nat, k: ScopeKey)
    requires m <= n <= |run| && AccountKept(limits, rate, run, start, i, m, k)
    ensures AccountKept(limits, rate, run, start, i, n, k)
    decreases n - m
  {
    if m < n {
      AccountKeptOn(limits, rate, run, start, i, m, k);
      StaysPaidFor(limits, rate, run, start, i, m + 1, n, k);
    }
  }

  lemma SpentSince(limits: Limits, rate: Rate, run: Run, start: int, i: nat, n: nat, k: ScopeKey)
    requires rate.Sensible() && Chronological(run, start) && i < n <= |run|
    requires Allows(map[], limits, rate, run, i, k)
    ensures PaidFor(limits, rate, run, start, i, n, k)
  {
    FirstSpent(limits, rate, run, start, i, k);
    StaysPaidFor(limits, rate, run, start, i, i + 1, n, k);
  }

  lemma {:induction false} ClockMovesOn(run: Run, start: int, i: nat, n: nat)
    requires Chronological(run, start) && i < n <= |run|
    ensures EndOf(run[i], Clock(run, i, start)) <= Clock(run, n, start)
  {
    if n > i + 1 {
      ClockMovesOn(run, start, i, n - 1);
      assert InOrder(run[n - 1], Clock(run, n - 1, start));
    }
  }

  lemma BoundInEarnings(limits: Limits, rate: Rate, run: Run, start: int, i: nat, n: nat, k: ScopeKey)
    requires rate.Sensible() && Chronological(run, start) && i < n < |run|
    requires Allows(map[], limits, rate, run, i, k) && Allows(map[], limits, rate, run, n, k)
    ensures run[i].at.taken <= run[n].at.taken
    ensures AllowedCount(map[], limits, rate, run, i, n + 1, k) as real
         <= rate.burst + rate.Earned(run[n].at.taken) - rate.Earned(run[i].at.taken)
  {
    var now, since := After(map[], limits, rate, run, n), Clock(run, n, start);
    SpentSince(limits, rate, run, start, i, n, k);
    TokensStayInBounds(limits, rate, run, start, n);
    assert InOrder(run[n], since) && InOrder(run[i], Clock(run, i, start));
    ReadsAreHarmless(now, rate, k, k, run[n].at.seen, run[n].at.taken);
    LevelMoves(now, rate, k, since, run[n].at.taken);
    ClockMovesOn(run, start, i, n);
  }

  /** No more than the burst and what the rate brings in over `ms`. */
  predicate WithinQuota(rate: Rate, count: real, ms: int) {
    count <= rate.burst + ms as real * rate.perMs
  }

  lemma InMilliseconds(rate: Rate, from: int, to: int, count: real)
    requires rate.Sensible() && from <= to
    requires count <= rate.burst + rate.Earned(to) - rate.Earned(from)
    ensures WithinQuota(rate, count, to - from)
  {}

  /** The rate bound, at the rate `limits.Speed()` like at any other: between taking the tokens of any
      two spawns it allows at one scope, both included, the controller allows at most the burst and
      what the rate brings in meanwhile. */
  lemma RateBound(limits: Limits, rate: Rate, run: Run, start: int, i: nat, n: nat, k: ScopeKey)
    requires rate.Sensible() && Chronological(run, start) && i < n < |run|
    requires Allows(map[], limits, rate, run, i, k) && Allows(map[], limits, rate, run, n, k)
    ensures WithinQuota(rate, AllowedCount(map[], limits, rate, run, i, n + 1, k) as real, run[n].at.taken - run[i].at.taken)
  {
    BoundInEarnings(limits, rate, run, start, i, n, k);
    var count, from, to := AllowedCount(map[], limits, rate, run, i, n + 1, k), run[i].at.taken, run[n].at.taken;
    InMilliseconds(rate, from, to, count as real);
  }

  // ---------------------------------------------------------------- any stretch of time

  /** Event `i` allows a spawn at `k` and takes its token between these moments, both included. */
  predicate AllowsWithin(limits: Limits, rate: Rate, run: Run, i: nat, k: ScopeKey, from: int, to: int)
    requires i < |run|
  {
    Allows(map[], limits, rate, run, i, k) && from <= run[i].at.taken <= to
  }

  function AllowedWithin(limits: Limits, rate: Rate, run: Run, n: nat, k: ScopeKey, from: int, to: int): nat
    requires n <= |run|
  {
    if n == 0 then 0
    else
      var before := AllowedWithin(limits, rate, run, n - 1, k, from, to);
      if AllowsWithin(limits, rate, run, n - 1, k, from, to) then before + 1 else before
  }

  /** The first of them, from which on they are among all those allowed. */
  lemma {:induction false} FirstWithin(limits: Limits, rate: Rate, run: Run, n: nat, k: ScopeKey, from: int, to: int) returns (i: nat)
    requires n <= |run| && AllowedWithin(limits, rate, run, n, k, from, to) > 0
    ensures i < n && AllowsWithin(limits, rate, run, i, k, from, to)
    ensures AllowedWithin(limits, rate, run, n, k, from, to) <= AllowedCount(map[], limits, rate, run, i, n, k)
  {
    if AllowedWithin(limits, rate, run, n - 1, k, from, to) > 0 {
      i := FirstWithin(limits, rate, run, n - 1, k, from, to);
    } else {
      i := n - 1;
    }
  }

  lemma {:induction false} LastWithin(limits: Limits, rate: Rate, run: Run, n: nat, k: ScopeKey, from: int, to: int) returns (i: nat)
    requires n <= |run| && AllowedWithin(limits, rate, run, n, k, from, to) > 0
    ensures i < n && AllowsWithin(limits, rate, run, i, k, from, to)
    ensures AllowedWithin(limits, rate, run, n, k, from, to) == AllowedWithin(limits, rate, run, i + 1, k, from, to)
  {
    i := n - 1;
    if !AllowsWithin(limits, rate, run, n - 1, k, from, to) {
      i := LastWithin(limits, rate, run, n - 1, k, from, to);
    }
  }

  /** One spawn is within the burst. */
  lemma OneIsPaidFor(limits: Limits, rate: Rate, run: Run, start: int, i: nat, k: ScopeKey)
    requires rate.Sensible() && Chronological(run, start) && i < |run| && Allows(map[], limits, rate, run, i, k)
    ensures rate.burst >= 1.0 && AllowedCount(map[], limits, rate, run, i, i + 1, k) == 1
  {
    var before, since := After(map[], limits, rate, run, i), Clock(run, i, start);
    TokensStayInBounds(limits, rate, run, start, i);
    assert InOrder(run[i], since);
    EvaluationSpends(before, limits, rate, k, run[i].at, k);
    LevelMoves(before, rate, k, since, run[i].at.taken);
  }

  lemma QuotaGrows(rate: Rate, count: real, ms: int, longer: int)
    requires rate.Sensible() && WithinQuota(rate, count, ms) && ms <= longer
    ensures WithinQuota(rate, count, longer)
  {}

  /** From the `i`th event to the `l`th, the same or not. */
  lemma BoundBetween(limits: Limits, rate: Rate, run: Run, start: int, i: nat, l: nat, k: ScopeKey)
    requires rate.Sensible() && Chronological(run, start) && i <= l < |run|
    requires Allows(map[], limits, rate, run, i, k) && Allows(map[], limits, rate, run, l, k)
    ensures WithinQuota(rate, AllowedCount(map[], limits, rate, run, i, l + 1, k) as real, run[l].at.taken - run[i].at.taken)
  {
    if i == l {
      OneIsPaidFor(limits, rate, run, start, i, k);
    } else {
      RateBound(limits, rate, run, start, i, l, k);
    }
  }

  lemma BoundWithin(limits: Limits, rate: Rate, run: Run, start: int, i: nat, l: nat, k: ScopeKey, from: int, to: int)
    requires rate.Sensible() && Chronological(run, start) && i <= l < |run|
    requires AllowsWithin(limits, rate, run, i, k, from, to) && AllowsWithin(limits, rate, run, l, k, from, to)
    ensures WithinQuota(rate, AllowedCount(map[], limits, rate, run, i, l + 1, k) as real, to - from)
  {
    var count, ms := AllowedCount(map[], limits, rate, run, i, l + 1, k), run[l].at.taken - run[i].at.taken;
    BoundBetween(limits, rate, run, start, i, l, k);
    QuotaGrows(rate, count as real, ms, to - from);
  }

  lemma FewerInQuota(rate: Rate, count: nat, more: nat, ms: int)
    requires count <= more && WithinQuota(rate, more as real, ms)
    ensures WithinQuota(rate, count as real, ms)
  {}

  /** In every run, over any stretch of time whatever happens at its ends, the controller allows at one
      scope at most the burst and what the rate brings in meanwhile. */
  lemma IntervalBound(limits: Limits, rate: Rate, run: Run, start: int, n: nat, k: ScopeKey, from: int, to: int)
    requires rate.Sensible() && Chronological(run, start) && n <= |run| && from <= to
    ensures WithinQuota(rate, AllowedWithin(limits, rate, run, n, k, from, to) as real, to - from)
  {
    var count := AllowedWithin(limits, rate, run, n, k, from, to);
    if count == 0 {
      QuotaGrows(rate, 0.0, 0, to - from);
    } else {
      var l := LastWithin(limits, rate, run, n, k, from, to);
      var i := FirstWithin(limits, rate, run, l + 1, k, from, to);
      BoundWithin(limits, rate, run, start, i, l, k, from, to);
      FewerInQuota(rate, count, AllowedCount(map[], limits, rate, run, i, l + 1, k), to - from);
    }
  }

  /** So at the configured speed, over any stretch of so many milliseconds. */
  lemma ConfiguredBound(limits: Limits, run: Run, start: int, n: nat, k: ScopeKey, from: int, ms: nat)
    requires limits.Speed().Sensible() && Chronological(run, start) && n <= |run|
    ensures AllowedWithin(limits, limits.Speed(), run, n, k, from, from + ms) as real
         <= limits.burst + ms as real * (limits.maxSpawnsPerWindow / (limits.windowSeconds * 1000.0))
  {
    IntervalBound(limits, limits.Speed(), run, start, n, k, from, from + ms);
  }

  /** With the default limits: no more than three hundred in any minute. */
  lemma DefaultBound(run: Run, start: int, n: nat, k: ScopeKey, from: int)
    requires Chronological(run, start) && n <= |run|
    ensures AllowedWithin(DEFAULT_LIMITS, DEFAULT_LIMITS.Speed(), run, n, k, from, from + 60000) <= 300
  {
    ConfiguredBound(DEFAULT_LIMITS, run, start, n, k, from, 60000);
  }

  // ---------------------------------------------------------------- reads are invisible

  /** What any later call can tell about a key: who is active, and the tokens as of `now`. */
  function View(s: Scopes, rate: Rate, k: ScopeKey, now: int): Scope {
    var scope := ScopeAt(s, rate, k, now);
    Scope(scope.active, Refill(scope.bucket, rate, now))
  }

  ghost predicate Alike(s: Scopes, s': Scopes, rate: Rate, now: int) {
    && Settled(s, rate, now) && Settled(s', rate, now)
    && forall k :: View(s, rate, k, now) == View(s', rate, k, now)
  }

  lemma ViewMoves(s: Scopes, rate: Rate, k: ScopeKey, now: int, later: int)
    requires rate.Sensible() && Settled(s, rate, now) && now <= later
    ensures Settled(s, rate, later)
    ensures View(s, rate, k, later)
         == Scope(View(s, rate, k, now).active, Refill(View(s, rate, k, now).bucket, rate, later))
  {
    LevelMoves(s, rate, k, now, later);
    RefillsCompose(ScopeAt(s, rate, k, now).bucket, rate, now, later);
    EarnsMore(rate, now, later);
  }

  lemma AlikeLater(s: Scopes, s': Scopes, rate: Rate, now: int, later: int)
    requires rate.Sensible() && Alike(s, s', rate, now) && now <= later
    ensures Alike(s, s', rate, later)
  {
    forall k ensures View(s, rate, k, later) == View(s', rate, k, later) {
      ViewMoves(s, rate, k, now, later);
      ViewMoves(s', rate, k, now, later);
    }
  }

  lemma ReadKeepsView(s: Scopes, rate: Rate, read: ScopeKey, now: int)
    requires rate.Sensible() && Settled(s, rate, now)
    ensures Alike(ReadTokens(s, rate, read, now), s, rate, now)
  {
    ReadsAreHarmless(s, rate, read, read, now, now);
    RefillsCompose(ScopeAt(s, rate, read, now).bucket, rate, now, now);
  }

  lemma TakesAlike(s: Scopes, s': Scopes, rate: Rate, taken: ScopeKey, now: int)
    requires rate.Sensible() && Alike(s, s', rate, now)
    ensures HasToken(s, rate, taken, now) == HasToken(s', rate, taken, now)
    ensures Alike(TakeToken(s, rate, taken, now), TakeToken(s', rate, taken, now), rate, now)
  {
    TakeCostsOne(s, rate, taken, taken, now);
    TakeCostsOne(s', rate, taken, taken, now);
    assert View(s, rate, taken, now) == View(s', rate, taken, now);
    forall k ensures View(TakeToken(s, rate, taken, now), rate, k, now) == View(TakeToken(s', rate, taken, now), rate, k, now) {
      assert View(s, rate, k, now) == View(s', rate, k, now);
    }
  }

  lemma CountsAlike(s: Scopes, s': Scopes, rate: Rate, k: ScopeKey, now: int)
    requires Alike(s, s', rate, now)
    ensures ActiveCount(s, k) == ActiveCount(s', k)
  {
    assert View(s, rate, k, now).active == View(s', rate, k, now).active;
  }

  lemma ReadsAlike(s: Scopes, s': Scopes, rate: Rate, read: ScopeKey, now: int)
    requires rate.Sensible() && Alike(s, s', rate, now)
    ensures Alike(ReadTokens(s, rate, read, now), ReadTokens(s', rate, read, now), rate, now)
  {
    ReadKeepsView(s, rate, read, now);
    ReadKeepsView(s', rate, read, now);
    forall k ensures View(ReadTokens(s, rate, read, now), rate, k, now) == View(ReadTokens(s', rate, read, now), rate, k, now) {
      assert View(s, rate, k, now) == View(s', rate, k, now);
    }
  }

  lemma EvaluatedAlike(s: Scopes, s': Scopes, limits: Limits, rate: Rate, k: ScopeKey, at: Times)
    requires rate.Sensible() && Alike(s, s', rate, at.seen) && at.seen <= at.taken <= at.noted
    ensures ReasonOf(s, limits, rate, k, at) == ReasonOf(s', limits, rate, k, at)
    ensures Alike(Evaluated(s, limits, rate, k, at), Evaluated(s', limits, rate, k, at), rate, at.noted)
  {
    var read, read' := ReadTokens(s, rate, k, at.seen), ReadTokens(s', rate, k, at.seen);
    CountsAlike(s, s', rate, k, at.seen);
    ReadsAlike(s, s', rate, k, at.seen);
    AlikeLater(read, read', rate, at.seen, at.taken);
    TakesAlike(read, read', rate, k, at.taken);
    var spent, spent' := TakeToken(read, rate, k, at.taken), TakeToken(read', rate, k, at.taken);
    AlikeLater(read, read', rate, at.taken, at.noted);
    AlikeLater(spent, spent', rate, at.taken, at.noted);
    ReadsAlike(spent, spent', rate, k, at.noted);
  }

  lemma StepAlike(s: Scopes, s': Scopes, limits: Limits, rate: Rate, op: Op, since: int)
    requires rate.Sensible() && Alike(s, s', rate, since) && InOrder(op, since)
    ensures Alike(Step(s, limits, rate, op), Step(s', limits, rate, op), rate, EndOf(op, since))
  {
    match op
    case Evaluate(k, at) =>
      AlikeLater(s, s', rate, since, at.seen);
      EvaluatedAlike(s, s', limits, rate, k, at);
    case Register(k, agent, now) =>
      AlikeLater(s, s', rate, since, now);
      RegisteredAlike(s, s', rate, k, agent, now);
    case Unregister(k, agent) => UnregisteredAlike(s, s', limits, rate, k, agent, since);
    case Peek(k, now) =>
      AlikeLater(s, s', rate, since, now);
      ReadsAlike(s, s', rate, k, now);
  }

  lemma RegisteredAlike(s: Scopes, s': Scopes, rate: Rate, e: ScopeKey, agent: AgentId, now: int)
    requires rate.Sensible() && Alike(s, s', rate, now)
    ensures Alike(Registered(s, rate, e, agent, now), Registered(s', rate, e, agent, now), rate, now)
  {
    var t, t' := Registered(s, rate, e, agent, now), Registered(s', rate, e, agent, now);
    forall k ensures View(t, rate, k, now) == View(t', rate, k, now) {
      assert View(s, rate, k, now) == View(s', rate, k, now);
    }
  }

  lemma UnregisteredAlike(s: Scopes, s': Scopes, limits: Limits, rate: Rate, e: ScopeKey, agent: AgentId, now: int)
    requires rate.Sensible() && Alike(s, s', rate, now)
    ensures Alike(Step(s, limits, rate, Unregister(e, agent)), Step(s', limits, rate, Unregister(e, agent)), rate, now)
  {
    var t, t' := Step(s, limits, rate, Unregister(e, agent)), Step(s', limits, rate, Unregister(e, agent));
    forall k ensures View(t, rate, k, now) == View(t', rate, k, now) {
      assert View(s, rate, k, now) == View(s', rate, k, now);
      assert k !in s ==> View(s, rate, k, now).active == {};
      assert k !in s' ==> View(s', rate, k, now).active == {};
    }
  }

  lemma {:induction false} RunsAlike(s: Scopes, s': Scopes, limits: Limits, rate: Rate, run: Run, start: int, n: nat)
    requires rate.Sensible() && Alike(s, s', rate, start) && Chronological(run, start) && n <= |run|
    ensures Alike(After(s, limits, rate, run, n), After(s', limits, rate, run, n), rate, Clock(run, n, start))
  {
    if n > 0 {
      RunsAlike(s, s', limits, rate, run, start, n - 1);
      StepAlike(After(s, limits, rate, run, n - 1), After(s', limits, rate, run, n - 1), limits, rate, run[n - 1],
                Clock(run, n - 1, start));
    }
  }

  /** Looking at any scope's tokens, at any moment, changes no decision taken after it. */
  lemma PeekIsInvisible(s: Scopes, limits: Limits, rate: Rate, peeked: ScopeKey, now: int, run: Run, n: nat)
    requires rate.Sensible() && Settled(s, rate, now) && Chronological(run, now)
    requires n < |run| && run[n].Evaluate?
    ensures ReasonOf(After(ReadTokens(s, rate, peeked, now), limits, rate, run, n), limits, rate, run[n].key, run[n].at)
         == ReasonOf(After(s, limits, rate, run, n), limits, rate, run[n].key, run[n].at)
  {
    var s' := ReadTokens(s, rate, peeked, now);
    ReadKeepsView(s, rate, peeked, now);
    RunsAlike(s', s, limits, rate, run, now, n);
    var t', t, since := After(s', limits, rate, run, n), After(s, limits, rate, run, n), Clock(run, n, now);
    assert InOrder(run[n], since);
    AlikeLater(t', t, rate, since, run[n].at.seen);
    EvaluatedAlike(t', t, limits, rate, run[n].key, run[n].at);
  }

  // ---------------------------------------------------------------- counters

  datatype Counters = Counters(
    attempts: map<Kind, nat>, allowed: map<Kind, nat>, rejected: map<(Kind, Reason), nat>, queued: map<Kind, nat>)

  const NO_COUNTS := Counters(map[], map[], map[], map[])

  function Count<K>(m: map<K, nat>, k: K): nat {
    if k in m then m[k] else 0
  }

  function Bumped<K>(m: map<K, nat>, k: K): map<K, nat> {
    m[k := Count(m, k) + 1]
  }

  function Noted(c: Counters, kind: Kind, reason: Reason, limits: Limits): Counters {
    var tried := c.(attempts := Bumped(c.attempts, kind));
    match DecisionOn(reason, limits)
    case Allow => if reason == Allowed then tried.(allowed := Bumped(c.allowed, kind)) else tried
    case Queued => tried.(queued := Bumped(c.queued, kind))
    case Rejected => tried.(rejected := Bumped(c.rejected, (kind, reason)))
  }

  /** Attempts counted neither as allowed nor as queued nor as rejected. */
  function Unaccounted(c: Counters, kind: Kind): int {
    Count(c.attempts, kind) - Count(c.allowed, kind) - Count(c.queued, kind)
    - Count(c.rejected, (kind, ConcurrentLimitExceeded)) - Count(c.rejected, (kind, RateLimitExceeded))
  }

  /** Counting starts from nothing. */
  lemma FirstNoted(kind: Kind, reason: Reason, limits: Limits)
    ensures var after, decision := Noted(NO_COUNTS, kind, reason, limits), DecisionOn(reason, limits);
      && after.attempts == map[kind := 1]
      && after.allowed == (if reason == Allowed then map[kind := 1] else map[])
      && after.queued == (if decision == Queued then map[kind := 1] else map[])
      && after.rejected == (if decision == Rejected then map[(kind, reason) := 1] else map[])
  {}

  /** Every attempt is counted exactly once more, under its own kind, except where limits are disabled. */
  lemma AttemptsAccountedFor(c: Counters, kind: Kind, reason: Reason, limits: Limits, k: Kind)
    ensures Unaccounted(Noted(c, kind, reason, limits), k)
         == Unaccounted(c, k) + if k == kind && reason == Disabled then 1 else 0
  {
    NotedOnce(c, kind, reason, limits);
    EachCounted(c, Noted(c, kind, reason, limits), kind, reason, DecisionOn(reason, limits), k);
  }

  /** Each counter moves on its own occasion. */
  predicate Counted(c: Counters, after: Counters, kind: Kind, reason: Reason, decision: Decision) {
    && after.attempts == Bumped(c.attempts, kind)
    && after.allowed == (if reason == Allowed then Bumped(c.allowed, kind) else c.allowed)
    && after.queued == (if decision == Queued then Bumped(c.queued, kind) else c.queued)
    && after.rejected == (if decision == Rejected then Bumped(c.rejected, (kind, reason)) else c.rejected)
  }

  lemma NotedOnce(c: Counters, kind: Kind, reason: Reason, limits: Limits)
    ensures Counted(c, Noted(c, kind, reason, limits), kind, reason, DecisionOn(reason, limits))
  {}

  lemma EachCounted(c: Counters, after: Counters, kind: Kind, reason: Reason, decision: Decision, k: Kind)
    requires Counted(c, after, kind, reason, decision)
    requires decision == Allow <==> reason == Allowed || reason == Disabled
    ensures Unaccounted(after, k) == Unaccounted(c, k) + if k == kind && reason == Disabled then 1 else 0
  {
    MovesWhen(c.attempts, after.attempts, kind, true, k);
    MovesWhen(c.allowed, after.allowed, kind, reason == Allowed, k);
    MovesWhen(c.queued, after.queued, kind, decision == Queued, k);
    MovesWhen(c.rejected, after.rejected, (kind, reason), decision == Rejected, (k, ConcurrentLimitExceeded));
    MovesWhen(c.rejected, after.rejected, (kind, reason), decision == Rejected, (k, RateLimitExceeded));
  }

  lemma MovesWhen<K>(before: map<K, nat>, after: map<K, nat>, moved: K, moves: bool, k: K)
    requires after == if moves then Bumped(before, moved) else before
    ensures Count(after, k) == Count(before, k) + if moves && k == moved then 1 else 0
  {}

  // ---------------------------------------------------------------- the managers

  datatype ScopeState = ScopeState(activeAgents: set<AgentId>, tokenBucket: TokenBucket)

  lemma LastWriteWins<K, V>(m: map<K, V>, k: K, a: V, b: V)
    ensures m[k := a][k := b] == m[k := b]
  {}

  class ScopeManager {
    const limits: Limits
    /** The refill rate of every scope, worked out from the limits. */
    const speed: Rate
    var states: map<ScopeKey, ScopeState>
    ghost var contents: Scopes
    /** Which scope each bucket belongs to. */
    ghost var owner: map<TokenBucket, ScopeKey>

    constructor (limits: Limits)
      ensures Valid() && this.limits == limits && speed == limits.Speed() && contents == map[] && owner == map[]
    {
      this.limits, this.states := limits, map[];
      speed := Rate(limits.burst, limits.maxSpawnsPerWindow / (limits.windowSeconds * 1000.0));
      contents, owner := map[], map[];
    }

    /** Every scope has a bucket of its own, at the configured speed. */
    ghost predicate Valid()
      reads this, Buckets()
    {
      && contents.Keys == states.Keys
      && forall k :: k in states ==>
           && states[k].tokenBucket in owner && owner[states[k].tokenBucket] == k
           && states[k].tokenBucket.Speed() == speed
           && contents[k] == Scope(states[k].activeAgents, states[k].tokenBucket.Level())
    }

    ghost function Buckets(): set<TokenBucket>
      reads this
    {
      owner.Keys
    }

    method GetScopeState(k: ScopeKey, now: int) returns (state: ScopeState)
      requires Valid()
      modifies this
      ensures Valid() && fresh(Buckets() - old(Buckets()))
      ensures k in states && state == states[k]
      ensures contents == old(contents)[k := ScopeAt(old(contents), speed, k, now)]
    {
      if k !in states {
        var bucket := new TokenBucket(speed.burst, speed.perMs, now);
        states := states[k := ScopeState({}, bucket)];
        contents := contents[k := Scope({}, bucket.Level())];
        owner := owner[bucket := k];
      }
      state := states[k];
    }

    method GetActiveCount(k: ScopeKey) returns (n: nat)
      requires Valid()
      ensures n == ActiveCount(contents, k)
    {
      n := if k in states then |states[k].activeAgents| else 0;
    }

    method RegisterAgent(k: ScopeKey, agent: AgentId, now: int)
      requires Valid()
      modifies this
      ensures Valid() && fresh(Buckets() - old(Buckets()))
      ensures contents == Registered(old(contents), speed, k, agent, now)
    {
      var state := GetScopeState(k, now);
      states := states[k := state.(activeAgents := state.activeAgents + {agent})];
      LastWriteWins(old(contents), k, contents[k], contents[k].(active := contents[k].active + {agent}));
      contents := contents[k := contents[k].(active := contents[k].active + {agent})];
    }

    method UnregisterAgent(k: ScopeKey, agent: AgentId)
      requires Valid()
      modifies this
      ensures Valid() && Buckets() == old(Buckets())
      ensures contents == Step(old(contents), limits, speed, Unregister(k, agent))
    {
      if k in states {
        states := states[k := states[k].(activeAgents := states[k].activeAgents - {agent})];
        contents := contents[k := contents[k].(active := contents[k].active - {agent})];
      }
    }

    method GetRemainingTokens(k: ScopeKey, now: int) returns (tokens: real)
      requires Valid()
      modifies this, Buckets()
      ensures Valid() && fresh(Buckets() - old(Buckets()))
      ensures contents == ReadTokens(old(contents), speed, k, now)
      ensures tokens == contents[k].bucket.tokens
    {
      var state := GetScopeState(k, now);
      tokens := state.tokenBucket.GetTokens(now);
      LastWriteWins(old(contents), k, contents[k], contents[k].(bucket := state.tokenBucket.Level()));
      contents := contents[k := contents[k].(bucket := state.tokenBucket.Level())];
    }

    method TryConsumeToken(k: ScopeKey, now: int) returns (ok: bool)
      requires Valid()
      modifies this, Buckets()
      ensures Valid() && fresh(Buckets() - old(Buckets()))
      ensures contents == TakeToken(old(contents), speed, k, now)
      ensures ok == HasToken(old(contents), speed, k, now)
    {
      var state := GetScopeState(k, now);
      ok := state.tokenBucket.Consume(1.0, now);
      LastWriteWins(old(contents), k, contents[k], contents[k].(bucket := state.tokenBucket.Level()));
      contents := contents[k := contents[k].(bucket := state.tokenBucket.Level())];
    }
  }

  class SpawnController {
    const limits: Limits
    const scopes: ScopeManager
    var metrics: Counters

    constructor (limits: Limits)
      ensures this.limits == limits && Valid() && fresh(scopes) && scopes.speed == limits.Speed()
      ensures scopes.contents == map[] && metrics == NO_COUNTS
    {
      this.limits := limits;
      scopes := new ScopeManager(limits);
      metrics := NO_COUNTS;
    }

    ghost predicate Valid()
      reads this, scopes, scopes.Buckets()
    {
      scopes.Valid() && scopes.limits == limits
    }

    /** `kind` is the scope asked for, if any. */
    method EvaluateSpawn(kind: Option<Kind>, job: Option<string>, worker: Option<string>, at: Times) returns (r: SpawnResult)
      requires Valid()
      modifies this, scopes, scopes.Buckets()
      ensures Valid() && fresh(scopes.Buckets() - old(scopes.Buckets()))
      ensures var key := BuildScopeKey(kind.GetOr(limits.scope), job, worker);
        && r == ResultOf(old(scopes.contents), limits, scopes.speed, key, at)
        && scopes.contents == Step(old(scopes.contents), limits, scopes.speed, Evaluate(key, at))
      ensures metrics == Noted(old(metrics), kind.GetOr(limits.scope), r.reason, limits)
      ensures Counted(old(metrics), metrics, kind.GetOr(limits.scope), r.reason, r.decision)
    {
      var scope := kind.GetOr(limits.scope);
      var key := BuildScopeKey(scope, job, worker);
      var active := scopes.GetActiveCount(key);
      var reason, tokens := CheckLimits(key, active, at);
      var decision := NoteDecision(scope, reason);
      NotedOnce(old(metrics), scope, reason, limits);
      r := SpawnResult(decision, reason, active, tokens,
                       if decision.Queued? then Some(at.noted + limits.maxQueueWaitSeconds * 1000) else None);
    }

    /** Reads the scope's tokens and, where the agents are not too many, takes one. */
    method CheckLimits(key: ScopeKey, active: nat, at: Times) returns (reason: Reason, tokens: real)
      requires Valid() && active == ActiveCount(scopes.contents, key)
      modifies scopes, scopes.Buckets()
      ensures Valid() && fresh(scopes.Buckets() - old(scopes.Buckets()))
      ensures reason == ReasonOf(old(scopes.contents), limits, scopes.speed, key, at)
      ensures scopes.contents == Evaluated(old(scopes.contents), limits, scopes.speed, key, at)
      ensures tokens == ResultOf(old(scopes.contents), limits, scopes.speed, key, at).remainingTokens
    {
      ghost var read := ReadTokens(scopes.contents, scopes.speed, key, at.seen);
      tokens := scopes.GetRemainingTokens(key, at.seen);
      assert scopes.contents == read;
      if !limits.enabled {
        return Disabled, tokens;
      }
      if active >= limits.maxConcurrent {
        return ConcurrentLimitExceeded, tokens;
      }
      var ok := scopes.TryConsumeToken(key, at.taken);
      if !ok {
        return RateLimitExceeded, tokens;
      }
      var _ := scopes.GetRemainingTokens(key, at.noted);
      reason := Allowed;
    }

    method NoteDecision(scope: Kind, reason: Reason) returns (decision: Decision)
      modifies this`metrics
      ensures decision == DecisionOn(reason, limits)
      ensures metrics == Noted(old(metrics), scope, reason, limits)
    {
      metrics := metrics.(attempts := Bumped(metrics.attempts, scope));
      match reason
      case Disabled => decision := Allow;
      case ConcurrentLimitExceeded => decision := Overflowed(scope, reason, limits.onConcurrentLimit);
      case RateLimitExceeded => decision := Overflowed(scope, reason, limits.onRateLimit);
      case Allowed =>
        metrics := metrics.(allowed := Bumped(metrics.allowed, scope));
        decision := Allow;
    }

    method Overflowed(scope: Kind, reason: Reason, policy: Overflow) returns (decision: Decision)
      modifies this`metrics
      ensures decision == if policy.Reject? then Rejected else Queued
      ensures metrics == if policy.Reject? then old(metrics).(rejected := Bumped(old(metrics).rejected, (scope, reason)))
                         else old(metrics).(queued := Bumped(old(metrics).queued, scope))
    {
      if policy.Reject? {
        metrics := metrics.(rejected := Bumped(metrics.rejected, (scope, reason)));
        return Rejected;
      }
      metrics := metrics.(queued := Bumped(metrics.queued, scope));
      decision := Queued;
    }
  }
}
