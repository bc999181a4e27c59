/** Calling the source: the rate limiter (app/ingestion/utils/rate_limiter.py), the circuit breaker
    (app/ingestion/utils/circuit_breaker.py) and the retry loop around them
    (app/ingestion/adapters/tenrai.py). */
module SourceAdapter {
  import opened Base

  /** Time only moves forward, and a sleep lasts at least as long as asked. How much longer things
      take is up to the environment. */
  class Clock {
    var now: real
    const delays: nat -> real
    var ticks: nat

    constructor (delays: nat -> real)
      ensures this.delays == delays && now == 0.0 && ticks == 0
    {
      this.delays := delays;
      now, ticks := 0.0, 0;
    }

    method Now() returns (t: real)
      modifies this
      ensures t == now && now >= old(now)
    {
      if delays(ticks) > 0.0 { now := now + delays(ticks); }
      ticks := ticks + 1;
      t := now;
    }

    method Sleep(d: real)
      requires d >= 0.0
      modifies this
      ensures now >= old(now) + d
    {
      now := now + d;
      var t := Now();
    }
  }

  // --- rate limiter ---------------------------------------------------------------------------------

  /** Consecutive times are at least `interval` apart. */
  predicate Spaced(times: seq<real>, interval: real) {
    forall i | 0 <= i < |times| - 1 :: times[i + 1] - times[i] >= interval
  }

  class RateLimiter {
    const interval: real
    const clock: Clock
    var lastRequestTime: Option<real>
    ghost var acquired: seq<real>

    ghost predicate Valid()
      reads this, clock
    {
      interval > 0.0 && Spaced(acquired, interval) &&
      lastRequestTime == (if acquired == [] then None else Some(acquired[|acquired| - 1])) &&
      (acquired != [] ==> acquired[|acquired| - 1] <= clock.now)
    }

    constructor (requestsPerMinute: real, clock: Clock)
      requires requestsPerMinute > 0.0
      ensures Valid() && acquired == [] && this.clock == clock && interval == 60.0 / requestsPerMinute
    {
      interval := 60.0 / requestsPerMinute;
      this.clock := clock;
      lastRequestTime := None;
      acquired := [];
    }

    /** Callers come one at a time, in any order: the lock. One that is cancelled in its sleep leaves
        no trace. */
    method Acquire(cancelled: bool) returns (ok: bool)
      requires Valid()
      modifies this`lastRequestTime, this`acquired, clock
      ensures Valid() && clock.now >= old(clock.now)
      ensures if ok then acquired == old(acquired) + [clock.now] else cancelled && acquired == old(acquired)
    {
      if lastRequestTime.Some? {
        var t := clock.Now();
        var elapsed := t - lastRequestTime.value;
        if elapsed < interval {
          if cancelled { return false; }
          clock.Sleep(interval - elapsed);
        }
      }
      var now := clock.Now();
      lastRequestTime := Some(now);
      acquired := acquired + [now];
      ok := true;
    }
  }

  lemma {:induction false} SpreadOut(times: seq<real>, interval: real, i: nat, j: nat)
    requires Spaced(times, interval) && i <= j < |times|
    ensures times[j] - times[i] >= (j - i) as real * interval
  {
    if i < j {
      SpreadOut(times, interval, i, j - 1);
      assert times[j] - times[j - 1] >= interval;
    }
  }

  function Ceiling(x: real): int { -((-x).Floor) }

  lemma WithinAMinute(times: seq<real>, rpm: real, i: nat, j: nat)
    requires rpm > 0.0 && Spaced(times, 60.0 / rpm) && i <= j < |times| && times[j] - times[i] < 60.0
    ensures j - i < Ceiling(rpm)
  {
    var interval, n := 60.0 / rpm, (j - i) as real;
    SpreadOut(times, interval, i, j);
    assert n * interval <= times[j] - times[i];
    assert rpm * interval == 60.0;
    BelowRate(n, interval, rpm);
  }

  lemma BelowRate(n: real, interval: real, rpm: real)
    requires interval > 0.0 && rpm * interval == 60.0 && n * interval < 60.0
    ensures n < rpm
  {
    MoreTakesLonger(n, rpm, interval);
    assert n >= rpm ==> n * interval >= 60.0;
  }

  lemma MoreTakesLonger(a: real, b: real, c: real)
    requires c > 0.0
    ensures a >= b ==> a * c >= b * c
  {
  }

  lemma {:induction false} FitsIn(s: set<int>, low: int, size: nat)
    requires forall x | x in s :: low <= x < low + size
    ensures |s| <= size
    decreases size
  {
    if size == 0 {
      if s != {} {
        var x := AnyOf(s);
        assert false;
      }
    } else {
      FitsIn(s - {low}, low + 1, size - 1);
      assert s <= (s - {low}) + {low};
      CountSplit(s, low);
    }
  }

  lemma CountSplit(s: set<int>, x: int)
    ensures |s| <= |s - {x}| + 1
  {
  }

  function InWindow(times: seq<real>, from: real): set<int> {
    set i | 0 <= i < |times| && from <= times[i] < from + 60.0
  }

  /** Every half-open minute holds at most ceiling(rpm) requests. */
  lemma RateBound(times: seq<real>, rpm: real, from: real)
    requires rpm > 0.0 && Spaced(times, 60.0 / rpm)
    ensures |InWindow(times, from)| <= Ceiling(rpm)
  {
    var s := InWindow(times, from);
    if s != {} {
      var low := Least(s);
      forall x | x in s ensures low <= x < low + Ceiling(rpm) {
        WithinAMinute(times, rpm, low, x);
      }
      FitsIn(s, low, Ceiling(rpm));
    }
  }

  lemma AnyOf<T>(s: set<T>) returns (x: T)
    requires s != {}
    ensures x in s
  {
    x :| x in s;
  }

  lemma {:induction false} Least(s: set<int>) returns (m: int)
    requires s != {}
    ensures m in s && forall x | x in s :: m <= x
    decreases |s|
  {
    m := AnyOf(s);
    if s != {m} {
      var rest := s - {m};
      var r := Least(rest);
      assert s == rest + {m};
      if r < m { m := r; }
    }
  }

  // --- circuit breaker ------------------------------------------------------------------------------

  /** How a call ended. An exhausted call used up its attempts; `at` is when the breaker heard of it. */
  datatype Call = Answered | Exhausted(at: real) | AccessDenied | Blocked | Cancelled

  /** The exhausted calls since the last answered one. */
  function Failures(h: seq<Call>): nat {
    if h == [] || h[|h| - 1].Answered? then 0
    else Failures(h[..|h| - 1]) + if h[|h| - 1].Exhausted? then 1 else 0
  }

  function LastFailure(h: seq<Call>): Option<real> {
    if h == [] then None
    else if h[|h| - 1].Exhausted? then Some(h[|h| - 1].at)
    else LastFailure(h[..|h| - 1])
  }

  /** Open exactly when the failures since the last answer reach the threshold, since the latest. */
  function OpenedAt(h: seq<Call>, threshold: nat): Option<real> {
    if Failures(h) >= threshold then LastFailure(h) else None
  }

  class CircuitBreaker {
    const failureThreshold: nat
    const cooldown: real
    const clock: Clock
    var consecutiveFailures: nat
    var openedAt: Option<real>

    constructor (failureThreshold: nat, cooldown: real, clock: Clock)
      requires failureThreshold >= 1 && cooldown > 0.0
      ensures this.failureThreshold == failureThreshold && this.cooldown == cooldown && this.clock == clock
      ensures Reflects([])
    {
      this.failureThreshold, this.cooldown, this.clock := failureThreshold, cooldown, clock;
      consecutiveFailures, openedAt := 0, None;
    }

    predicate Reflects(h: seq<Call>)
      reads this
    {
      failureThreshold >= 1 && cooldown > 0.0 &&
      consecutiveFailures == Failures(h) && openedAt == OpenedAt(h, failureThreshold)
    }

    /** Whether a call may go out. */
    method Check() returns (blocked: bool)
      modifies clock
      ensures clock.now >= old(clock.now)
      ensures blocked <==> openedAt.Some? && clock.now - openedAt.value < cooldown
    {
      if openedAt.None? { return false; }
      var now := clock.Now();
      blocked := cooldown - (now - openedAt.value) > 0.0;
    }

    method RecordSuccess()
      modifies this
      ensures consecutiveFailures == 0 && openedAt == None
    {
      consecutiveFailures, openedAt := 0, None;
    }

    method RecordFailure()
      modifies this, clock
      ensures consecutiveFailures == old(consecutiveFailures) + 1 && clock.now >= old(clock.now)
      ensures openedAt == if consecutiveFailures >= failureThreshold then Some(clock.now) else old(openedAt)
    {
      consecutiveFailures := consecutiveFailures + 1;
      if consecutiveFailures >= failureThreshold {
        var now := clock.Now();
        openedAt := Some(now);
      }
    }
  }

  // --- the adapter ----------------------------------------------------------------------------------

  /** What one request comes back with. `retryAfter` is the header where it is a finite number. */
  datatype Reply = Response(status: int, validJson: bool, retryAfter: Option<real>) | TransportError | CancelledInFlight

  const RETRYABLE: set<int> := {500, 502, 503, 504}
  const ACCESS_DENIED: set<int> := {401, 403}
  const DEFAULT_RETRY_AFTER_S := 30.0

  datatype Failure = Gone | Permanent(status: int) | Denied(status: int) | Transient(lastStatus: Option<int>)
    | CircuitOpen | Interrupted

  datatype Result = Got | Failed(failure: Failure)

  predicate IsRetryable(r: Reply) {
    r.TransportError? || (r.Response? && (r.status == 429 || r.status in RETRYABLE))
  }

  function Wait(r: Reply, attempt: nat): real {
    if r.Response? && r.status == 429
    then (if r.retryAfter.Some? && r.retryAfter.value >= 0.0 then r.retryAfter.value else DEFAULT_RETRY_AFTER_S)
    else Backoff(attempt)
  }

  function Backoff(attempt: nat): real { if attempt <= 1 then 1.0 else 2.0 * Backoff(attempt - 1) }

  /** What a reply that is not worth repeating means. */
  function Verdict(r: Reply): Result
    requires !IsRetryable(r)
  {
    if r.CancelledInFlight? then Failed(Interrupted)
    else if r.status == 404 then Failed(Gone)
    else if r.status in ACCESS_DENIED then Failed(Denied(r.status))
    else if r.status != 200 then Failed(Permanent(r.status))
    else if r.validJson then Got else Failed(Permanent(200))
  }

  /** The result of a call whose last reply this is. */
  function Ended(r: Reply): Result {
    if IsRetryable(r) then Failed(Transient(if r.Response? then Some(r.status) else None)) else Verdict(r)
  }

  function Count429(replies: nat -> Reply, n: nat, n': nat): nat {
    if n' <= n then 0
    else Count429(replies, n, n' - 1) + if replies(n' - 1).Response? && replies(n' - 1).status == 429 then 1 else 0
  }

  /** The requests `n` to `n'` of one call and its result: all but the last were worth repeating, and
      the last was not, or was one too many. An interrupted call may have sent none. */
  predicate CallIs(replies: nat -> Reply, maxAttempts: nat, n: nat, n': nat, r: Result) {
    n <= n' <= n + maxAttempts &&
    (forall i | n <= i < n' - 1 :: IsRetryable(replies(i))) &&
    if r == Failed(Interrupted) then n' > n ==> IsRetryable(replies(n' - 1)) || replies(n' - 1).CancelledInFlight?
    else
      n < n' && r == Ended(replies(n' - 1)) && (IsRetryable(replies(n' - 1)) ==> n' == n + maxAttempts)
  }

  /** What the requests `n` to `n'` of a call mean for its result. A transport error, and the statuses
      429, 500, 502, 503 and 504, are repeated while attempts are left; any other answer ends the call. */
  lemma ResultIsExact(replies: nat -> Reply, maxAttempts: nat, n: nat, n': nat, r: Result)
    requires CallIs(replies, maxAttempts, n, n', r) && r != Failed(Interrupted)
    ensures n < n' <= n + maxAttempts
    ensures forall i | n <= i < n' - 1 ::
      replies(i).TransportError? || (replies(i).Response? && replies(i).status in {429, 500, 502, 503, 504})
    ensures match replies(n' - 1)
      case TransportError => n' == n + maxAttempts && r == Failed(Transient(None))
      case CancelledInFlight => false
      case Response(status, validJson, _) =>
        if status in {429, 500, 502, 503, 504} then n' == n + maxAttempts && r == Failed(Transient(Some(status)))
        else if status == 200 then r == if validJson then Got else Failed(Permanent(200))
        else if status == 404 then r == Failed(Gone)
        else if status == 401 || status == 403 then r == Failed(Denied(status))
        else r == Failed(Permanent(status))
  {
  }

  /** The pause a reply asks for, as the `k`-th of its call: what a 429 says, or 30 seconds when it says
      nothing usable; otherwise two to the k seconds, from one second on. */
  function PauseAfter(r: Reply, k: nat): real {
    match r
    case Response(429, _, Some(seconds)) => if seconds >= 0.0 then seconds else 30.0
    case Response(429, _, None) => 30.0
    case _ => TwoTo(k) as real
  }

  lemma {:induction false} BackoffIsTwoTo(attempt: nat)
    requires attempt >= 1
    ensures Backoff(attempt) == TwoTo(attempt - 1) as real
  {
    if attempt > 1 { BackoffIsTwoTo(attempt - 1); }
  }

  lemma WaitIsPause(r: Reply, attempt: nat)
    requires attempt >= 1
    ensures Wait(r, attempt) == PauseAfter(r, attempt - 1) && Wait(r, attempt) >= 0.0
  {
    BackoffIsTwoTo(attempt);
  }

  /** Between two requests of a call at least that pause. */
  predicate PausedBetween(times: seq<real>, replies: nat -> Reply, n: nat) {
    forall i | n <= i < |times| - 1 :: times[i + 1] >= times[i] + PauseAfter(replies(i), i - n)
  }

  lemma OneMorePause(times: seq<real>, replies: nat -> Reply, n: nat, after: seq<real>)
    requires PausedBetween(times, replies, n) && |after| == |times| + 1 && after[..|times|] == times
    requires |times| > n ==> after[|times|] >= times[|times| - 1] + PauseAfter(replies(|times| - 1), |times| - 1 - n)
    ensures PausedBetween(after, replies, n)
  {
    forall i | n <= i < |after| - 1 ensures after[i + 1] >= after[i] + PauseAfter(replies(i), i - n) {
      assert after[i] == times[i];
      if i < |times| - 1 { assert after[i + 1] == times[i + 1]; }
    }
  }

  /** A call that has sent the requests from `n` on, since `start`, and may go on: every reply so far is
      worth repeating, and its pause is over. */
  predicate GoesOn(times: seq<real>, before: seq<real>, replies: nat -> Reply, start: real, now: real) {
    var n := |before|;
    SentAfter(times, before, start) && PausedBetween(times, replies, n) && start <= now &&
    (forall i | n <= i < |times| :: IsRetryable(replies(i))) &&
    (|times| > n ==> now >= times[|times| - 1] + PauseAfter(replies(|times| - 1), |times| - 1 - n))
  }

  lemma OneMoreRequest(times: seq<real>, before: seq<real>, replies: nat -> Reply, start: real, now: real,
                       after: seq<real>)
    requires GoesOn(times, before, replies, start, now)
    requires |after| == |times| + 1 && after[..|times|] == times && after[|times|] >= now
    ensures SentAfter(after, before, start) && PausedBetween(after, replies, |before|)
  {
    OneMoreSent(times, before, start, after);
    OneMorePause(times, replies, |before|, after);
  }

  lemma GoesOnAfter(times: seq<real>, before: seq<real>, replies: nat -> Reply, start: real, now: real,
                    after: seq<real>, later: real, attempt: nat, reply: Reply)
    requires attempt >= 1 && |times| == |before| + attempt - 1 && reply == replies(|times|) && IsRetryable(reply)
    requires GoesOn(times, before, replies, start, now) && now <= later
    requires |after| == |times| + 1 && after[..|times|] == times && after[|times|] >= now
    requires later >= after[|times|] + Wait(reply, attempt)
    ensures GoesOn(after, before, replies, start, later)
  {
    OneMoreRequest(times, before, replies, start, now, after);
    WaitIsPause(reply, attempt);
  }

  /** A call that has ended with `r` in its attempt number `attempt`. */
  predicate HasEnded(times: seq<real>, before: seq<real>, replies: nat -> Reply, start: real, maxAttempts: nat,
                     attempt: nat, r: Result) {
    var n := |before|;
    n <= |times| && CallIs(replies, maxAttempts, n, |times|, r) && r != Failed(CircuitOpen) &&
    SentAfter(times, before, start) && PausedBetween(times, replies, n) &&
    if r == Failed(Interrupted) then n + attempt - 1 <= |times| <= n + attempt else |times| == n + attempt
  }

  lemma CallIsBroken(times: seq<real>, before: seq<real>, replies: nat -> Reply, start: real, now: real,
                     maxAttempts: nat, attempt: nat)
    requires GoesOn(times, before, replies, start, now)
    requires |times| == |before| + attempt - 1 && 1 <= attempt <= maxAttempts
    ensures HasEnded(times, before, replies, start, maxAttempts, attempt, Failed(Interrupted))
  {
  }

  lemma CallEnds(times: seq<real>, before: seq<real>, replies: nat -> Reply, start: real, now: real, maxAttempts: nat,
                 attempt: nat, after: seq<real>, reply: Reply)
    requires GoesOn(times, before, replies, start, now) && |times| == |before| + attempt - 1
    requires |after| == |times| + 1 && after[..|times|] == times && after[|times|] >= now
    requires 1 <= attempt <= maxAttempts && reply == replies(|times|) && (!IsRetryable(reply) || attempt == maxAttempts)
    ensures HasEnded(after, before, replies, start, maxAttempts, attempt, Ended(reply))
  {
    OneMoreRequest(times, before, replies, start, now, after);
  }

  /** How the breaker sees a result. */
  function CallOf(r: Result, at: real): Call {
    match r
    case Got => Answered
    case Failed(Gone) => Answered
    case Failed(Permanent(_)) => Answered
    case Failed(Transient(_)) => Exhausted(at)
    case Failed(Denied(_)) => AccessDenied
    case Failed(CircuitOpen) => Blocked
    case Failed(Interrupted) => Cancelled
  }

  /** The calls that passed the breaker and were not interrupted. */
  function Passed(h: seq<Call>): nat {
    if h == [] then 0
    else Passed(h[..|h| - 1]) + if h[|h| - 1].Blocked? || h[|h| - 1].Cancelled? then 0 else 1
  }

  function Interruptions(h: seq<Call>): nat {
    if h == [] then 0 else Interruptions(h[..|h| - 1]) + if h[|h| - 1].Cancelled? then 1 else 0
  }

  /** The requests since `before` were sent no earlier than `from`. */
  predicate SentAfter(times: seq<real>, before: seq<real>, from: real) {
    |before| <= |times| && forall i | 0 <= i < |times| ::
      if i < |before| then times[i] == before[i] else times[i] >= from
  }

  lemma OneMoreSent(times: seq<real>, before: seq<real>, from: real, after: seq<real>)
    requires SentAfter(times, before, from)
    requires |after| == |times| + 1 && after[..|times|] == times && after[|times|] >= from
    ensures SentAfter(after, before, from)
  {
  }

  lemma SentEvenLater(times: seq<real>, before: seq<real>, from: real, earlier: real)
    requires SentAfter(times, before, from) && earlier <= from
    ensures SentAfter(times, before, earlier)
  {
  }

  lemma OneMoreCall(h: seq<Call>, c: Call)
    ensures Failures(h + [c]) == if c.Answered? then 0 else Failures(h) + if c.Exhausted? then 1 else 0
    ensures LastFailure(h + [c]) == if c.Exhausted? then Some(c.at) else LastFailure(h)
    ensures Passed(h + [c]) == Passed(h) + if c.Blocked? || c.Cancelled? then 0 else 1
    ensures Interruptions(h + [c]) == Interruptions(h) + if c.Cancelled? then 1 else 0
  {
  }

  /** The breaker's counters after a call: a success resets them, an exhausted call adds one. */
  lemma CallIsHeard(h: seq<Call>, c: Call, threshold: nat, failures: nat, since: Option<real>, failures': nat,
                    since': Option<real>)
    requires threshold >= 1 && failures == Failures(h) && since == OpenedAt(h, threshold)
    requires failures' == if c.Answered? then 0 else failures + if c.Exhausted? then 1 else 0
    requires since' ==
      if c.Answered? then None else if c.Exhausted? && failures' >= threshold then Some(c.at) else since
    ensures failures' == Failures(h + [c]) && since' == OpenedAt(h + [c], threshold)
  {
    OneMoreCall(h, c);
  }

  class TenraiAdapter {
    const limiter: RateLimiter
    const breaker: CircuitBreaker
    const clock: Clock
    const maxAttempts: nat
    const replies: nat -> Reply
    /** Whether the n-th wait for the limiter is cancelled. */
    const cancels: nat -> bool
    var waits: nat
    var requestCount: nat
    var retryCount: nat
    var rateLimitedCount: nat
    ghost var calls: seq<Call>

    constructor (limiter: RateLimiter, breaker: CircuitBreaker, clock: Clock, maxAttempts: nat, replies: nat -> Reply,
                 cancels: nat -> bool)
      requires maxAttempts >= 1 && limiter.Valid() && breaker.Reflects([]) && limiter.acquired == []
      requires limiter.clock == clock && breaker.clock == clock
      ensures Valid() && calls == []
    {
      this.limiter, this.breaker, this.clock, this.maxAttempts := limiter, breaker, clock, maxAttempts;
      this.replies, this.cancels := replies, cancels;
      waits, requestCount, retryCount, rateLimitedCount := 0, 0, 0, 0;
      calls := [];
    }

    /** Every request went through the limiter, and the 429s are counted. */
    ghost predicate InStep()
      reads this, limiter, limiter.clock
    {
      limiter.Valid() && |limiter.acquired| == requestCount && rateLimitedCount == Count429(replies, 0, requestCount)
    }

    /** The counters and the breaker are functions of the calls so far. */
    ghost predicate Valid()
      reads this, limiter, breaker, clock
    {
      maxAttempts >= 1 && limiter.clock == clock && breaker.clock == clock && InStep() &&
      breaker.Reflects(calls) &&
      Passed(calls) <= requestCount - retryCount <= Passed(calls) + Interruptions(calls)
    }

    /** One attempt: the limiter, the request, the count of 429s, and the wait before another one. */
    method Attempt(attempt: nat) returns (reply: Option<Reply>)
      requires attempt >= 1 && limiter.clock == clock && InStep()
      modifies this`waits, this`requestCount, this`rateLimitedCount, limiter, clock
      ensures InStep() && clock.now >= old(clock.now)
      ensures reply.None? ==> limiter.acquired == old(limiter.acquired)
      ensures reply.Some? ==>
        reply.value == replies(old(requestCount)) && requestCount == old(requestCount) + 1 &&
        limiter.acquired[..old(requestCount)] == old(limiter.acquired) &&
        limiter.acquired[old(requestCount)] >= old(clock.now) &&
        (IsRetryable(reply.value) && attempt < maxAttempts ==>
          clock.now >= limiter.acquired[old(requestCount)] + Wait(reply.value, attempt))
    {
      var acquired := limiter.Acquire(cancels(waits));
      waits := waits + 1;
      if !acquired { return None; }
      reply := Some(replies(requestCount));
      requestCount := requestCount + 1;
      if reply.value.Response? && reply.value.status == 429 { rateLimitedCount := rateLimitedCount + 1; }
      if IsRetryable(reply.value) && attempt < maxAttempts {
        WaitIsPause(reply.value, attempt);
        clock.Sleep(Wait(reply.value, attempt));
      }
    }

    /** `_fetch`: up to `maxAttempts` requests, each after the limiter. */
    method Fetch() returns (r: Result)
      requires maxAttempts >= 1 && limiter.clock == clock && InStep()
      modifies this`waits, this`requestCount, this`retryCount, this`rateLimitedCount, limiter, clock
      ensures InStep()
      ensures CallIs(replies, maxAttempts, old(requestCount), requestCount, r) && r != Failed(CircuitOpen)
      ensures clock.now >= old(clock.now)
      ensures SentAfter(limiter.acquired, old(limiter.acquired), old(clock.now))
      ensures PausedBetween(limiter.acquired, replies, old(requestCount))
      ensures var more := (requestCount - retryCount) - (old(requestCount) - old(retryCount));
        if r == Failed(Interrupted) then 0 <= more <= 1 else more == 1
    {
      var attempt := 1;
      ghost var n, before, start := requestCount, limiter.acquired, clock.now;
      while true
        invariant 1 <= attempt <= maxAttempts && requestCount == n + attempt - 1
        invariant retryCount == old(retryCount) + if attempt == 1 then 0 else attempt - 2
        invariant InStep() && GoesOn(limiter.acquired, before, replies, start, clock.now)
        decreases maxAttempts - attempt
      {
        var ended := TryOnce(attempt, n, before, start);
        if ended.Some? { return ended.value; }
        attempt := attempt + 1;
      }
    }

    /** One turn of the loop: the call ends, or goes on to another request. */
    method TryOnce(attempt: nat, ghost n: nat, ghost before: seq<real>, ghost start: real) returns (r: Option<Result>)
      requires 1 <= attempt <= maxAttempts && requestCount == n + attempt - 1 && |before| == n
      requires limiter.clock == clock && InStep() && GoesOn(limiter.acquired, before, replies, start, clock.now)
      modifies this`waits, this`requestCount, this`retryCount, this`rateLimitedCount, limiter, clock
      ensures InStep() && clock.now >= start && retryCount == old(retryCount) + if attempt > 1 then 1 else 0
      ensures r.None? ==> attempt < maxAttempts && requestCount == n + attempt
      ensures r.None? ==> GoesOn(limiter.acquired, before, replies, start, clock.now)
      ensures r.Some? ==> HasEnded(limiter.acquired, before, replies, start, maxAttempts, attempt, r.value)
    {
      if attempt > 1 { retryCount := retryCount + 1; }
      ghost var times, now := limiter.acquired, clock.now;
      var reply := Attempt(attempt);
      if reply.None? {
        CallIsBroken(times, before, replies, start, now, maxAttempts, attempt);
        return Some(Failed(Interrupted));
      }
      if !IsRetryable(reply.value) || attempt == maxAttempts {
        CallEnds(times, before, replies, start, now, maxAttempts, attempt, limiter.acquired, reply.value);
        return Some(Ended(reply.value));
      }
      GoesOnAfter(times, before, replies, start, now, limiter.acquired, clock.now, attempt, reply.value);
      return None;
    }

    /** What the breaker hears of a call: an answer resets it, an exhausted call counts against the source
        and may open it, a denial and an interruption say nothing. */
    method Hear(r: Result)
      requires breaker.clock == clock
      modifies breaker, clock
      ensures clock.now >= old(clock.now)
      ensures r == Got || r == Failed(Gone) || (r.Failed? && r.failure.Permanent?) ==>
        breaker.consecutiveFailures == 0 && breaker.openedAt == None
      ensures r.Failed? && r.failure.Transient? ==>
        breaker.consecutiveFailures == old(breaker.consecutiveFailures) + 1 &&
        breaker.openedAt == if breaker.consecutiveFailures >= breaker.failureThreshold then Some(clock.now)
                            else old(breaker.openedAt)
      ensures r.Failed? && (r.failure.Denied? || r.failure == CircuitOpen || r.failure == Interrupted) ==>
        breaker.consecutiveFailures == old(breaker.consecutiveFailures) && breaker.openedAt == old(breaker.openedAt)
    {
      match r {
        case Failed(Transient(_)) => breaker.RecordFailure();
        case Failed(Gone) => breaker.RecordSuccess();
        case Failed(Permanent(_)) => breaker.RecordSuccess();
        case Got => breaker.RecordSuccess();
        case _ =>
      }
    }

    /** What the breaker hears of a call. */
    method Report(r: Result)
      requires breaker.clock == clock && limiter.clock == clock && InStep()
      requires breaker.Reflects(calls) && r != Failed(CircuitOpen)
      modifies breaker, clock, this`calls
      ensures clock.now >= old(clock.now) && InStep() && breaker.Reflects(calls)
      ensures calls == old(calls) + [CallOf(r, clock.now)]
    {
      ghost var failures, since := breaker.consecutiveFailures, breaker.openedAt;
      Hear(r);
      CallIsHeard(calls, CallOf(r, clock.now), breaker.failureThreshold, failures, since,
        breaker.consecutiveFailures, breaker.openedAt);
      calls := calls + [CallOf(r, clock.now)];
    }

    /** The breaker is asked first; a call that it blocks leaves it as it is. */
    method IsBlocked() returns (blocked: bool)
      requires Valid()
      modifies clock, this`calls
      ensures Valid() && clock.now >= old(clock.now)
      ensures blocked <==> BlockedAt(old(calls), clock.now)
      ensures calls == if blocked then old(calls) + [Blocked] else old(calls)
    {
      blocked := breaker.Check();
      if blocked {
        OneMoreCall(calls, Blocked);
        calls := calls + [Blocked];
      }
    }

    /** A call that passed the breaker. */
    method Proceed() returns (r: Result)
      requires Valid()
      modifies this`waits, this`requestCount, this`retryCount, this`rateLimitedCount, this`calls, limiter, breaker,
        clock
      ensures Valid() && clock.now >= old(clock.now) && calls == old(calls) + [CallOf(r, clock.now)]
      ensures CallIs(replies, maxAttempts, old(requestCount), requestCount, r) && r != Failed(CircuitOpen)
      ensures SentAfter(limiter.acquired, old(limiter.acquired), old(clock.now))
    {
      ghost var h := calls;
      r := Fetch();
      Report(r);
      OneMoreCall(h, CallOf(r, clock.now));
    }

    /** `_get`: nothing is sent while the breaker is open and its cooldown lasts; an exhausted call
        counts against the source, an answered one for it, a denial for neither. */
    method Get() returns (r: Result, ghost at: real)
      requires Valid()
      modifies this`waits, this`requestCount, this`retryCount, this`rateLimitedCount, this`calls, limiter, breaker,
        clock
      ensures Valid() && old(clock.now) <= at <= clock.now && calls == old(calls) + [CallOf(r, at)]
      ensures r == Failed(CircuitOpen) ==>
        requestCount == old(requestCount) && retryCount == old(retryCount) &&
        limiter.acquired == old(limiter.acquired) &&
        BlockedAt(old(calls), clock.now)
      ensures r != Failed(CircuitOpen) ==>
        CallIs(replies, maxAttempts, old(requestCount), requestCount, r) &&
        (OpenedAt(old(calls), breaker.failureThreshold).Some? ==>
          SentAfter(limiter.acquired, old(limiter.acquired),
            OpenedAt(old(calls), breaker.failureThreshold).value + breaker.cooldown))
    {
      ghost var failed := OpenedAt(calls, breaker.failureThreshold);
      var blocked := IsBlocked();
      if blocked {
        return Failed(CircuitOpen), clock.now;
      }
      ghost var sent, start := limiter.acquired, clock.now;
      r := Proceed();
      at := clock.now;
      if failed.Some? {
        SentEvenLater(limiter.acquired, sent, start, failed.value + breaker.cooldown);
      }
    }

    /** Open, and the cooldown since the latest failure is not over. */
    predicate BlockedAt(h: seq<Call>, now: real)
      reads this, breaker
    {
      OpenedAt(h, breaker.failureThreshold).Some? &&
      now - OpenedAt(h, breaker.failureThreshold).value < breaker.cooldown
    }
  }
}
