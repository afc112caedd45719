/** The token-bucket rate limiter and its adaptive variant.

    Time is the caller's clock reading `now`, in seconds, and it never moves
    backwards; a sleep of `w` seconds moves the clock forward by exactly `w`.
    Token counts are integers, rates and times are reals. */
module RateLimiting {
  import opened Common

  /** The four fields the limiter's methods update. */
  datatype Bucket = Bucket(tokens: int, maxTokens: int, rps: real, lastRefill: Option<real>)

  /** What every limiter keeps, the adaptive one included. */
  predicate WellFormed(b: Bucket) {
    b.rps > 0.0 && 0 <= b.maxTokens && 0 <= b.tokens
  }

  /** The capacity bound. The plain limiter keeps it; the adaptive one can
      lower the capacity below the tokens it holds. */
  predicate Bounded(b: Bucket) {
    b.tokens <= b.maxTokens
  }

  /** `now` is a clock reading no earlier than the last refill. */
  predicate NotBefore(b: Bucket, now: real) {
    b.lastRefill.Some? ==> b.lastRefill.value <= now
  }

  function Min(x: int, y: int): int {
    if x <= y then x else y
  }

  /** The capacity of a fresh limiter: a given non-zero burst capacity, else
      the whole part of the rate (`burst_capacity or int(requests_per_second)`). */
  function Capacity(rps: real, burst: Option<int>): (c: int)
    requires rps > 0.0
    ensures burst.Some? && burst.value != 0 ==> c == burst.value
    ensures burst.None? || burst.value == 0 ==> 0 <= c && c as real <= rps < c as real + 1.0
  {
    if burst.Some? && burst.value != 0 then burst.value else rps.Floor
  }

  /** A fresh limiter: a full bucket that was never refilled. */
  function Initial(rps: real, burst: Option<int>): (b: Bucket)
    requires rps > 0.0
    requires burst.Some? ==> burst.value >= 0
    ensures WellFormed(b) && Bounded(b)
    ensures b.tokens == b.maxTokens == Capacity(rps, burst)
    ensures b.rps == rps && b.lastRefill == None
  {
    var c := Capacity(rps, burst);
    Bucket(c, c, rps, None)
  }

  /** `_refill_tokens` at time `now`. The first refill only starts the clock.
      Later ones add the whole tokens earned since the last committed refill,
      up to the capacity, and move the refill time only when at least one
      whole token was earned. */
  function Refilled(b: Bucket, now: real): (r: Bucket)
    ensures r.rps == b.rps && r.maxTokens == b.maxTokens && r.lastRefill.Some?
    ensures b.lastRefill.None? ==> r == b.(lastRefill := Some(now))
    ensures WellFormed(b) ==> WellFormed(r)
    ensures Bounded(b) ==> Bounded(r) && b.tokens <= r.tokens
    ensures r.tokens == b.tokens || r.lastRefill == Some(now)
    ensures NotBefore(b, now) ==> NotBefore(r, now)
  {
    match b.lastRefill
    case None => b.(lastRefill := Some(now))
    case Some(last) => RefilledBy(b, Earned(last, now, b.rps), now)
  }

  /** The tokens earned at `rps` tokens per second from `from` to `to`. */
  function Earned(from: real, to: real, rps: real): real {
    (to - from) * rps
  }

  /** Earnings over consecutive stretches add up, and no stretch earns less
      than nothing. */
  lemma EarnedAdds(t0: real, t1: real, t2: real, rps: real)
    requires t0 <= t1 <= t2 && 0.0 < rps
    ensures Earned(t0, t2, rps) == Earned(t0, t1, rps) + Earned(t1, t2, rps)
    ensures 0.0 <= Earned(t0, t1, rps) && 0.0 <= Earned(t1, t2, rps)
  {
  }

  /** A refill at `now` of a bucket that has earned `toAdd` tokens since its
      last committed refill. */
  function RefilledBy(b: Bucket, toAdd: real, now: real): Bucket {
    if toAdd >= 1.0 then
      b.(tokens := Min(b.maxTokens, b.tokens + toAdd.Floor), lastRefill := Some(now))
    else
      b
  }

  /** A committed refill adds the whole part of what was earned, capped at
      the capacity; the fraction it drops is less than one token. */
  lemma RefillAddsWholeTokens(b: Bucket, now: real)
    requires WellFormed(b) && b.lastRefill.Some? && b.lastRefill.value <= now
    ensures var earned := Earned(b.lastRefill.value, now, b.rps);
            var r := Refilled(b, now);
            && (earned < 1.0 ==> r == b)
            && (earned >= 1.0 ==>
                  && r.tokens == Min(b.maxTokens, b.tokens + earned.Floor)
                  && 0.0 <= earned - earned.Floor as real < 1.0
                  && r.lastRefill == Some(now))
  {
    var earned := Earned(b.lastRefill.value, now, b.rps);
    var r := Refilled(b, now);
    if earned >= 1.0 {
      assert r == b.(tokens := Min(b.maxTokens, b.tokens + earned.Floor), lastRefill := Some(now));
      assert earned.Floor as real <= earned < earned.Floor as real + 1.0;
    } else {
      assert r == b;
    }
  }

  lemma FloorSum(x: real, y: real)
    ensures x.Floor + y.Floor <= (x + y).Floor
  {
  }

  /** Refilling in two steps never yields more tokens than refilling once at
      the later time: each committed refill drops its fraction. */
  lemma {:induction false} SplitRefillNoGain(b: Bucket, t1: real, t2: real)
    requires WellFormed(b) && Bounded(b)
    requires b.lastRefill.Some? && b.lastRefill.value <= t1 <= t2
    ensures Refilled(Refilled(b, t1), t2).tokens <= Refilled(b, t2).tokens
  {
    var last := b.lastRefill.value;
    var x1 := Earned(last, t1, b.rps);
    if x1 >= 1.0 {
      var x2 := Earned(t1, t2, b.rps);
      EarnedAdds(last, t1, t2, b.rps);
      var b1 := RefilledBy(b, x1, t1);
      assert b1.lastRefill == Some(t1) && b1.rps == b.rps;
      SplitEarningsNoGain(b, x1, x2, t1, t2);
    }
  }

  /** Two committed refills earning `x1` and then `x2` yield at most what one
      refill earning `x1 + x2` yields. */
  lemma SplitEarningsNoGain(b: Bucket, x1: real, x2: real, t1: real, t2: real)
    requires Bounded(b) && 1.0 <= x1 && 0.0 <= x2
    ensures RefilledBy(RefilledBy(b, x1, t1), x2, t2).tokens <= RefilledBy(b, x1 + x2, t2).tokens
  {
    FloorSum(x1, x2);
    var f2 := if x2 >= 1.0 then x2.Floor else 0;
    CappedTwice(b.maxTokens, b.tokens, x1.Floor, f2, (x1 + x2).Floor);
  }

  /** Capping after each of two additions gives at most what capping once
      after their sum gives. */
  lemma CappedTwice(cap: int, tokens: int, d1: int, d2: int, d: int)
    requires tokens <= cap && 0 <= d1 && 0 <= d2 && d1 + d2 <= d
    ensures Min(cap, Min(cap, tokens + d1) + d2) <= Min(cap, tokens + d)
  {
  }

  /** The loss is real: with one token per second, refills at 1.5s and 3s
      yield two tokens where a single refill at 3s yields three. */
  lemma SplitRefillLosesFraction()
    ensures var b := Bucket(0, 10, 1.0, Some(0.0));
            && Refilled(Refilled(b, 1.5), 3.0).tokens == 2
            && Refilled(b, 3.0).tokens == 3
  {
    var b := Bucket(0, 10, 1.0, Some(0.0));
    assert Earned(0.0, 1.5, 1.0) == 1.5;
    assert (1.5).Floor == 1;
    assert Earned(1.5, 3.0, 1.0) == 1.5;
    assert Earned(0.0, 3.0, 1.0) == 3.0;
    assert (3.0).Floor == 3;
  }

  /** A limiter above its capacity (possible after an adaptive rate change)
      is cut back to the capacity by the next committed refill. */
  lemma RefillClampsExcess(b: Bucket, now: real)
    requires WellFormed(b) && !Bounded(b)
    requires b.lastRefill.Some? && Earned(b.lastRefill.value, now, b.rps) >= 1.0
    ensures Refilled(b, now).tokens == b.maxTokens < b.tokens
  {
  }

  /** Why `acquire(n)` needs `n <= max_tokens` or `n <= tokens`: when `n`
      exceeds both the capacity and the tokens held, no refill, at any time,
      ever brings the tokens up to `n`, so the loop never exits. This holds
      for an over-full bucket too, since a refill only ever clamps it. */
  lemma {:induction false} OversizedAcquireNeverSatisfied(b: Bucket, n: int, times: seq<real>)
    requires WellFormed(b) && b.maxTokens < n && b.tokens < n
    ensures RefillAll(b, times).tokens < n
    ensures Bounded(b) ==> Bounded(RefillAll(b, times))
    decreases |times|
  {
    if times != [] {
      OversizedAcquireNeverSatisfied(Refilled(b, times[0]), n, times[1..]);
    }
  }

  /** The bucket after refills at each of the given clock readings in turn. */
  function RefillAll(b: Bucket, times: seq<real>): Bucket
    decreases |times|
  {
    if times == [] then b else RefillAll(Refilled(b, times[0]), times[1..])
  }

  /** `get_wait_time(n)` on the refilled state: zero when enough tokens are
      there, else the time the missing tokens take to be earned. */
  function WaitTime(b: Bucket, n: int): (w: real)
    requires b.rps > 0.0
    ensures 0.0 <= w
    ensures w == 0.0 <==> n <= b.tokens
    ensures b.tokens < n ==> w * b.rps == (n - b.tokens) as real
  {
    if b.tokens >= n then 0.0 else (n - b.tokens) as real / b.rps
  }

  /** How many more sleeps `acquire(n)` needs: none when the tokens are
      there, one once the refill clock runs, two before it has started. */
  function Pending(b: Bucket, n: int): nat {
    if b.tokens >= n then 0 else if b.lastRefill.Some? then 1 else 2
  }

  /** One iteration of the `acquire` loop makes progress. */
  lemma WaitThenRefill(b: Bucket, n: int, now: real)
    requires WellFormed(b) && n <= b.maxTokens && NotBefore(b, now) && b.tokens < n
    ensures Pending(Refilled(b, now + WaitTime(b, n)), n) < Pending(b, n)
  {
    var w := WaitTime(b, n);
    var t := now + w;
    if b.lastRefill.Some? {
      var last := b.lastRefill.value;
      var earned := Earned(last, t, b.rps);
      EarnedAdds(last, now, t, b.rps);
      assert Earned(now, t, b.rps) == w * b.rps;
      assert earned >= (n - b.tokens) as real;
      assert earned.Floor >= n - b.tokens;
    }
  }

  /** The state in which the `acquire(n)` loop exits, and the clock reading
      then. The loop first checks without refilling, then sleeps for the
      missing tokens' time and refills until the tokens are there. */
  function Settle(b: Bucket, n: int, now: real): (r: (Bucket, real))
    requires WellFormed(b) && (n <= b.maxTokens || n <= b.tokens) && NotBefore(b, now)
    ensures WellFormed(r.0) && n <= r.0.tokens
    ensures now <= r.1 && NotBefore(r.0, r.1)
    ensures r.0.rps == b.rps && r.0.maxTokens == b.maxTokens
    ensures Bounded(b) ==> Bounded(r.0)
    ensures n <= b.tokens ==> r == (b, now)
    decreases Pending(b, n)
  {
    if b.tokens >= n then
      (b, now)
    else
      WaitThenRefill(b, n, now);
      var t := now + WaitTime(b, n);
      Settle(Refilled(b, t), n, t)
  }

  /** Consuming `n` tokens. */
  function Taken(b: Bucket, n: int): (r: Bucket)
    requires n <= b.tokens
    ensures r.tokens == b.tokens - n
    ensures r.maxTokens == b.maxTokens && r.rps == b.rps && r.lastRefill == b.lastRefill
    ensures WellFormed(b) ==> WellFormed(r)
    ensures Bounded(b) && 0 <= n ==> Bounded(r)
  {
    b.(tokens := b.tokens - n)
  }

  /** The bucket and the clock reading when `acquire(n)` returns: settled,
      then `n` tokens taken. No time passes when the tokens are there. */
  function Acquired(b: Bucket, n: int, now: real): (r: (Bucket, real))
    requires WellFormed(b) && (n <= b.maxTokens || n <= b.tokens) && NotBefore(b, now)
    ensures WellFormed(r.0) && now <= r.1 && NotBefore(r.0, r.1)
    ensures r.0.rps == b.rps && r.0.maxTokens == b.maxTokens
    ensures Bounded(b) && 0 <= n ==> Bounded(r.0)
    ensures n <= b.tokens ==> r == (Taken(b, n), now)
  {
    var settled := Settle(b, n, now);
    (Taken(settled.0, n), settled.1)
  }

  /** `try_acquire(n)`: refill, then take `n` tokens if they are there. */
  function TryTake(b: Bucket, n: int, now: real): (r: (bool, Bucket))
    ensures var refilled := Refilled(b, now);
            && (r.0 <==> n <= refilled.tokens)
            && r.1.tokens == (if r.0 then refilled.tokens - n else refilled.tokens)
            && r.1.maxTokens == b.maxTokens && r.1.rps == b.rps
            && r.1.lastRefill == refilled.lastRefill
    ensures WellFormed(b) ==> WellFormed(r.1)
    ensures Bounded(b) && 0 <= n ==> Bounded(r.1)
  {
    var refilled := Refilled(b, now);
    if refilled.tokens >= n then (true, Taken(refilled, n)) else (false, refilled)
  }

  /** Capacity 5 at 5 tokens per second: five single takes succeed at once,
      a sixth fails, and one second later a take succeeds again. */
  lemma BurstThenRefill()
    ensures var b0 := Initial(5.0, Some(5));
            var r1 := TryTake(b0, 1, 0.0);
            var r2 := TryTake(r1.1, 1, 0.0);
            var r3 := TryTake(r2.1, 1, 0.0);
            var r4 := TryTake(r3.1, 1, 0.0);
            var r5 := TryTake(r4.1, 1, 0.0);
            var r6 := TryTake(r5.1, 1, 0.0);
            var r7 := TryTake(r6.1, 1, 1.0);
            r1.0 && r2.0 && r3.0 && r4.0 && r5.0 && !r6.0 && r7.0
  {
    var b0 := Initial(5.0, Some(5));
    assert b0 == Bucket(5, 5, 5.0, None);
    assert TryTake(b0, 1, 0.0) == (true, Bucket(4, 5, 5.0, Some(0.0)));
    TakeWithoutDelay(Bucket(4, 5, 5.0, Some(0.0)), 1, 0.0);
    TakeWithoutDelay(Bucket(3, 5, 5.0, Some(0.0)), 1, 0.0);
    TakeWithoutDelay(Bucket(2, 5, 5.0, Some(0.0)), 1, 0.0);
    TakeWithoutDelay(Bucket(1, 5, 5.0, Some(0.0)), 1, 0.0);
    TakeWithoutDelay(Bucket(0, 5, 5.0, Some(0.0)), 1, 0.0);
    OneSecondRefills();
  }

  lemma OneSecondRefills()
    ensures Refilled(Bucket(0, 5, 5.0, Some(0.0)), 1.0) == Bucket(5, 5, 5.0, Some(1.0))
  {
    assert Earned(0.0, 1.0, 5.0) == 5.0;
    assert (5.0).Floor == 5;
  }

  /** With no time passed since the last committed refill, a take sees
      exactly the tokens there are. */
  lemma TakeWithoutDelay(b: Bucket, n: int, now: real)
    requires b.lastRefill == Some(now)
    ensures TryTake(b, n, now) == (n <= b.tokens, if n <= b.tokens then b.(tokens := b.tokens - n) else b)
  {
    assert Earned(now, now, b.rps) == 0.0;
    assert Refilled(b, now) == b;
  }

  /** The fraction of the capacity in use, in percent; absent when the
      capacity is zero, where the source divides by zero. */
  function Utilization(b: Bucket): (u: Option<real>)
    ensures u.None? <==> b.maxTokens == 0
    ensures u.Some? ==> u.value * b.maxTokens as real == (b.maxTokens - b.tokens) as real * 100.0
    ensures u.Some? && WellFormed(b) && Bounded(b) ==> 0.0 <= u.value <= 100.0
  {
    if b.maxTokens == 0 then None
    else
      var m := b.maxTokens as real;
      var used := (b.maxTokens - b.tokens) as real;
      assert WellFormed(b) && Bounded(b) ==> used <= m * 1.0 && 0.0 <= used;
      Some(used / m * 100.0)
  }

  /** What `get_stats` reports. */
  datatype LimiterStats = LimiterStats(
    requestsPerSecond: real,
    maxTokens: int,
    currentTokens: int,
    lastRefill: Option<real>,
    utilizationPercent: Option<real>)

  class RateLimiter {
    var tokens: int
    var maxTokens: int
    var rps: real
    var lastRefill: Option<real>

    function State(): Bucket
      reads this
    {
      Bucket(tokens, maxTokens, rps, lastRefill)
    }

    predicate Valid()
      reads this
    {
      WellFormed(State())
    }

    constructor (requestsPerSecond: real, burstCapacity: Option<int>)
      requires requestsPerSecond > 0.0
      requires burstCapacity.Some? ==> burstCapacity.value >= 0
      ensures Valid() && Bounded(State())
      ensures State() == Initial(requestsPerSecond, burstCapacity)
    {
      rps := requestsPerSecond;
      maxTokens := Capacity(requestsPerSecond, burstCapacity);
      tokens := maxTokens;
      lastRefill := None;
    }

    method RefillTokens(now: real)
      requires Valid()
      modifies this
      ensures Valid()
      ensures State() == Refilled(old(State()), now)
    {
      match lastRefill
      case None =>
        lastRefill := Some(now);
      case Some(last) =>
        var elapsed := now - last;
        var toAdd := elapsed * rps;
        if toAdd >= 1.0 {
          tokens := Min(maxTokens, tokens + toAdd.Floor);
          lastRefill := Some(now);
        }
    }

    /** Blocks (sleeping on the caller's clock) until `n` tokens are there,
        then takes them; returns the clock reading when it returns. */
    method Acquire(n: int, now: real) returns (t: real)
      requires Valid() && (n <= maxTokens || n <= tokens) && NotBefore(State(), now)
      modifies this
      ensures Valid() && NotBefore(State(), t)
      ensures (State(), t) == Acquired(old(State()), n, now)
    {
      t := now;
      while tokens < n
        invariant Valid() && (n <= maxTokens || n <= tokens) && NotBefore(State(), t)
        invariant Settle(State(), n, t) == Settle(old(State()), n, now)
        decreases Pending(State(), n)
      {
        WaitThenRefill(State(), n, t);
        var tokensNeeded := n - tokens;
        var waitTime := tokensNeeded as real / rps;
        t := t + waitTime;
        RefillTokens(t);
      }
      tokens := tokens - n;
    }

    method TryAcquire(n: int, now: real) returns (ok: bool)
      requires Valid()
      modifies this
      ensures Valid()
      ensures (ok, State()) == TryTake(old(State()), n, now)
    {
      RefillTokens(now);
      if tokens >= n {
        tokens := tokens - n;
        ok := true;
      } else {
        ok := false;
      }
    }

    method GetAvailableTokens(now: real) returns (available: int)
      requires Valid()
      modifies this
      ensures Valid()
      ensures State() == Refilled(old(State()), now)
      ensures available == tokens
    {
      RefillTokens(now);
      available := tokens;
    }

    method GetWaitTime(n: int, now: real) returns (w: real)
      requires Valid()
      modifies this
      ensures Valid()
      ensures State() == Refilled(old(State()), now)
      ensures w == WaitTime(State(), n)
    {
      RefillTokens(now);
      if tokens >= n {
        w := 0.0;
      } else {
        var tokensNeeded := n - tokens;
        w := tokensNeeded as real / rps;
      }
    }

    method Reset(now: real)
      requires Valid()
      modifies this
      ensures Valid() && Bounded(State())
      ensures State() == old(State()).(tokens := old(maxTokens), lastRefill := Some(now))
    {
      tokens := maxTokens;
      lastRefill := Some(now);
    }

    /** Used by the adaptive limiter when it changes the rate. */
    method SetRate(rate: real)
      requires Valid() && rate > 0.0
      modifies this
      ensures Valid()
      ensures State() == old(State()).(rps := rate, maxTokens := rate.Floor)
    {
      rps := rate;
      maxTokens := rate.Floor;
    }

    function GetStats(): (s: LimiterStats)
      reads this
      ensures s.currentTokens == tokens && s.maxTokens == maxTokens
      ensures s.requestsPerSecond == rps && s.lastRefill == lastRefill
      ensures s.utilizationPercent.None? <==> maxTokens == 0
      ensures Valid() && Bounded(State()) && s.utilizationPercent.Some? ==>
                0.0 <= s.utilizationPercent.value <= 100.0
    {
      LimiterStats(rps, maxTokens, tokens, lastRefill, Utilization(State()))
    }
  }

  // ---------------------------------------------------------------------
  // Adaptive variant

  /** How many recent responses the adaptive limiter remembers. */
  const MaxHistory: nat := 100

  datatype Sample = Sample(timestamp: real, statusCode: int, responseTime: real, isError: bool)

  /** The last `MaxHistory` samples of `h`. */
  function Window(h: seq<Sample>): (w: seq<Sample>)
    ensures |w| == if |h| <= MaxHistory then |h| else MaxHistory
    ensures w == h[|h| - |w|..]
  {
    if |h| <= MaxHistory then h else h[|h| - MaxHistory..]
  }

  /** The history after one `record_response`: append, then drop the oldest
      sample once when over the limit. */
  function Recorded(h: seq<Sample>, s: Sample): seq<Sample> {
    var h' := h + [s];
    if |h'| > MaxHistory then h'[1..] else h'
  }

  /** The history after recording `ss` one by one. */
  function Replay(h: seq<Sample>, ss: seq<Sample>): seq<Sample>
    decreases |ss|
  {
    if ss == [] then h else Replay(Recorded(h, ss[0]), ss[1..])
  }

  lemma WindowOfWindow(x: seq<Sample>, y: seq<Sample>)
    ensures Window(Window(x) + y) == Window(x + y)
  {
    if |x| > MaxHistory {
      var wx := Window(x);
      var k := |x| - MaxHistory;
      assert x + y == x[..k] + (wx + y);
      var u := wx + y;
      var v := x + y;
      var w1 := Window(u);
      var w2 := Window(v);
      assert |w1| == |w2| == MaxHistory;
      forall i | 0 <= i < MaxHistory
        ensures w1[i] == w2[i]
      {
        assert w1[i] == u[|u| - MaxHistory + i];
        assert w2[i] == v[|v| - MaxHistory + i];
      }
    }
  }

  /** The history is a FIFO window: after recording any samples it holds the
      last `MaxHistory` of everything recorded, oldest dropped first. */
  lemma {:induction false} ReplayIsWindow(h: seq<Sample>, ss: seq<Sample>)
    requires |h| <= MaxHistory
    ensures Replay(h, ss) == Window(h + ss)
    decreases |ss|
  {
    if ss != [] {
      var h1 := Recorded(h, ss[0]);
      assert h1 == Window(h + [ss[0]]);
      ReplayIsWindow(h1, ss[1..]);
      WindowOfWindow(h + [ss[0]], ss[1..]);
      assert h + [ss[0]] + ss[1..] == h + ss;
    }
  }

  /** Which adjustment rule a response triggers; the first that applies wins. */
  datatype Adjustment = TooManyRequests | ErrorResponse | SlowResponse | FastSuccess | Unchanged

  function Classify(statusCode: int, responseTime: real, isError: bool): Adjustment {
    if statusCode == 429 then TooManyRequests
    else if isError then ErrorResponse
    else if responseTime > 5.0 then SlowResponse
    else if statusCode == 200 && responseTime < 1.0 then FastSuccess
    else Unchanged
  }

  /** The multiplier each rule applies to the rate. */
  function Multiplier(a: Adjustment, factor: real): real {
    match a
    case TooManyRequests => 1.0 - factor * 2.0
    case ErrorResponse => 1.0 - factor
    case SlowResponse => 1.0 - factor * 0.5
    case FastSuccess => 1.0 + factor * 0.2
    case Unchanged => 1.0
  }

  /** The rate scaled by a rule's multiplier. */
  function Scaled(rate: real, a: Adjustment, factor: real): real {
    rate * Multiplier(a, factor)
  }

  function MinReal(x: real, y: real): real { if x <= y then x else y }
  function MaxReal(x: real, y: real): real { if x >= y then x else y }

  /** `max(lo, min(hi, x))`. */
  function Clamp(x: real, lo: real, hi: real): (r: real)
    requires lo <= hi
    ensures lo <= r <= hi
    ensures lo <= x <= hi ==> r == x
    ensures x < lo ==> r == lo
    ensures hi < x ==> r == hi
  {
    MaxReal(lo, MinReal(hi, x))
  }

  datatype AdaptiveConfig = AdaptiveConfig(minRate: real, maxRate: real, factor: real)

  predicate ValidConfig(cfg: AdaptiveConfig) {
    0.0 < cfg.minRate < cfg.maxRate
  }

  /** `_adjust_rate`: the bucket after one response. The rate is multiplied
      by the first rule's multiplier and clamped to the configured range; only
      when it changes are the rate and the capacity (its whole part) updated.
      The token count is never touched. */
  function Adapted(b: Bucket, cfg: AdaptiveConfig, statusCode: int, responseTime: real, isError: bool): (r: Bucket)
    requires ValidConfig(cfg)
    ensures r.tokens == b.tokens && r.lastRefill == b.lastRefill
    ensures Classify(statusCode, responseTime, isError) == Unchanged ==> r == b
    ensures var a := Classify(statusCode, responseTime, isError);
            a != Unchanged ==> r.rps == Clamp(Scaled(b.rps, a, cfg.factor), cfg.minRate, cfg.maxRate)
    ensures Classify(statusCode, responseTime, isError) != Unchanged ==> cfg.minRate <= r.rps <= cfg.maxRate
    ensures r.rps == b.rps ==> r == b
    ensures r.rps != b.rps ==> r.maxTokens == r.rps.Floor
    ensures WellFormed(b) ==> WellFormed(r)
    ensures cfg.minRate <= b.rps <= cfg.maxRate ==> cfg.minRate <= r.rps <= cfg.maxRate
  {
    var a := Classify(statusCode, responseTime, isError);
    if a == Unchanged then b
    else
      var newRate := Clamp(Scaled(b.rps, a, cfg.factor), cfg.minRate, cfg.maxRate);
      if newRate != b.rps then b.(rps := newRate, maxTokens := newRate.Floor) else b
  }

  /** A 429 strictly lowers a rate that is above the minimum, never below it. */
  lemma TooManyRequestsLowersRate(b: Bucket, cfg: AdaptiveConfig, responseTime: real, isError: bool)
    requires ValidConfig(cfg) && 0.0 < cfg.factor
    requires cfg.minRate < b.rps <= cfg.maxRate
    ensures cfg.minRate <= Adapted(b, cfg, 429, responseTime, isError).rps < b.rps
  {
    var scaled := Scaled(b.rps, TooManyRequests, cfg.factor);
    assert scaled == b.rps - 2.0 * (b.rps * cfg.factor);
    assert b.rps * cfg.factor > 0.0;
    assert Clamp(scaled, cfg.minRate, cfg.maxRate) < b.rps;
  }

  /** The rule each response triggers and the rate it sets, in the order the
      rules are tried, written with the multipliers as the source writes them. */
  lemma AdaptedRules(b: Bucket, cfg: AdaptiveConfig, statusCode: int, responseTime: real, isError: bool)
    requires ValidConfig(cfg)
    ensures statusCode == 429 ==>
              Adapted(b, cfg, statusCode, responseTime, isError).rps
                == Clamp(b.rps * (1.0 - cfg.factor * 2.0), cfg.minRate, cfg.maxRate)
    ensures statusCode != 429 && isError ==>
              Adapted(b, cfg, statusCode, responseTime, isError).rps
                == Clamp(b.rps * (1.0 - cfg.factor), cfg.minRate, cfg.maxRate)
    ensures statusCode != 429 && !isError && responseTime > 5.0 ==>
              Adapted(b, cfg, statusCode, responseTime, isError).rps
                == Clamp(b.rps * (1.0 - cfg.factor * 0.5), cfg.minRate, cfg.maxRate)
    ensures statusCode == 200 && !isError && responseTime < 1.0 ==>
              Adapted(b, cfg, statusCode, responseTime, isError).rps
                == Clamp(b.rps * (1.0 + cfg.factor * 0.2), cfg.minRate, cfg.maxRate)
    ensures statusCode != 429 && !isError && responseTime <= 5.0 && !(statusCode == 200 && responseTime < 1.0) ==>
              Adapted(b, cfg, statusCode, responseTime, isError) == b
  {
    var a := Classify(statusCode, responseTime, isError);
    var x := Scaled(b.rps, a, cfg.factor);
    if statusCode == 429 {
      assert a == TooManyRequests;
      assert x == b.rps * (1.0 - cfg.factor * 2.0);
    } else if isError {
      assert a == ErrorResponse;
      assert x == b.rps * (1.0 - cfg.factor);
    } else if responseTime > 5.0 {
      assert a == SlowResponse;
      assert x == b.rps * (1.0 - cfg.factor * 0.5);
    } else if statusCode == 200 && responseTime < 1.0 {
      assert a == FastSuccess;
      assert x == b.rps * (1.0 + cfg.factor * 0.2);
    } else {
      assert a == Unchanged;
    }
  }

  /** An error response other than a 429 strictly lowers a rate that is
      above the minimum, never below it. */
  lemma ErrorResponseLowersRate(b: Bucket, cfg: AdaptiveConfig, statusCode: int, responseTime: real)
    requires ValidConfig(cfg) && 0.0 < cfg.factor
    requires cfg.minRate < b.rps <= cfg.maxRate && statusCode != 429
    ensures cfg.minRate <= Adapted(b, cfg, statusCode, responseTime, true).rps < b.rps
  {
    assert Classify(statusCode, responseTime, true) == ErrorResponse;
    var scaled := Scaled(b.rps, ErrorResponse, cfg.factor);
    assert scaled == b.rps - b.rps * cfg.factor;
    assert b.rps * cfg.factor > 0.0;
    assert Clamp(scaled, cfg.minRate, cfg.maxRate) < b.rps;
  }

  /** A slow response that is not an error strictly lowers a rate that is
      above the minimum, never below it. */
  lemma SlowResponseLowersRate(b: Bucket, cfg: AdaptiveConfig, statusCode: int, responseTime: real)
    requires ValidConfig(cfg) && 0.0 < cfg.factor
    requires cfg.minRate < b.rps <= cfg.maxRate && statusCode != 429 && responseTime > 5.0
    ensures cfg.minRate <= Adapted(b, cfg, statusCode, responseTime, false).rps < b.rps
  {
    assert Classify(statusCode, responseTime, false) == SlowResponse;
    var scaled := Scaled(b.rps, SlowResponse, cfg.factor);
    assert scaled == b.rps - 0.5 * (b.rps * cfg.factor);
    assert b.rps * cfg.factor > 0.0;
    assert Clamp(scaled, cfg.minRate, cfg.maxRate) < b.rps;
  }

  /** The rules are tried in order: a 429 takes the 429 multiplier whether or
      not it is also flagged an error, and an error takes the error multiplier
      however slow it was. With a positive factor the penalties are ordered:
      a 429 lowers the rate at least as far as an error, and an error at least
      as far as a slow response. */
  lemma {:induction false} RulesTriedInOrder(b: Bucket, cfg: AdaptiveConfig, statusCode: int, responseTime: real)
    requires ValidConfig(cfg) && 0.0 < cfg.factor && 0.0 < b.rps
    requires statusCode != 429 && responseTime > 5.0
    ensures Adapted(b, cfg, 429, responseTime, true) == Adapted(b, cfg, 429, responseTime, false)
    ensures Adapted(b, cfg, 429, responseTime, true).rps <= Adapted(b, cfg, statusCode, responseTime, true).rps
    ensures Adapted(b, cfg, statusCode, responseTime, true).rps <= Adapted(b, cfg, statusCode, responseTime, false).rps
  {
    assert Classify(429, responseTime, true) == Classify(429, responseTime, false) == TooManyRequests;
    assert Classify(statusCode, responseTime, true) == ErrorResponse;
    assert Classify(statusCode, responseTime, false) == SlowResponse;
    var p := b.rps * cfg.factor;
    assert p > 0.0;
    var s429, sErr, sSlow := Scaled(b.rps, TooManyRequests, cfg.factor), Scaled(b.rps, ErrorResponse, cfg.factor), Scaled(b.rps, SlowResponse, cfg.factor);
    assert s429 == b.rps - 2.0 * p;
    assert sErr == b.rps - p;
    assert sSlow == b.rps - 0.5 * p;
    ClampMonotone(s429, sErr, cfg.minRate, cfg.maxRate);
    ClampMonotone(sErr, sSlow, cfg.minRate, cfg.maxRate);
  }

  lemma ClampMonotone(x: real, y: real, lo: real, hi: real)
    requires lo <= hi && x <= y
    ensures Clamp(x, lo, hi) <= Clamp(y, lo, hi)
  {
  }

  /** A fast 200 strictly raises a rate that is below the maximum, never above it. */
  lemma FastSuccessRaisesRate(b: Bucket, cfg: AdaptiveConfig, responseTime: real)
    requires ValidConfig(cfg) && 0.0 < cfg.factor
    requires cfg.minRate <= b.rps < cfg.maxRate
    requires 0.0 <= responseTime < 1.0
    ensures b.rps < Adapted(b, cfg, 200, responseTime, false).rps <= cfg.maxRate
  {
    var scaled := Scaled(b.rps, FastSuccess, cfg.factor);
    assert scaled == b.rps + 0.2 * (b.rps * cfg.factor);
    assert b.rps * cfg.factor > 0.0;
    assert b.rps < Clamp(scaled, cfg.minRate, cfg.maxRate);
  }

  /** The adaptive limiter does not keep the capacity bound: a full bucket of
      10 at rate 10 that sees a 429 has capacity 8 and still 10 tokens. */
  lemma AdaptationBreaksCapacityBound()
    ensures var b := Initial(10.0, None);
            var r := Adapted(b, AdaptiveConfig(1.0, 100.0, 0.1), 429, 0.1, false);
            Bounded(b) && r.maxTokens == 8 && r.tokens == 10 && !Bounded(r)
  {
    assert (10.0).Floor == 10;
    assert 10.0 * (1.0 - 0.1 * 2.0) == 8.0;
    assert (8.0).Floor == 8;
  }

  /** The acquire loop checks the tokens before any refill, so a bucket left
      holding more than its capacity by a rate cut serves a request above the
      capacity at once: capacity 8 with 10 tokens gives 9 and keeps 1. */
  lemma OverfullBucketServesAtOnce()
    ensures var b := Adapted(Initial(10.0, None), AdaptiveConfig(1.0, 100.0, 0.1), 429, 0.1, false);
            b.maxTokens < 9 && Acquired(b, 9, 0.0) == (b.(tokens := 1), 0.0)
  {
    AdaptationBreaksCapacityBound();
  }

  /** Number of error samples. */
  function ErrorCount(h: seq<Sample>): (k: nat)
    ensures k <= |h|
  {
    if h == [] then 0 else (if h[0].isError then 1 else 0) + ErrorCount(h[1..])
  }

  function TotalResponseTime(h: seq<Sample>): real {
    if h == [] then 0.0 else h[0].responseTime + TotalResponseTime(h[1..])
  }

  datatype RecentStats = RecentStats(
    count: nat,
    errorCount: nat,
    errorRate: real,
    avgResponseTime: real,
    minRate: real,
    maxRate: real,
    factor: real)

  /** The part `get_adaptation_stats` adds to the limiter's statistics; only
      present once a response was recorded. */
  function Recent(h: seq<Sample>, cfg: AdaptiveConfig): (r: Option<RecentStats>)
    ensures r.None? <==> h == []
    ensures r.Some? ==> r.value.count == |h| && r.value.errorCount == ErrorCount(h) <= |h|
    ensures r.Some? ==> 0.0 <= r.value.errorRate <= 1.0
    ensures r.Some? ==> r.value.errorRate * |h| as real == ErrorCount(h) as real
    ensures r.Some? ==> r.value.avgResponseTime * |h| as real == TotalResponseTime(h)
  {
    if h == [] then None
    else
      var n := |h| as real;
      var e := ErrorCount(h);
      Share(e as real, n);
      Some(RecentStats(|h|, e, e as real / n, TotalResponseTime(h) / n,
                       cfg.minRate, cfg.maxRate, cfg.factor))
  }

  /** A part over a positive whole is a fraction between zero and one. */
  lemma Share(part: real, whole: real)
    requires 0.0 <= part <= whole && 0.0 < whole
    ensures 0.0 <= part / whole <= 1.0 && part / whole * whole == part
  {
    var q := part / whole;
    assert q * whole == part;
    assert q * whole <= 1.0 * whole;
  }

  datatype AdaptationStats = AdaptationStats(limiter: LimiterStats, recent: Option<RecentStats>)

  class AdaptiveRateLimiter {
    /** The token bucket this limiter adapts. */
    const bucket: RateLimiter
    const minRate: real
    const maxRate: real
    const factor: real
    var history: seq<Sample>

    function Config(): AdaptiveConfig {
      AdaptiveConfig(minRate, maxRate, factor)
    }

    predicate Valid()
      reads this, bucket
    {
      bucket.Valid() && ValidConfig(Config()) && |history| <= MaxHistory
    }

    constructor (initialRate: real, minRate: real, maxRate: real, factor: real)
      requires initialRate > 0.0 && 0.0 < minRate < maxRate
      ensures Valid() && fresh(bucket)
      ensures bucket.State() == Initial(initialRate, None)
      ensures Config() == AdaptiveConfig(minRate, maxRate, factor)
      ensures history == []
    {
      bucket := new RateLimiter(initialRate, None);
      this.minRate := minRate;
      this.maxRate := maxRate;
      this.factor := factor;
      history := [];
    }

    method RecordResponse(statusCode: int, responseTime: real, isError: bool, now: real)
      requires Valid()
      modifies this, bucket
      ensures Valid()
      ensures history == Recorded(old(history), Sample(now, statusCode, responseTime, isError))
      ensures history == Window(old(history) + [Sample(now, statusCode, responseTime, isError)])
      ensures bucket.State() == Adapted(old(bucket.State()), Config(), statusCode, responseTime, isError)
    {
      history := history + [Sample(now, statusCode, responseTime, isError)];
      if |history| > MaxHistory {
        history := history[1..];
      }
      AdjustRate(statusCode, responseTime, isError);
    }

    method AdjustRate(statusCode: int, responseTime: real, isError: bool)
      requires Valid()
      modifies bucket
      ensures Valid()
      ensures bucket.State() == Adapted(old(bucket.State()), Config(), statusCode, responseTime, isError)
    {
      ghost var before := bucket.State();
      var oldRate := bucket.rps;
      var rule := Classify(statusCode, responseTime, isError);
      if rule == Unchanged {
        return;
      }
      var newRate := Scaled(oldRate, rule, factor);
      newRate := MaxReal(minRate, MinReal(maxRate, newRate));
      if newRate != oldRate {
        bucket.SetRate(newRate);
        assert bucket.State() == before.(rps := newRate, maxTokens := newRate.Floor);
      }
    }

    function GetAdaptationStats(): (s: AdaptationStats)
      reads this, bucket
      ensures s.limiter == bucket.GetStats()
      ensures s.recent == Recent(history, Config())
      ensures s.recent.Some? ==> s.recent.value.errorCount <= s.recent.value.count == |history|
    {
      AdaptationStats(bucket.GetStats(), Recent(history, Config()))
    }
  }
}
