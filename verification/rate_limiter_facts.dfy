/**
 * Properties of the limiter across several calls: the closed form of the
 * backoff delay, the retry budget, spacing after a success, how a success
 * shows up in the sliding windows, and what the diagnostic snapshot reports.
 */
module RateLimiterFacts {
  import opened Wrappers
  import opened RateLimits
  import opened RateLimiter

  /** `d0 * m^n`, the delay after `n` uncapped growth steps. */
  function Grown(d0: real, m: real, n: nat): (r: real)
    ensures d0 >= 0.0 && m >= 1.0 ==> r >= d0
  {
    if n == 0 then d0
    else
      var p := Grown(d0, m, n - 1);
      assert d0 >= 0.0 && m >= 1.0 ==> p * m >= p by {
        if d0 >= 0.0 && m >= 1.0 { assert p * m - p == p * (m - 1.0); }
      }
      p * m
  }

  /** `n` failures with the same status recorded on one endpoint record at the same instant. */
  function FailRun(c: EndpointConfig, e: EndpointState, status: int, now: int, n: nat): Failure {
    if n == 0 then Failure(e, None)
    else Fail(c, FailRun(c, e, status, now, n - 1).endpoint, status, now)
  }

  /** `n` failures with the same status recorded one after another at the same instant. */
  function ErrorRun(cfg: LimiterConfig, s: Limiter, key: string, status: int, now: int, n: nat): ErrorReport {
    if n == 0 then ErrorReport(s, None)
    else RecordError(cfg, ErrorRun(cfg, s, key, status, now, n - 1).state, key, status, now)
  }

  /** Repeated failures of one endpoint act on its record alone. */
  lemma {:induction false} ErrorRunIsFailRun(cfg: LimiterConfig, s: Limiter, key: string, status: int, now: int, n: nat)
    requires key in cfg.endpoints && key in s.endpoints
    ensures var r := ErrorRun(cfg, s, key, status, now, n);
      var f := FailRun(cfg.endpoints[key], s.endpoints[key], status, now, n);
      key in r.state.endpoints && r.state.endpoints[key] == f.endpoint && r.canRetry == f.canRetry
  {
    if n > 0 {
      ErrorRunIsFailRun(cfg, s, key, status, now, n - 1);
    }
  }

  /** Capping before or after growing the delay gives the same delay. */
  lemma MinGrow(x: real, capped: real, m: real, cap: real)
    requires x >= 0.0 && m >= 1.0 && cap >= 0.0
    requires capped == Min(x, cap)
    ensures Min(capped * m, cap) == Min(x * m, cap)
  {
    if x > cap {
      assert cap * m >= cap by { assert cap * m - cap == cap * (m - 1.0); }
      assert x * m >= x by { assert x * m - x == x * (m - 1.0); }
    }
  }

  /** Each retryable failure spends one retry; the n-th answer is whether the budget still covers it. */
  lemma {:induction false} RetryBudget(c: EndpointConfig, e: EndpointState, status: int, now: int, n: nat)
    requires status in c.retryableErrors
    ensures var f := FailRun(c, e, status, now, n);
      && f.endpoint.retryCount == e.retryCount + n
      && (n > 0 ==> f.canRetry == Some(e.retryCount + n <= c.maxRetries && c.backoff.enabled))
  {
    if n > 0 {
      RetryBudget(c, e, status, now, n - 1);
    }
  }

  /**
   * With backoff enabled and the budget not yet spent, the delay after `n`
   * failures is `min(d0 * multiplier^n, maxDelay)`, and the n-th failure
   * backs off for `min(d0 * multiplier^(n-1), maxDelay)`.
   */
  lemma {:induction false} DelayClosedForm(c: EndpointConfig, e: EndpointState, status: int, now: int, n: nat)
    requires status in c.retryableErrors
    requires c.backoff.enabled && SaneBackoff(c.backoff)
    requires 0.0 <= e.currentDelayMs <= c.backoff.maxDelayMs
    requires e.retryCount + n <= c.maxRetries
    ensures var f := FailRun(c, e, status, now, n);
      var b := c.backoff;
      && f.endpoint.currentDelayMs == Min(Grown(e.currentDelayMs, b.multiplier, n), b.maxDelayMs)
      && (n > 0 ==>
            && f.canRetry == Some(true)
            && f.endpoint.isBackedOff
            && f.endpoint.backoffUntil == (now as real) + Min(Grown(e.currentDelayMs, b.multiplier, n - 1), b.maxDelayMs))
  {
    if n > 0 {
      DelayClosedForm(c, e, status, now, n - 1);
      RetryBudget(c, e, status, now, n - 1);
      DelayStep(c, FailRun(c, e, status, now, n - 1).endpoint, status, now, e.currentDelayMs, n);
    }
  }

  lemma GrownStep(d0: real, m: real, n: nat, g: real)
    requires n > 0 && g == Grown(d0, m, n - 1)
    ensures Grown(d0, m, n) == g * m
  {
  }

  /**
   * One failure within the budget, from a delay that is `d0 * m^(n-1)`
   * capped, backs off for that delay and grows it to `d0 * m^n` capped.
   */
  lemma DelayStep(c: EndpointConfig, e: EndpointState, status: int, now: int, d0: real, n: nat)
    requires status in c.retryableErrors
    requires c.backoff.enabled && SaneBackoff(c.backoff)
    requires e.retryCount + 1 <= c.maxRetries
    requires n > 0 && d0 >= 0.0
    requires e.currentDelayMs == Min(Grown(d0, c.backoff.multiplier, n - 1), c.backoff.maxDelayMs)
    ensures var f := Fail(c, e, status, now);
      && f.canRetry == Some(true)
      && f.endpoint.isBackedOff
      && f.endpoint.currentDelayMs == Min(Grown(d0, c.backoff.multiplier, n), c.backoff.maxDelayMs)
      && f.endpoint.backoffUntil == (now as real) + e.currentDelayMs
  {
    var m := c.backoff.multiplier;
    var cap := c.backoff.maxDelayMs;
    var g := Grown(d0, m, n - 1);
    var y := e.currentDelayMs;
    MinGrow(g, y, m, cap);
    GrownStep(d0, m, n, g);
    assert Min(y * m, cap) == Min(Grown(d0, m, n), cap);
  }

  /** The retry budget and the closed form, stated on the limiter. */
  lemma LimiterBackoffRun(cfg: LimiterConfig, s: Limiter, key: string, status: int, now: int, n: nat)
    requires key in cfg.endpoints && key in s.endpoints
    requires status in cfg.endpoints[key].retryableErrors
    requires cfg.endpoints[key].backoff.enabled && SaneBackoff(cfg.endpoints[key].backoff)
    requires 0.0 <= s.endpoints[key].currentDelayMs <= cfg.endpoints[key].backoff.maxDelayMs
    requires s.endpoints[key].retryCount == 0
    ensures var r := ErrorRun(cfg, s, key, status, now, n);
      var c := cfg.endpoints[key];
      && key in r.state.endpoints
      && (1 <= n <= c.maxRetries ==>
            && r.canRetry == Some(true)
            && r.state.endpoints[key].currentDelayMs
               == Min(Grown(s.endpoints[key].currentDelayMs, c.backoff.multiplier, n), c.backoff.maxDelayMs))
      && (n >= 1 && n > c.maxRetries ==> r.canRetry == Some(false))
  {
    var c := cfg.endpoints[key];
    ErrorRunIsFailRun(cfg, s, key, status, now, n);
    RetryBudget(c, s.endpoints[key], status, now, n);
    if n <= c.maxRetries {
      DelayClosedForm(c, s.endpoints[key], status, now, n);
    }
  }

  /** Backing off never waits longer than the policy's ceiling. */
  lemma BackoffWaitBounded(cfg: LimiterConfig, s: Limiter, key: string, status: int, now: int)
    requires key in cfg.endpoints && key in s.endpoints
    ensures var r := RecordError(cfg, s, key, status, now);
      r.canRetry == Some(true) ==>
        r.state.endpoints[key].backoffUntil <= (now as real) + cfg.endpoints[key].backoff.maxDelayMs
  {
  }

  /** A success restarts the spacing: asking again at the same instant is refused. */
  lemma SpacingAfterSuccess(cfg: LimiterConfig, s: Limiter, key: string, now: int, nextMidnight: int, nextMonthStart: int)
    requires key in cfg.endpoints && key in s.endpoints
    requires cfg.endpoints[key].minIntervalMs > 0
    ensures !CanMakeRequest(cfg, RecordSuccess(cfg, s, key, now, nextMidnight, nextMonthStart), key, now).allowed
  {
  }

  /**
   * A success at `t` is counted by the minute window of every later check
   * that still covers `t`, in addition to what the window held before.
   */
  lemma SuccessCountedInWindow(cfg: LimiterConfig, s: Limiter, key: string, t: int, later: int,
                               nextMidnight: int, nextMonthStart: int)
    requires key in cfg.endpoints && key in s.endpoints
    requires t <= later < t + MINUTE_MS
    ensures var e := s.endpoints[key];
      var e' := RecordSuccess(cfg, s, key, t, nextMidnight, nextMonthStart).endpoints[key];
      && |Prune(e'.perMinute, later - MINUTE_MS)| == |Prune(e.perMinute, later - MINUTE_MS)| + 1
      && |Prune(e'.perHour, later - HOUR_MS)| == |Prune(e.perHour, later - HOUR_MS)| + 1
  {
    var e := s.endpoints[key];
    PruneAppend(e.perMinute, t, later - MINUTE_MS);
    PruneAppend(e.perHour, t, later - HOUR_MS);
  }

  /**
   * The per-endpoint day count only ever grows: admission checks, quota
   * reports and failures leave it alone, and a success adds one.
   */
  lemma PerDayNeverResets(cfg: LimiterConfig, s: Limiter, key: string, status: int, now: int,
                          nextMidnight: int, nextMonthStart: int)
    requires key in cfg.endpoints && key in s.endpoints
    ensures CanMakeRequest(cfg, s, key, now).state.endpoints[key].perDay == s.endpoints[key].perDay
    ensures RecordError(cfg, s, key, status, now).state.endpoints[key].perDay == s.endpoints[key].perDay
    ensures GetQuotaInfo(cfg, s, now, nextMidnight, nextMonthStart).state.endpoints[key].perDay == s.endpoints[key].perDay
    ensures RecordSuccess(cfg, s, key, now, nextMidnight, nextMonthStart).endpoints[key].perDay
            == s.endpoints[key].perDay + 1
  {
  }

  /**
   * With the shipped limits, a rate-limited distance-matrix call on a fresh
   * limiter backs off for one second: refused at once, admitted again one
   * second later.
   */
  lemma DefaultBackoffScenario(t: int, nextMidnight: int, nextMonthStart: int)
    requires t >= 1000
    ensures var s := New(DEFAULT_LIMITS, nextMidnight, nextMonthStart);
      var r := RecordError(DEFAULT_LIMITS, s, DISTANCE_MATRIX, 429, t);
      && r.canRetry == Some(true)
      && !CanMakeRequest(DEFAULT_LIMITS, r.state, DISTANCE_MATRIX, t).allowed
      && !CanMakeRequest(DEFAULT_LIMITS, r.state, DISTANCE_MATRIX, t + 999).allowed
      && CanMakeRequest(DEFAULT_LIMITS, r.state, DISTANCE_MATRIX, t + 1000).allowed
  {
    var s := New(DEFAULT_LIMITS, nextMidnight, nextMonthStart);
    assert DISTANCE_MATRIX in RATE_LIMIT_CONFIG;
    assert 429 in RATE_LIMIT_CONFIG[DISTANCE_MATRIX].retryableErrors;
    var e := s.endpoints[DISTANCE_MATRIX];
    assert e.perMinute == [] && e.perHour == [];
  }

  /** The snapshot of `key` comes from the state before the first check of `key` and no other endpoint. */
  lemma StatusOfDependsOnOwnRecord(cfg: LimiterConfig, s: Limiter, s': Limiter, key: string, now: int)
    requires key in s.endpoints && key in s'.endpoints
    requires s.endpoints[key] == s'.endpoints[key]
    requires s.daily == s'.daily && s.monthly == s'.monthly
    ensures StatusOf(cfg, s, key, now).1 == StatusOf(cfg, s', key, now).1
  {
  }

  /**
   * The snapshot `getEndpointStatus` reports for a listed endpoint is the
   * one its own admission check gives on the original state: checking the
   * other endpoints first does not disturb it.
   */
  lemma {:induction false} StatusLoopFinds(cfg: LimiterConfig, s: Limiter, keys: seq<string>, key: string, now: int)
    requires key in keys && key in s.endpoints
    ensures FindStatus(StatusLoop(cfg, s, keys, now).statuses, key) == Some(StatusOf(cfg, s, key, now).1)
    decreases |keys|
  {
    assert keys[0] == key || key in keys[1..];
    if keys[0] == key {
    } else if keys[0] !in s.endpoints {
      StatusLoopFinds(cfg, s, keys[1..], key, now);
    } else {
      var (s1, st) := StatusOf(cfg, s, keys[0], now);
      StatusLoopFinds(cfg, s1, keys[1..], key, now);
      StatusOfDependsOnOwnRecord(cfg, s, s1, key, now);
    }
  }

  lemma EndpointStatusReportsOwnCheck(cfg: LimiterConfig, s: Limiter, key: string, now: int)
    requires key in cfg.keys && key in s.endpoints
    ensures FindStatus(GetEndpointStatus(cfg, s, now).statuses, key) == Some(StatusOf(cfg, s, key, now).1)
  {
    StatusLoopFinds(cfg, s, cfg.keys, key, now);
  }

  /** Two records agree on everything an admission check cannot change. */
  predicate SameCounters(a: EndpointState, b: EndpointState) {
    && a.name == b.name && a.lastRequestTime == b.lastRequestTime && a.perDay == b.perDay
    && a.errors == b.errors && a.backoffUntil == b.backoffUntil
    && a.retryCount == b.retryCount && a.currentDelayMs == b.currentDelayMs
  }

  /** Taking the diagnostic snapshot moves no counter, log or backoff cursor of any endpoint. */
  lemma {:induction false} StatusLoopKeepsCounters(cfg: LimiterConfig, s: Limiter, keys: seq<string>, now: int)
    ensures forall k :: k in s.endpoints ==> SameCounters(StatusLoop(cfg, s, keys, now).state.endpoints[k], s.endpoints[k])
    decreases |keys|
  {
    if keys == [] {
    } else if keys[0] !in s.endpoints {
      StatusLoopKeepsCounters(cfg, s, keys[1..], now);
    } else {
      var s1 := StatusOf(cfg, s, keys[0], now).0;
      assert forall k :: k in s.endpoints ==> SameCounters(s1.endpoints[k], s.endpoints[k]);
      StatusLoopKeepsCounters(cfg, s1, keys[1..], now);
    }
  }
}
