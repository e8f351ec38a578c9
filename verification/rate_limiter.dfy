/**
 * Per-endpoint admission control with sliding windows, a never-resetting
 * per-endpoint day count, a lazily rolled global daily/monthly quota, and
 * exponential backoff with a ceiling and a retry budget.
 *
 * The limiter is a value threaded through pure transitions. Every transition
 * takes the current instant `now` (milliseconds); the ones that may roll the
 * quota over also take the boundaries the calendar would compute at that
 * instant (`nextMidnight`, `nextMonthStart`).
 */
module RateLimiter {
  import opened Wrappers
  import opened RateLimits

  const MINUTE_MS: int := 60000
  const HOUR_MS: int := 3600000

  /** One recorded provider failure. */
  datatype ErrorEvent = ErrorEvent(timestamp: int, statusCode: int)

  /**
   * Live state of one endpoint. `retryCount` and `currentDelayMs` are the
   * backoff cursor, kept in a separate table by the original but always
   * created and reset together with the rest of this record.
   */
  datatype EndpointState = EndpointState(
    name: string,
    lastRequestTime: int,
    perMinute: seq<int>,
    perHour: seq<int>,
    perDay: nat,
    errors: seq<ErrorEvent>,
    isBackedOff: bool,
    backoffUntil: real,
    retryCount: nat,
    currentDelayMs: real)

  /** A global usage counter and the instant after which it rolls over. */
  datatype QuotaCounter = QuotaCounter(count: nat, resetTime: int)

  datatype Limiter = Limiter(
    endpoints: map<string, EndpointState>,
    daily: QuotaCounter,
    monthly: QuotaCounter)

  /** Result of an admission check: the (pruned) state and the verdict. */
  datatype Admission = Admission(state: Limiter, allowed: bool)

  /** Result of recording a failure: `canRetry` is None where the original returns `undefined`. */
  datatype ErrorReport = ErrorReport(state: Limiter, canRetry: Option<bool>)

  /** Usage of one quota window as reported to the UI. */
  datatype WindowInfo = WindowInfo(used: nat, limit: int, percentUsed: real, warning: bool, critical: bool)

  datatype QuotaInfo = QuotaInfo(daily: WindowInfo, monthly: WindowInfo)

  datatype QuotaReport = QuotaReport(state: Limiter, info: QuotaInfo)

  /** Diagnostic snapshot of one endpoint. */
  datatype EndpointStatus = EndpointStatus(
    key: string,
    name: string,
    canMakeRequest: bool,
    isBackedOff: bool,
    backoffUntilMs: real,
    requestsPerMinute: nat,
    requestsPerDay: nat,
    recentErrors: seq<ErrorEvent>)

  datatype StatusReport = StatusReport(state: Limiter, statuses: seq<EndpointStatus>)

  function Min(a: real, b: real): real {
    if a <= b then a else b
  }

  /** The instants of `ts` strictly after `cutoff`, in their original order. */
  function Prune(ts: seq<int>, cutoff: int): (r: seq<int>)
    ensures |r| <= |ts|
    ensures forall i :: 0 <= i < |r| ==> r[i] > cutoff
    ensures forall t :: multiset(r)[t] == if t > cutoff then multiset(ts)[t] else 0
  {
    if ts == [] then []
    else
      var rest := Prune(ts[1..], cutoff);
      assert ts == [ts[0]] + ts[1..];
      if ts[0] > cutoff then [ts[0]] + rest else rest
  }

  /** Pruning a window that is already pruned changes nothing. */
  lemma {:induction false} PruneIdempotent(ts: seq<int>, cutoff: int)
    ensures Prune(Prune(ts, cutoff), cutoff) == Prune(ts, cutoff)
  {
    if ts != [] {
      PruneIdempotent(ts[1..], cutoff);
    }
  }

  /** A request recorded inside the window is counted by the window. */
  lemma {:induction false} PruneAppend(ts: seq<int>, t: int, cutoff: int)
    ensures Prune(ts + [t], cutoff) == Prune(ts, cutoff) + (if t > cutoff then [t] else [])
  {
    if ts == [] {
      assert ts + [t] == [t];
    } else {
      assert (ts + [t])[1..] == ts[1..] + [t];
      PruneAppend(ts[1..], t, cutoff);
    }
  }

  /** A window of instants no later than `now` loses nothing when pruned at an earlier cutoff. */
  lemma {:induction false} PruneKeepsRecent(ts: seq<int>, cutoff: int)
    requires forall i :: 0 <= i < |ts| ==> ts[i] > cutoff
    ensures Prune(ts, cutoff) == ts
  {
    if ts != [] {
      PruneKeepsRecent(ts[1..], cutoff);
      assert ts == [ts[0]] + ts[1..];
    }
  }

  // ---------------------------------------------------------------- construction

  /** State of an endpoint that has never been used. */
  function FreshEndpoint(c: EndpointConfig): EndpointState {
    EndpointState(c.name, 0, [], [], 0, [], false, 0.0, 0, c.backoff.initialDelayMs)
  }

  /** Endpoint table created by `init`: one fresh record per configured endpoint. */
  function InitEndpoints(cfg: LimiterConfig): (m: map<string, EndpointState>)
    ensures m.Keys == cfg.endpoints.Keys
    ensures forall k :: k in m ==> m[k] == FreshEndpoint(cfg.endpoints[k])
  {
    map k | k in cfg.endpoints :: FreshEndpoint(cfg.endpoints[k])
  }

  /** A freshly constructed limiter: zero usage, reset boundaries as the clock gives them. */
  function New(cfg: LimiterConfig, nextMidnight: int, nextMonthStart: int): (s: Limiter)
    ensures s.endpoints.Keys == cfg.endpoints.Keys
    ensures s.daily == QuotaCounter(0, nextMidnight) && s.monthly == QuotaCounter(0, nextMonthStart)
    ensures forall k :: k in s.endpoints ==>
      && s.endpoints[k].perMinute == [] && s.endpoints[k].perHour == [] && s.endpoints[k].perDay == 0
      && !s.endpoints[k].isBackedOff && s.endpoints[k].retryCount == 0
      && s.endpoints[k].currentDelayMs == cfg.endpoints[k].backoff.initialDelayMs
  {
    Limiter(InitEndpoints(cfg), QuotaCounter(0, nextMidnight), QuotaCounter(0, nextMonthStart))
  }

  /** `reset`: endpoints and backoff cursors start over, the global quota is kept. */
  function Reset(cfg: LimiterConfig, s: Limiter): (r: Limiter)
    ensures r.daily == s.daily && r.monthly == s.monthly
    ensures r.endpoints.Keys == cfg.endpoints.Keys
    ensures forall k :: k in r.endpoints ==>
      && r.endpoints[k].perMinute == [] && r.endpoints[k].perHour == [] && r.endpoints[k].perDay == 0
      && r.endpoints[k].errors == [] && !r.endpoints[k].isBackedOff && r.endpoints[k].retryCount == 0
      && r.endpoints[k].currentDelayMs == cfg.endpoints[k].backoff.initialDelayMs
  {
    s.(endpoints := InitEndpoints(cfg))
  }

  /** The limiter knows the endpoints the configuration names, and no others. */
  predicate Valid(cfg: LimiterConfig, s: Limiter) {
    s.endpoints.Keys == cfg.endpoints.Keys
  }

  function Put(s: Limiter, key: string, e: EndpointState): Limiter {
    s.(endpoints := s.endpoints[key := e])
  }

  // ---------------------------------------------------------------- admission

  /** The backoff gate is closed: backed off and the instant has not been reached. */
  predicate BackoffActive(e: EndpointState, now: int) {
    e.isBackedOff && (now as real) < e.backoffUntil
  }

  /**
   * The seven admission conditions as one conjunction, evaluated on the state
   * before the check: backoff gate, spacing, minute and hour windows (counting
   * only instants inside them), per-endpoint day count, global daily and
   * monthly quota.
   */
  predicate Admissible(c: EndpointConfig, q: GlobalQuota, e: EndpointState, daily: nat, monthly: nat, now: int) {
    && !BackoffActive(e, now)
    && now - e.lastRequestTime >= c.minIntervalMs
    && |Prune(e.perMinute, now - MINUTE_MS)| < c.requestsPerMinute
    && |Prune(e.perHour, now - HOUR_MS)| < c.requestsPerHour
    && e.perDay < c.requestsPerDay
    && daily < q.dailyRequests
    && monthly < q.monthlyRequests
  }

  /** The admission check of one endpoint record: its updated record and the verdict. */
  function Admit(c: EndpointConfig, q: GlobalQuota, e: EndpointState, daily: nat, monthly: nat, now: int)
    : (r: (EndpointState, bool))
    ensures r.1 <==> Admissible(c, q, e, daily, monthly, now)
    // the check changes nothing but the backoff flag and the two windows
    ensures r.0 == e.(isBackedOff := r.0.isBackedOff, perMinute := r.0.perMinute, perHour := r.0.perHour)
    ensures BackoffActive(e, now) ==> r.0 == e
    ensures !BackoffActive(e, now) ==> !r.0.isBackedOff
    ensures r.0.isBackedOff ==> (now as real) < r.0.backoffUntil
    ensures r.0.perMinute == e.perMinute || r.0.perMinute == Prune(e.perMinute, now - MINUTE_MS)
    ensures r.0.perHour == e.perHour || r.0.perHour == Prune(e.perHour, now - HOUR_MS)
    // a window is pruned exactly when the check reaches it
    ensures !BackoffActive(e, now) && now - e.lastRequestTime >= c.minIntervalMs ==>
      r.0.perMinute == Prune(e.perMinute, now - MINUTE_MS)
    ensures (!BackoffActive(e, now) && now - e.lastRequestTime >= c.minIntervalMs
             && |Prune(e.perMinute, now - MINUTE_MS)| < c.requestsPerMinute) ==>
      r.0.perHour == Prune(e.perHour, now - HOUR_MS)
  {
    if BackoffActive(e, now) then (e, false)
    else
      var e1 := e.(isBackedOff := false);
      if now - e1.lastRequestTime < c.minIntervalMs then (e1, false)
      else
        var e2 := e1.(perMinute := Prune(e1.perMinute, now - MINUTE_MS));
        if |e2.perMinute| >= c.requestsPerMinute then (e2, false)
        else
          var e3 := e2.(perHour := Prune(e2.perHour, now - HOUR_MS));
          if |e3.perHour| >= c.requestsPerHour then (e3, false)
          else if e3.perDay >= c.requestsPerDay then (e3, false)
          else if daily >= q.dailyRequests then (e3, false)
          else if monthly >= q.monthlyRequests then (e3, false)
          else (e3, true)
  }

  /** `canMakeRequest(key)`. */
  function CanMakeRequest(cfg: LimiterConfig, s: Limiter, key: string, now: int): (r: Admission)
    ensures key !in cfg.endpoints || key !in s.endpoints ==> r == Admission(s, false)
    ensures r.allowed <==> (key in cfg.endpoints && key in s.endpoints
      && Admissible(cfg.endpoints[key], cfg.quota, s.endpoints[key], s.daily.count, s.monthly.count, now))
    ensures r.state.daily == s.daily && r.state.monthly == s.monthly
    ensures r.state.endpoints.Keys == s.endpoints.Keys
    ensures forall k :: k in s.endpoints && k != key ==> r.state.endpoints[k] == s.endpoints[k]
  {
    if key !in cfg.endpoints || key !in s.endpoints then Admission(s, false)
    else
      var a := Admit(cfg.endpoints[key], cfg.quota, s.endpoints[key], s.daily.count, s.monthly.count, now);
      Admission(Put(s, key, a.0), a.1)
  }

  /** Checking twice at the same instant gives the same verdict and the same state as checking once. */
  lemma CanMakeRequestIdempotent(cfg: LimiterConfig, s: Limiter, key: string, now: int)
    ensures var r1 := CanMakeRequest(cfg, s, key, now);
      CanMakeRequest(cfg, r1.state, key, now) == r1
  {
    if key in cfg.endpoints && key in s.endpoints {
      var e := s.endpoints[key];
      PruneIdempotent(e.perMinute, now - MINUTE_MS);
      PruneIdempotent(e.perHour, now - HOUR_MS);
      var r1 := CanMakeRequest(cfg, s, key, now);
      assert r1.state.endpoints == s.endpoints[key := r1.state.endpoints[key]];
    }
  }

  // ---------------------------------------------------------------- quota rollover

  /** Lazy rollover of one counter: reset only once `now` is strictly past the boundary. */
  function Rollover(q: QuotaCounter, now: int, next: int): (r: QuotaCounter)
    ensures now > q.resetTime ==> r.count == 0 && r.resetTime == next
    ensures now <= q.resetTime ==> r == q
  {
    if now > q.resetTime then QuotaCounter(0, next) else q
  }

  /** Usage of one window, with the threshold flags computed from the percentage. */
  function Window(used: nat, limit: Pos, q: GlobalQuota): (w: WindowInfo)
    ensures w.used == used && w.limit == limit
    ensures w.percentUsed * (limit as real) == (used as real) * 100.0
    ensures w.warning <==> (used as real) * 100.0 > q.warningThresholdPercent * (limit as real)
    ensures w.critical <==> (used as real) * 100.0 > q.criticalThresholdPercent * (limit as real)
  {
    var percent := (used as real) / (limit as real) * 100.0;
    PercentAbove(used, limit, q.warningThresholdPercent);
    PercentAbove(used, limit, q.criticalThresholdPercent);
    WindowInfo(used, limit, percent, percent > q.warningThresholdPercent, percent > q.criticalThresholdPercent)
  }

  lemma PercentAbove(used: nat, limit: Pos, threshold: real)
    ensures (used as real) / (limit as real) * 100.0 > threshold
      <==> (used as real) * 100.0 > threshold * (limit as real)
  {
    var l := limit as real;
    var p := (used as real) / l * 100.0;
    assert p * l == (used as real) * 100.0;
    if p > threshold {
      assert p * l > threshold * l;
    } else {
      assert p * l <= threshold * l;
    }
  }

  /** `getQuotaInfo`: roll both counters over if due, then report usage. */
  function GetQuotaInfo(cfg: LimiterConfig, s: Limiter, now: int, nextMidnight: int, nextMonthStart: int)
    : (r: QuotaReport)
    ensures r.state.endpoints == s.endpoints
    ensures now > s.daily.resetTime ==> r.state.daily == QuotaCounter(0, nextMidnight)
    ensures now <= s.daily.resetTime ==> r.state.daily == s.daily
    ensures now > s.monthly.resetTime ==> r.state.monthly == QuotaCounter(0, nextMonthStart)
    ensures now <= s.monthly.resetTime ==> r.state.monthly == s.monthly
    ensures r.info.daily.used == r.state.daily.count && r.info.daily.limit == cfg.quota.dailyRequests
    ensures r.info.monthly.used == r.state.monthly.count && r.info.monthly.limit == cfg.quota.monthlyRequests
    ensures r.info.daily.critical <==>
      (r.state.daily.count as real) * 100.0 > cfg.quota.criticalThresholdPercent * (cfg.quota.dailyRequests as real)
    ensures r.info.monthly.critical <==>
      (r.state.monthly.count as real) * 100.0 > cfg.quota.criticalThresholdPercent * (cfg.quota.monthlyRequests as real)
    ensures r.info.daily.warning <==>
      (r.state.daily.count as real) * 100.0 > cfg.quota.warningThresholdPercent * (cfg.quota.dailyRequests as real)
    ensures r.info.monthly.warning <==>
      (r.state.monthly.count as real) * 100.0 > cfg.quota.warningThresholdPercent * (cfg.quota.monthlyRequests as real)
    // each window is reported with its percentage and both flags as Window states them
    ensures r.info.daily == Window(r.state.daily.count, cfg.quota.dailyRequests, cfg.quota)
    ensures r.info.monthly == Window(r.state.monthly.count, cfg.quota.monthlyRequests, cfg.quota)
  {
    var s1 := s.(daily := Rollover(s.daily, now, nextMidnight), monthly := Rollover(s.monthly, now, nextMonthStart));
    QuotaReport(s1, QuotaInfo(
      Window(s1.daily.count, cfg.quota.dailyRequests, cfg.quota),
      Window(s1.monthly.count, cfg.quota.monthlyRequests, cfg.quota)))
  }

  // ---------------------------------------------------------------- outcomes

  /**
   * `recordSuccess(key)`: count the request in both windows, the per-endpoint
   * day count and the global quota, restart the spacing and the backoff
   * cursor, then roll the quota over as the threshold check does.
   */
  function RecordSuccess(cfg: LimiterConfig, s: Limiter, key: string, now: int, nextMidnight: int, nextMonthStart: int)
    : (r: Limiter)
    ensures key !in s.endpoints || key !in cfg.endpoints ==> r == s
    ensures key in s.endpoints && key in cfg.endpoints ==>
      var e := s.endpoints[key];
      && key in r.endpoints
      && r.endpoints[key] == e.(
           lastRequestTime := now,
           perMinute := e.perMinute + [now],
           perHour := e.perHour + [now],
           perDay := e.perDay + 1,
           retryCount := 0,
           currentDelayMs := cfg.endpoints[key].backoff.initialDelayMs)
      && (now <= s.daily.resetTime ==> r.daily == s.daily.(count := s.daily.count + 1))
      && (now > s.daily.resetTime ==> r.daily == QuotaCounter(0, nextMidnight))
      && (now <= s.monthly.resetTime ==> r.monthly == s.monthly.(count := s.monthly.count + 1))
      && (now > s.monthly.resetTime ==> r.monthly == QuotaCounter(0, nextMonthStart))
    ensures r.endpoints.Keys == s.endpoints.Keys
    ensures forall k :: k in s.endpoints && k != key ==> r.endpoints[k] == s.endpoints[k]
  {
    if key !in s.endpoints || key !in cfg.endpoints then s
    else
      var e := s.endpoints[key];
      var e' := e.(
        lastRequestTime := now,
        perMinute := e.perMinute + [now],
        perHour := e.perHour + [now],
        perDay := e.perDay + 1,
        retryCount := 0,
        currentDelayMs := cfg.endpoints[key].backoff.initialDelayMs);
      var counted := Put(s, key, e').(
        daily := s.daily.(count := s.daily.count + 1),
        monthly := s.monthly.(count := s.monthly.count + 1));
      GetQuotaInfo(cfg, counted, now, nextMidnight, nextMonthStart).state
  }

  /** Result of a failure on one endpoint record. */
  datatype Failure = Failure(endpoint: EndpointState, canRetry: Option<bool>)

  /**
   * A failure on one endpoint record: log it; for a retryable status spend
   * one retry and, while the budget lasts and backoff is enabled, back off
   * for the current delay (capped) and grow the delay for the next failure.
   */
  function Fail(c: EndpointConfig, e: EndpointState, status: int, now: int): (r: Failure)
    // the failure is always logged; spacing, windows and day count never move
    ensures r.endpoint.errors == e.errors + [ErrorEvent(now, status)]
    ensures r.endpoint.lastRequestTime == e.lastRequestTime && r.endpoint.name == e.name
    ensures r.endpoint.perMinute == e.perMinute && r.endpoint.perHour == e.perHour && r.endpoint.perDay == e.perDay
    // a status outside the retryable set touches nothing else
    ensures status !in c.retryableErrors ==> r.canRetry == None && r.endpoint == e.(errors := r.endpoint.errors)
    ensures status in c.retryableErrors ==>
      && r.endpoint.retryCount == e.retryCount + 1
      && (r.canRetry == Some(true) <==> e.retryCount + 1 <= c.maxRetries && c.backoff.enabled)
      && (r.canRetry != Some(true) ==>
            r.canRetry == Some(false) && r.endpoint == e.(errors := r.endpoint.errors, retryCount := r.endpoint.retryCount))
    ensures r.canRetry == Some(true) ==>
      && r.endpoint.isBackedOff
      && r.endpoint.backoffUntil == (now as real) + Min(e.currentDelayMs, c.backoff.maxDelayMs)
      && r.endpoint.currentDelayMs == Min(e.currentDelayMs * c.backoff.multiplier, c.backoff.maxDelayMs)
  {
    var e1 := e.(errors := e.errors + [ErrorEvent(now, status)]);
    if status !in c.retryableErrors then Failure(e1, None)
    else
      var e2 := e1.(retryCount := e1.retryCount + 1);
      if e2.retryCount > c.maxRetries then Failure(e2, Some(false))
      else if !c.backoff.enabled then Failure(e2, Some(false))
      else
        var delay := Min(e2.currentDelayMs, c.backoff.maxDelayMs);
        Failure(e2.(
          isBackedOff := true,
          backoffUntil := (now as real) + delay,
          currentDelayMs := Min(e2.currentDelayMs * c.backoff.multiplier, c.backoff.maxDelayMs)), Some(true))
  }

  /** `recordError(key, status)`: the failure lands on the named endpoint's record only. */
  function RecordError(cfg: LimiterConfig, s: Limiter, key: string, status: int, now: int): (r: ErrorReport)
    ensures key !in cfg.endpoints || key !in s.endpoints ==> r == ErrorReport(s, None)
    ensures r.state.daily == s.daily && r.state.monthly == s.monthly
    ensures r.state.endpoints.Keys == s.endpoints.Keys
    ensures forall k :: k in s.endpoints && k != key ==> r.state.endpoints[k] == s.endpoints[k]
    ensures key in cfg.endpoints && key in s.endpoints ==>
      var f := Fail(cfg.endpoints[key], s.endpoints[key], status, now);
      r.state.endpoints[key] == f.endpoint && r.canRetry == f.canRetry
  {
    if key !in cfg.endpoints || key !in s.endpoints then ErrorReport(s, None)
    else
      var f := Fail(cfg.endpoints[key], s.endpoints[key], status, now);
      ErrorReport(Put(s, key, f.endpoint), f.canRetry)
  }

  // ---------------------------------------------------------------- diagnostics

  /** The last (at most) five entries of an error log. */
  function RecentErrors(errors: seq<ErrorEvent>): (r: seq<ErrorEvent>)
    ensures |r| == if |errors| < 5 then |errors| else 5
    ensures r == errors[|errors| - |r|..]
  {
    if |errors| <= 5 then errors else errors[|errors| - 5..]
  }

  /** The snapshot of one endpoint, taken after its own admission check. */
  function StatusOf(cfg: LimiterConfig, s: Limiter, key: string, now: int): (r: (Limiter, EndpointStatus))
    requires key in s.endpoints
    ensures r.0 == CanMakeRequest(cfg, s, key, now).state
    ensures r.1.key == key && r.1.canMakeRequest == CanMakeRequest(cfg, s, key, now).allowed
    ensures key in cfg.endpoints ==>
      r.1.isBackedOff == BackoffActive(s.endpoints[key], now)
    ensures r.1.backoffUntilMs == s.endpoints[key].backoffUntil - (now as real)
  {
    var a := CanMakeRequest(cfg, s, key, now);
    var e := a.state.endpoints[key];
    (a.state, EndpointStatus(key, e.name, a.allowed, e.isBackedOff, e.backoffUntil - (now as real),
                             |e.perMinute|, e.perDay, RecentErrors(e.errors)))
  }

  /** Snapshots of the endpoints named in `keys`, each check seeing the state the previous left. */
  function StatusLoop(cfg: LimiterConfig, s: Limiter, keys: seq<string>, now: int): (r: StatusReport)
    ensures r.state.endpoints.Keys == s.endpoints.Keys
    ensures r.state.daily == s.daily && r.state.monthly == s.monthly
    ensures forall k :: k in s.endpoints && k !in keys ==> r.state.endpoints[k] == s.endpoints[k]
    ensures forall i :: 0 <= i < |r.statuses| ==> r.statuses[i].key in keys && r.statuses[i].key in s.endpoints
    decreases |keys|
  {
    if keys == [] then StatusReport(s, [])
    else if keys[0] !in s.endpoints then StatusLoop(cfg, s, keys[1..], now)
    else
      var (s1, st) := StatusOf(cfg, s, keys[0], now);
      var rest := StatusLoop(cfg, s1, keys[1..], now);
      StatusReport(rest.state, [st] + rest.statuses)
  }

  /** `getEndpointStatus`: a snapshot of every endpoint, in configuration order. */
  function GetEndpointStatus(cfg: LimiterConfig, s: Limiter, now: int): (r: StatusReport)
    ensures r.state.endpoints.Keys == s.endpoints.Keys
    ensures r.state.daily == s.daily && r.state.monthly == s.monthly
  {
    StatusLoop(cfg, s, cfg.keys, now)
  }

  /** The first snapshot with the given key (`statuses.find(s => s.key === key)`). */
  function FindStatus(statuses: seq<EndpointStatus>, key: string): (r: Option<EndpointStatus>)
    ensures r.Some? ==> r.value in statuses && r.value.key == key
    ensures r.None? ==> forall i :: 0 <= i < |statuses| ==> statuses[i].key != key
  {
    if statuses == [] then None
    else if statuses[0].key == key then Some(statuses[0])
    else FindStatus(statuses[1..], key)
  }
}
