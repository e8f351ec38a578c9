/**
 * The live distance panel of the fare preview page: the decision procedure
 * that, for the current origin and destination labels, either does nothing,
 * serves the route from the response cache, reports why the rate limiter
 * refused, or issues one Distance Matrix request; and the handling of that
 * request's reply.  The request is asynchronous, so it is modelled in two
 * phases: `Start` returns the action, `Complete` consumes the provider's reply.
 */
module TrafficMap {
  import opened Wrappers
  import opened Text
  import opened Store
  import opened RateLimits
  import opened RateLimiter
  import opened ApiCache
  import opened Traffic
  import RateLimiterFacts

  /** What the panel reports to the fare page and keeps in the cache. */
  datatype RouteResult = RouteResult(distanceKm: real, durationMin: real, trafficLevel: Level)

  /** The panel's status line, one constructor per message the panel can show. */
  datatype Notice =
    | NoNotice
    | ApiKeyMissing
    | RetryIn(seconds: int)
    | QuotaExceeded
    | RateLimitReached
    | HttpError(status: int)
    | ProviderRateLimited
    | RouteUnavailable
    | FetchFailed

  /**
   * The panel's own state: the in-flight guard, the key of the last route it
   * delivered, its status line and counters, the last quota snapshot, and the
   * delay of the pending automatic retry, if one is scheduled.
   */
  datatype Panel = Panel(
    inFlight: bool,
    lastRouteKey: Option<string>,
    notice: Notice,
    apiCallCount: nat,
    cacheHits: nat,
    cacheHitRate: real,
    quota: Option<QuotaInfo>,
    pendingRetry: Option<real>)

  /** The panel together with the two shared services it drives. */
  datatype World<A> = World(panel: Panel, limiter: Limiter, cache: Cache<RouteResult, A>)

  /**
   * The surroundings of one call: the service configurations, whether an API
   * key is configured, the clock, the local hour and the next quota resets.
   */
  datatype Env = Env(
    cfg: LimiterConfig,
    cc: CacheConfig,
    hasApiKey: bool,
    now: int,
    hour: nat,
    nextMidnight: int,
    nextMonthStart: int)

  /** What a call of the decision procedure leads to. */
  datatype Action = Skip | Emit(result: RouteResult) | Fetch(origin: string, destination: string)

  datatype Step<A> = Step(world: World<A>, action: Action)

  /** Status of the single element of a Distance Matrix reply. */
  datatype ElementStatus = ElementOk | OverQueryLimit | OtherElementStatus(name: string)

  /** The element's fields; `None` stands for a missing field. Distance in metres, durations in seconds. */
  datatype Element = Element(
    status: ElementStatus,
    distanceM: Option<real>,
    durationS: Option<real>,
    durationInTrafficS: Option<real>)

  /** How the request ended: it threw, it came back with a failing HTTP status, or it has a body. */
  datatype Reply = Thrown | HttpFailure(status: int) | Body(element: Option<Element>)

  datatype Completion<A> = Completion(world: World<A>, emitted: Option<RouteResult>)

  /** The route key the panel compares against the last delivered route. */
  function PanelKey(origin: string, destination: string): string {
    origin + "|" + destination
  }

  /** `Math.ceil`. */
  function Ceil(x: real): (n: int)
    ensures (n as real) - 1.0 < x <= n as real
  {
    -((-x).Floor)
  }

  /** The value of a numeric field when it is present and non-zero, else `fallback`. */
  function Truthy(x: Option<real>, fallback: real): real {
    if x.Some? && x.value != 0.0 then x.value else fallback
  }

  /**
   * The call gets past the early exits: nothing in flight, both labels
   * non-empty before and after trimming, an API key, and a route other than
   * the last one delivered.
   */
  predicate Proceeds<A>(env: Env, w: World<A>, originLabel: string, destinationLabel: string) {
    && !w.panel.inFlight
    && originLabel != [] && destinationLabel != []
    && env.hasApiKey
    && Trim(originLabel) != [] && Trim(destinationLabel) != []
    && w.panel.lastRouteKey != Some(PanelKey(Trim(originLabel), Trim(destinationLabel)))
  }

  /** The cache read the call performs once it proceeds. */
  function CacheRead<A>(env: Env, w: World<A>, originLabel: string, destinationLabel: string): Fetched<RouteResult, A, RouteResult>
    requires ApiCache.Valid(w.cache)
  {
    Get(env.cc, w.cache, DISTANCE_MATRIX, Trim(originLabel), Trim(destinationLabel), env.hour, env.now)
  }

  /**
   * `maybeCallApi` up to the request: the early exits, then the cache, then
   * the limiter.
   */
  function Start<A>(env: Env, w: World<A>, originLabel: string, destinationLabel: string): (r: Step<A>)
    requires ApiCache.Valid(w.cache)
    ensures ApiCache.Valid(r.world.cache)
    // the early exits touch neither service; only a missing key shows a notice
    ensures !Proceeds(env, w, originLabel, destinationLabel) ==>
      && r.action == Skip
      && r.world.limiter == w.limiter && r.world.cache == w.cache
      && r.world.panel == w.panel.(notice := r.world.panel.notice)
      && (r.world.panel.notice != w.panel.notice ==> r.world.panel.notice == ApiKeyMissing)
    // the panel never starts a request it does not then mark as in flight
    ensures r.action.Fetch? <==>
      (&& Proceeds(env, w, originLabel, destinationLabel)
       && CacheRead(env, w, originLabel, destinationLabel).value.None?
       && CanMakeRequest(env.cfg, w.limiter, DISTANCE_MATRIX, env.now).allowed)
    ensures r.action.Fetch? ==>
      && r.action == Fetch(Trim(originLabel), Trim(destinationLabel))
      && r.world.panel.inFlight && r.world.panel.notice == NoNotice
      && r.world.limiter == CanMakeRequest(env.cfg, w.limiter, DISTANCE_MATRIX, env.now).state
    ensures !r.action.Fetch? ==> r.world.panel.inFlight == w.panel.inFlight
    // a cache hit delivers the stored route without an admission check: the
    // quota figures are read (rolling the windows over) and the notice cleared
    ensures r.action.Emit? ==>
      && Proceeds(env, w, originLabel, destinationLabel)
      && CacheRead(env, w, originLabel, destinationLabel).value == Some(r.action.result)
      && r.world.cache == CacheRead(env, w, originLabel, destinationLabel).cache
      && r.world.limiter.endpoints == w.limiter.endpoints
      && r.world.limiter == GetQuotaInfo(env.cfg, w.limiter, env.now, env.nextMidnight, env.nextMonthStart).state
      && r.world.panel.quota == Some(GetQuotaInfo(env.cfg, w.limiter, env.now, env.nextMidnight, env.nextMonthStart).info)
      && r.world.panel.notice == NoNotice
      && r.world.panel.cacheHitRate == GetHitRatio(r.world.cache)
      && r.world.panel.lastRouteKey == Some(PanelKey(Trim(originLabel), Trim(destinationLabel)))
      && r.world.panel.cacheHits == w.panel.cacheHits + 1
    ensures !r.action.Emit? ==> r.world.panel.lastRouteKey == w.panel.lastRouteKey
    ensures r.world.panel.apiCallCount == w.panel.apiCallCount
  {
    if w.panel.inFlight then Step(w, Skip)
    else if originLabel == [] || destinationLabel == [] then Step(w, Skip)
    else if !env.hasApiKey then Step(w.(panel := w.panel.(notice := ApiKeyMissing)), Skip)
    else
      var origin, destination := Trim(originLabel), Trim(destinationLabel);
      if origin == [] || destination == [] then Step(w, Skip)
      else if w.panel.lastRouteKey == Some(PanelKey(origin, destination)) then Step(w, Skip)
      else
        var got := CacheRead(env, w, originLabel, destinationLabel);
        if got.value.Some? then
          var q := GetQuotaInfo(env.cfg, w.limiter, env.now, env.nextMidnight, env.nextMonthStart);
          var p := w.panel.(
            lastRouteKey := Some(PanelKey(origin, destination)),
            notice := NoNotice,
            cacheHits := w.panel.cacheHits + 1,
            cacheHitRate := GetStats(got.cache).hitRatio,
            quota := Some(q.info));
          Step(World(p, q.state, got.cache), Emit(got.value.value))
        else
          var a := CanMakeRequest(env.cfg, w.limiter, DISTANCE_MATRIX, env.now);
          if !a.allowed then Step(Deny(env, w.panel, a.state, got.cache), Skip)
          else Step(World(w.panel.(inFlight := true, notice := NoNotice), a.state, got.cache),
                    Fetch(origin, destination))
  }

  /**
   * The refusal branch: read the quota and the endpoint snapshot, then either
   * schedule one retry for when the backoff ends (replacing any pending one)
   * or say whether the quota or a rate limit is the reason.
   */
  function Deny<A>(env: Env, panel: Panel, limiter: Limiter, cache: Cache<RouteResult, A>): (w: World<A>)
    ensures w.cache == cache && w.panel.inFlight == panel.inFlight
    ensures w.panel == panel.(notice := w.panel.notice, quota := w.panel.quota, pendingRetry := w.panel.pendingRetry)
    ensures w.limiter.endpoints.Keys == limiter.endpoints.Keys
    ensures w.panel.notice.RetryIn? || w.panel.notice == QuotaExceeded || w.panel.notice == RateLimitReached
    ensures w.panel.pendingRetry != panel.pendingRetry ==> w.panel.notice.RetryIn?
    // the quota figures roll over first, then the status loop prunes every endpoint's windows
    ensures w.panel.quota == Some(GetQuotaInfo(env.cfg, limiter, env.now, env.nextMidnight, env.nextMonthStart).info)
    ensures w.limiter == GetEndpointStatus(env.cfg, GetQuotaInfo(env.cfg, limiter, env.now, env.nextMidnight, env.nextMonthStart).state, env.now).state
  {
    var q := GetQuotaInfo(env.cfg, limiter, env.now, env.nextMidnight, env.nextMonthStart);
    var st := GetEndpointStatus(env.cfg, q.state, env.now);
    var dm := FindStatus(st.statuses, DISTANCE_MATRIX);
    var p := panel.(quota := Some(q.info));
    var p' :=
      if dm.Some? && dm.value.isBackedOff then
        p.(notice := RetryIn(Ceil(dm.value.backoffUntilMs / 1000.0)),
           pendingRetry := Some(dm.value.backoffUntilMs + 100.0))
      else if q.info.daily.critical || q.info.monthly.critical then p.(notice := QuotaExceeded)
      else p.(notice := RateLimitReached);
    World(p', st.state, cache)
  }

  /**
   * The route summary of an OK element: missing or zero distance counts as
   * 0, a missing or zero free-flow time as 0, a missing or zero in-traffic
   * time falls back to the free-flow time.
   */
  function Summarise(el: Element): (r: RouteResult)
    ensures r.distanceKm * 1000.0 == Truthy(el.distanceM, 0.0)
    ensures r.durationMin * 60.0 == Truthy(el.durationInTrafficS, Truthy(el.durationS, 0.0))
    ensures r.trafficLevel == LevelOf(Truthy(el.durationS, 0.0), r.durationMin * 60.0)
    ensures Truthy(el.durationS, 0.0) == 0.0 ==> r.trafficLevel == Low
  {
    var distance := Truthy(el.distanceM, 0.0);
    var base := Truthy(el.durationS, 0.0);
    var traffic := Truthy(el.durationInTrafficS, base);
    RouteResult(distance / 1000.0, traffic / 60.0, LevelOf(base, traffic))
  }

  /** The element is usable: present with status OK. */
  predicate Usable(reply: Reply) {
    reply.Body? && reply.element.Some? && reply.element.value.status == ElementOk
  }

  /**
   * The rest of `maybeCallApi` once the request for the trimmed `origin` and
   * `destination` has returned: every exit clears the in-flight guard.
   */
  function Complete<A>(env: Env, w: World<A>, origin: string, destination: string, reply: Reply): (r: Completion<A>)
    requires ApiCache.Valid(w.cache)
    ensures ApiCache.Valid(r.world.cache)
    ensures !r.world.panel.inFlight
    ensures r.emitted.Some? <==> Usable(reply)
    ensures r.world.panel.apiCallCount == w.panel.apiCallCount + (if Usable(reply) then 1 else 0)
    // only a usable reply reaches the cache
    ensures !Usable(reply) ==> r.world.cache == w.cache && r.world.panel.lastRouteKey == w.panel.lastRouteKey
    // a thrown request and a route the provider cannot serve leave the limiter alone
    ensures reply.Thrown? || (reply.Body? && !Usable(reply) &&
                              (reply.element.None? || reply.element.value.status != OverQueryLimit)) ==>
      r.world.limiter == w.limiter && r.world.panel.pendingRetry == w.panel.pendingRetry
    ensures reply.Body? && reply.element.Some? && reply.element.value.status == OverQueryLimit ==>
      && r.world.limiter == RecordError(env.cfg, w.limiter, DISTANCE_MATRIX, 429, env.now).state
      && r.world.panel.pendingRetry == w.panel.pendingRetry
      && r.world.panel.notice == ProviderRateLimited
    ensures reply.HttpFailure? ==>
      && r.world.panel.notice == HttpError(reply.status)
      && (r.world.panel.pendingRetry != w.panel.pendingRetry ==>
            RecordError(env.cfg, w.limiter, DISTANCE_MATRIX, reply.status, env.now).canRetry == Some(true))
    // the error is logged and backed off; a retryable one is then followed by the status loop
    ensures reply.HttpFailure? ==>
      var rep := RecordError(env.cfg, w.limiter, DISTANCE_MATRIX, reply.status, env.now);
      r.world.limiter == (if rep.canRetry == Some(true) then GetEndpointStatus(env.cfg, rep.state, env.now).state else rep.state)
    ensures Usable(reply) ==>
      var result := Summarise(reply.element.value);
      && r.emitted == Some(result)
      && r.world.panel.notice == NoNotice
      && r.world.panel.lastRouteKey == Some(PanelKey(origin, destination))
      // the success is recorded, then the quota figures are refreshed from the new state
      && r.world.limiter == GetQuotaInfo(env.cfg, RecordSuccess(env.cfg, w.limiter, DISTANCE_MATRIX, env.now, env.nextMidnight, env.nextMonthStart),
                                         env.now, env.nextMidnight, env.nextMonthStart).state
      && r.world.panel.quota == Some(GetQuotaInfo(env.cfg, RecordSuccess(env.cfg, w.limiter, DISTANCE_MATRIX, env.now, env.nextMidnight, env.nextMonthStart),
                                                  env.now, env.nextMidnight, env.nextMonthStart).info)
      && (env.cc.enabled ==>
            Lookup(r.world.cache.main, RouteKey(env.cc, DISTANCE_MATRIX, origin, destination, env.hour))
              == Some(Entry(result, env.now)))
  {
    var done := w.panel.(inFlight := false);
    match reply
    case Thrown =>
      Completion(w.(panel := done.(notice := FetchFailed)), None)
    case HttpFailure(status) =>
      var rep := RecordError(env.cfg, w.limiter, DISTANCE_MATRIX, status, env.now);
      if rep.canRetry == Some(true) then
        var st := GetEndpointStatus(env.cfg, rep.state, env.now);
        var dm := FindStatus(st.statuses, DISTANCE_MATRIX);
        var retry := if dm.Some? && dm.value.isBackedOff then Some(dm.value.backoffUntilMs + 100.0)
                     else done.pendingRetry;
        Completion(World(done.(notice := HttpError(status), pendingRetry := retry), st.state, w.cache), None)
      else
        Completion(World(done.(notice := HttpError(status)), rep.state, w.cache), None)
    case Body(element) =>
      if element.None? || element.value.status != ElementOk then
        if element.Some? && element.value.status == OverQueryLimit then
          var rep := RecordError(env.cfg, w.limiter, DISTANCE_MATRIX, 429, env.now);
          Completion(World(done.(notice := ProviderRateLimited), rep.state, w.cache), None)
        else
          Completion(w.(panel := done.(notice := RouteUnavailable)), None)
      else
        var result := Summarise(element.value);
        var cache := Set(env.cc, w.cache, DISTANCE_MATRIX, origin, destination, result, env.hour, env.now);
        var limiter := RecordSuccess(env.cfg, w.limiter, DISTANCE_MATRIX, env.now, env.nextMidnight, env.nextMonthStart);
        var q := GetQuotaInfo(env.cfg, limiter, env.now, env.nextMidnight, env.nextMonthStart);
        var p := done.(
          lastRouteKey := Some(PanelKey(origin, destination)),
          apiCallCount := done.apiCallCount + 1,
          cacheHitRate := GetStats(cache).hitRatio,
          quota := Some(q.info),
          notice := NoNotice);
        Completion(World(p, q.state, cache), Some(result))
  }

  // ---------------------------------------------------------------- properties

  /** The limiter knows the Distance Matrix endpoint and the configuration lists it. */
  predicate Wired(cfg: LimiterConfig, s: Limiter) {
    DISTANCE_MATRIX in cfg.keys && DISTANCE_MATRIX in cfg.endpoints && DISTANCE_MATRIX in s.endpoints
  }

  /**
   * What a refused check of `s` leaves on the panel: the quota snapshot;
   * while the endpoint is backed off, one retry 100 ms after the backoff
   * ends, replacing any pending one, and the remaining whole seconds;
   * otherwise the quota blamed exactly when the daily or monthly critical
   * flag is set.
   */
  predicate ReportsDenial(env: Env, s: Limiter, before: Panel, after: Panel)
    requires DISTANCE_MATRIX in s.endpoints
  {
    var e := s.endpoints[DISTANCE_MATRIX];
    var wait := e.backoffUntil - (env.now as real);
    var info := GetQuotaInfo(env.cfg, s, env.now, env.nextMidnight, env.nextMonthStart).info;
    && after.quota == Some(info)
    && (BackoffActive(e, env.now) ==>
          && after.pendingRetry == Some(wait + 100.0)
          && after.notice == RetryIn(Ceil(wait / 1000.0)))
    && (!BackoffActive(e, env.now) ==>
          && after.pendingRetry == before.pendingRetry
          && (after.notice == QuotaExceeded <==> info.daily.critical || info.monthly.critical)
          && (after.notice == RateLimitReached <==> !(info.daily.critical || info.monthly.critical)))
  }

  /** A refusal fetches nothing and reports the denial from the record and quota before the check. */
  lemma DenialOutcome<A>(env: Env, w: World<A>, originLabel: string, destinationLabel: string)
    requires ApiCache.Valid(w.cache) && Wired(env.cfg, w.limiter)
    requires Proceeds(env, w, originLabel, destinationLabel)
    requires CacheRead(env, w, originLabel, destinationLabel).value.None?
    requires !CanMakeRequest(env.cfg, w.limiter, DISTANCE_MATRIX, env.now).allowed
    ensures var r := Start(env, w, originLabel, destinationLabel);
      r.action == Skip && ReportsDenial(env, w.limiter, w.panel, r.world.panel)
  {
    StartDenies(env, w, originLabel, destinationLabel);
    DenyReports(env, w.panel, w.limiter, CacheRead(env, w, originLabel, destinationLabel).cache);
  }

  lemma StartDenies<A>(env: Env, w: World<A>, originLabel: string, destinationLabel: string)
    requires ApiCache.Valid(w.cache)
    requires Proceeds(env, w, originLabel, destinationLabel)
    requires CacheRead(env, w, originLabel, destinationLabel).value.None?
    requires !CanMakeRequest(env.cfg, w.limiter, DISTANCE_MATRIX, env.now).allowed
    ensures Start(env, w, originLabel, destinationLabel)
      == Step(Deny(env, w.panel, CanMakeRequest(env.cfg, w.limiter, DISTANCE_MATRIX, env.now).state,
                   CacheRead(env, w, originLabel, destinationLabel).cache), Skip)
  {
  }

  /** `Deny` after a refused check of `s`, in terms of the record and quota before the check. */
  lemma DenyReports<A>(env: Env, panel: Panel, s: Limiter, cache: Cache<RouteResult, A>)
    requires Wired(env.cfg, s)
    ensures ReportsDenial(env, s, panel, Deny(env, panel, CanMakeRequest(env.cfg, s, DISTANCE_MATRIX, env.now).state, cache).panel)
  {
    var a := CanMakeRequest(env.cfg, s, DISTANCE_MATRIX, env.now);
    DenyByRecord(env, panel, a.state, cache);
    assert GetQuotaInfo(env.cfg, a.state, env.now, env.nextMidnight, env.nextMonthStart).info
        == GetQuotaInfo(env.cfg, s, env.now, env.nextMidnight, env.nextMonthStart).info;
    var e := s.endpoints[DISTANCE_MATRIX];
    var e' := a.state.endpoints[DISTANCE_MATRIX];
    assert BackoffActive(e', env.now) == BackoffActive(e, env.now);
    assert e'.backoffUntil == e.backoffUntil;
  }

  /** `Deny` in terms of the record and quota it is given. */
  lemma DenyByRecord<A>(env: Env, panel: Panel, l: Limiter, cache: Cache<RouteResult, A>)
    requires Wired(env.cfg, l)
    ensures ReportsDenial(env, l, panel, Deny(env, panel, l, cache).panel)
  {
    var q := GetQuotaInfo(env.cfg, l, env.now, env.nextMidnight, env.nextMonthStart);
    RateLimiterFacts.EndpointStatusReportsOwnCheck(env.cfg, q.state, DISTANCE_MATRIX, env.now);
  }

  /**
   * A failing HTTP status is logged against the Distance Matrix endpoint and
   * nothing is counted as a success.  A retry is scheduled exactly when the
   * status is retryable, the retry budget is not spent and the backoff delay
   * is positive; it fires 100 ms after the backoff the limiter has just set.
   */
  lemma HttpFailureOutcome<A>(env: Env, w: World<A>, origin: string, destination: string, status: int)
    requires ApiCache.Valid(w.cache) && Wired(env.cfg, w.limiter)
    ensures var r := Complete(env, w, origin, destination, HttpFailure(status));
      var e := w.limiter.endpoints[DISTANCE_MATRIX];
      var c := env.cfg.endpoints[DISTANCE_MATRIX];
      var delay := Min(e.currentDelayMs, c.backoff.maxDelayMs);
      var retries := status in c.retryableErrors && e.retryCount + 1 <= c.maxRetries && c.backoff.enabled;
      && DISTANCE_MATRIX in r.world.limiter.endpoints
      && r.world.limiter.endpoints[DISTANCE_MATRIX].errors == e.errors + [ErrorEvent(env.now, status)]
      && r.world.limiter.endpoints[DISTANCE_MATRIX].perDay == e.perDay
      && r.world.limiter.daily == w.limiter.daily && r.world.limiter.monthly == w.limiter.monthly
      && (retries && delay > 0.0 ==> r.world.panel.pendingRetry == Some(delay + 100.0))
      && (retries && delay <= 0.0 ==> r.world.panel.pendingRetry == w.panel.pendingRetry)
      && (!retries ==> r.world.panel.pendingRetry == w.panel.pendingRetry)
  {
    var rep := RecordError(env.cfg, w.limiter, DISTANCE_MATRIX, status, env.now);
    if rep.canRetry == Some(true) {
      var st := GetEndpointStatus(env.cfg, rep.state, env.now);
      RateLimiterFacts.StatusLoopKeepsCounters(env.cfg, rep.state, env.cfg.keys, env.now);
      RateLimiterFacts.EndpointStatusReportsOwnCheck(env.cfg, rep.state, DISTANCE_MATRIX, env.now);
    }
  }

  /** Once a route has been delivered, asking again for the same trimmed labels does nothing. */
  lemma NoRefetchAfterSuccess<A>(env: Env, env': Env, w: World<A>, origin: string, destination: string,
                                 reply: Reply, originLabel: string, destinationLabel: string)
    requires ApiCache.Valid(w.cache) && Usable(reply) && env'.hasApiKey
    requires Trim(originLabel) == origin && Trim(destinationLabel) == destination
    ensures var c := Complete(env, w, origin, destination, reply);
      Start(env', c.world, originLabel, destinationLabel) == Step(c.world, Skip)
  {
  }

  /**
   * A delivered route is cached: a later call for the same trimmed labels in
   * the same hour bucket and within the time-to-live, from a panel whose last
   * route is a different one, is served from the cache without an endpoint
   * admission check.
   */
  lemma CachedRouteServedWithoutLimiter<A>(env: Env, env': Env, w: World<A>, origin: string, destination: string,
                                           reply: Reply, panel: Panel, originLabel: string, destinationLabel: string)
    requires ApiCache.Valid(w.cache) && Usable(reply) && env.cc.enabled
    requires env'.cc == env.cc && env'.hour == env.hour && env'.hasApiKey
    requires env'.now - env.now <= env.cc.ttlMs
    requires Trim(originLabel) == origin != [] && Trim(destinationLabel) == destination != []
    requires !panel.inFlight && panel.lastRouteKey != Some(PanelKey(origin, destination))
    ensures var c := Complete(env, w, origin, destination, reply);
      var r := Start(env', c.world.(panel := panel), originLabel, destinationLabel);
      && r.action == Emit(Summarise(reply.element.value))
      && r.world.limiter.endpoints == c.world.limiter.endpoints
  {
    var result := Summarise(reply.element.value);
    SetThenGet(env.cc, w.cache, DISTANCE_MATRIX, origin, destination, result, env.hour, env.now, env'.now);
  }
}
