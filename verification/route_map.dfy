/**
 * The route effect of the map component: when the loaded map and both
 * locations are available and the trimmed route differs from the last one
 * drawn, it asks the limiter and then the Directions service for a fresh
 * route; the reply callback parses the first leg, classifies the traffic and
 * reports the distance.  Modelled in two phases: `Run` returns whether a
 * request is issued, `Callback` consumes the service's reply.
 */
module RouteMap {
  import opened Wrappers
  import opened Text
  import opened RateLimits
  import opened RateLimiter
  import opened Traffic

  /** The component's error line, one constructor per message. */
  datatype MapError =
    | SameEndpoints
    | LoadingRoute
    | InvalidRouteData
    | InvalidLocations
    | ApiLimitRetrying
    | RouteNotFound
    | NoRouteAvailable
    | StatusError(status: string)

  /** Reply status of the Directions service. */
  datatype DirectionsStatus =
    | DirectionsOk
    | InvalidRequest
    | OverQueryLimit
    | NotFound
    | ZeroResults
    | OtherStatus(name: string)

  /** The first leg of the first route; `None` stands for a missing field. Metres and seconds. */
  datatype Leg = Leg(distanceM: Option<real>, durationS: Option<real>, durationInTrafficS: Option<real>)

  /** The reply: its status and, for a well-formed route, its first leg. */
  datatype DirectionsReply = DirectionsReply(status: DirectionsStatus, leg: Option<Leg>)

  /** What the component reports to the page: kilometres, minutes in traffic, level, free-flow minutes. */
  datatype Distance = Distance(distanceKm: real, durationMin: real, trafficLevel: Level, durationNormalMin: real)

  /**
   * The component's state: whether a route is shown and which reply it
   * draws, the error line, the loading flag, the traffic badge, the
   * renderer generation, the in-flight guard, the last route drawn, the
   * delay of the pending error-clearing timer and the request counter.
   */
  datatype View = View(
    showRoute: bool,
    directions: Option<DirectionsReply>,
    error: Option<MapError>,
    loading: bool,
    trafficLevel: Option<Level>,
    routeKey: nat,
    inFlight: bool,
    lastRoute: Option<(string, string)>,
    pendingClear: Option<int>,
    apiCalls: nat)

  /** The inputs of one run of the effect. */
  datatype Inputs = Inputs(isLoaded: bool, hasMap: bool, pickup: string, dropoff: string)

  datatype Action = Idle | Request(pickup: string, dropoff: string)

  datatype Run = Run(view: View, limiter: Limiter, action: Action)

  datatype Outcome = Outcome(view: View, limiter: Limiter, reported: Option<Distance>)

  /** The route drawn so far is hidden and its reply dropped. */
  function Hidden(v: View): View {
    v.(showRoute := false, directions := None)
  }

  /** The guards that let the effect look at the route at all. */
  predicate Ready(inp: Inputs) {
    inp.isLoaded && inp.hasMap && inp.pickup != [] && inp.dropoff != []
  }

  /** A new, distinct route not already requested: the effect would ask the limiter. */
  predicate NewRoute(inp: Inputs, v: View) {
    && Ready(inp)
    && Trim(inp.pickup) != Trim(inp.dropoff)
    && v.lastRoute != Some((Trim(inp.pickup), Trim(inp.dropoff)))
    && !v.inFlight
  }

  /** One run of the route effect. */
  function RunEffect(cfg: LimiterConfig, s: Limiter, v: View, inp: Inputs, now: int): (r: Run)
    // no request and no limiter call unless the route is new and nothing is in flight
    ensures !NewRoute(inp, v) ==> r.action == Idle && r.limiter == s
    ensures !Ready(inp) ==>
      r.view == Hidden(v).(error := None, loading := false)
    ensures Ready(inp) && Trim(inp.pickup) == Trim(inp.dropoff) ==>
      r.view == Hidden(v).(error := Some(SameEndpoints), trafficLevel := None)
    ensures Ready(inp) && Trim(inp.pickup) != Trim(inp.dropoff) && !NewRoute(inp, v) ==> r.view == v
    // a request is issued exactly when the limiter admits a new route
    ensures r.action.Request? <==> NewRoute(inp, v) && CanMakeRequest(cfg, s, DIRECTIONS, now).allowed
    ensures NewRoute(inp, v) ==> r.limiter == CanMakeRequest(cfg, s, DIRECTIONS, now).state
    ensures r.action.Request? ==>
      && r.action == Request(Trim(inp.pickup), Trim(inp.dropoff))
      && r.view.inFlight && r.view.loading && !r.view.showRoute && r.view.directions.None?
      && r.view.routeKey == v.routeKey + 1 && r.view.apiCalls == v.apiCalls + 1
    // a refusal only shows a transient message and arms the timer that clears it
    ensures NewRoute(inp, v) && !r.action.Request? ==>
      r.view == v.(error := Some(LoadingRoute), loading := true, pendingClear := Some(800))
    ensures r.action.Idle? ==> r.view.apiCalls == v.apiCalls && r.view.inFlight == v.inFlight
    ensures r.view.lastRoute == v.lastRoute
  {
    if !Ready(inp) then Run(Hidden(v).(error := None, loading := false), s, Idle)
    else
      var pickup, dropoff := Trim(inp.pickup), Trim(inp.dropoff);
      if pickup == dropoff then
        Run(Hidden(v).(error := Some(SameEndpoints), trafficLevel := None), s, Idle)
      else if v.lastRoute == Some((pickup, dropoff)) then Run(v, s, Idle)
      else if v.inFlight then Run(v, s, Idle)
      else
        var a := CanMakeRequest(cfg, s, DIRECTIONS, now);
        if !a.allowed then
          Run(v.(error := Some(LoadingRoute), loading := true, pendingClear := Some(800)), a.state, Idle)
        else
          var v' := Hidden(v).(
            error := None,
            trafficLevel := None,
            routeKey := v.routeKey + 1,
            apiCalls := v.apiCalls + 1,
            inFlight := true,
            loading := true);
          Run(v', a.state, Request(pickup, dropoff))
  }

  /**
   * The parse of the first leg: `None` when there is no leg or no non-zero
   * free-flow duration (the parse throws); otherwise kilometres, minutes in
   * traffic (falling back to free-flow minutes when the traffic field is
   * absent) and the traffic level.
   */
  function Parse(leg: Option<Leg>): (r: Option<Distance>)
    ensures r.Some? <==> leg.Some? && leg.value.durationS.Some? && leg.value.durationS.value != 0.0
    ensures r.Some? ==>
      var l := leg.value;
      && r.value.distanceKm * 1000.0 == (if l.distanceM.Some? && l.distanceM.value != 0.0 then l.distanceM.value else 0.0)
      && r.value.durationNormalMin * 60.0 == l.durationS.value
      && r.value.durationMin * 60.0 == (if l.durationInTrafficS.Some? then l.durationInTrafficS.value else l.durationS.value)
      && r.value.trafficLevel == Classify(r.value.durationMin / r.value.durationNormalMin)
  {
    if leg.None? then None
    else
      var l := leg.value;
      var distance := if l.distanceM.Some? && l.distanceM.value != 0.0 then l.distanceM.value / 1000.0 else 0.0;
      var normal := if l.durationS.Some? && l.durationS.value != 0.0 then l.durationS.value / 60.0 else 0.0;
      if normal == 0.0 then None
      else
        var traffic := if l.durationInTrafficS.Some? then l.durationInTrafficS.value / 60.0 else normal;
        Some(Distance(distance, traffic, Classify(traffic / normal), normal))
  }

  /** The error line for a status other than OK. */
  function StatusMessage(status: DirectionsStatus): (e: MapError)
    requires status != DirectionsOk
    ensures e == InvalidLocations <==> status == InvalidRequest
    ensures e == ApiLimitRetrying <==> status == OverQueryLimit
    ensures e == RouteNotFound <==> status == NotFound
    ensures e == NoRouteAvailable <==> status == ZeroResults
    ensures e.StatusError? <==> status.OtherStatus?
    ensures status.OtherStatus? ==> e.status == status.name
  {
    match status
    case InvalidRequest => InvalidLocations
    case OverQueryLimit => ApiLimitRetrying
    case NotFound => RouteNotFound
    case ZeroResults => NoRouteAvailable
    case OtherStatus(name) => StatusError(name)
  }

  /** The reply callback for the request of `pickup` to `dropoff`. */
  function Callback(cfg: LimiterConfig, s: Limiter, v: View, pickup: string, dropoff: string,
                    reply: DirectionsReply, now: int, nextMidnight: int, nextMonthStart: int): (r: Outcome)
    ensures !r.view.inFlight && !r.view.loading
    // an OK reply marks the route as done before its leg is parsed
    ensures reply.status == DirectionsOk ==> r.view.lastRoute == Some((pickup, dropoff)) && r.view.showRoute
    ensures reply.status != DirectionsOk ==> r.view.lastRoute == v.lastRoute
    // only a parsed route counts as a success and is reported
    ensures r.reported.Some? <==> reply.status == DirectionsOk && Parse(reply.leg).Some?
    ensures r.reported.Some? ==>
      && r.reported == Parse(reply.leg)
      && r.view.trafficLevel == Some(r.reported.value.trafficLevel)
      && r.limiter == RecordSuccess(cfg, s, DIRECTIONS, now, nextMidnight, nextMonthStart)
    ensures r.reported.None? ==> r.view.trafficLevel.None? && r.view.directions.None? && r.view.error.Some?
    // only the provider's query limit is reported to the limiter, as a 429
    ensures reply.status == OverQueryLimit ==>
      r.limiter == RecordError(cfg, s, DIRECTIONS, 429, now).state && r.view.pendingClear == Some(1500)
    ensures r.reported.None? && reply.status != OverQueryLimit ==>
      r.limiter == s && r.view.pendingClear == v.pendingClear
  {
    var v1 := v.(inFlight := false, loading := false);
    if reply.status == DirectionsOk then
      var shown := v1.(lastRoute := Some((pickup, dropoff)), directions := Some(reply), showRoute := true, error := None);
      match Parse(reply.leg)
      case None =>
        Outcome(shown.(error := Some(InvalidRouteData), directions := None, trafficLevel := None), s, None)
      case Some(d) =>
        Outcome(shown.(trafficLevel := Some(d.trafficLevel)),
                RecordSuccess(cfg, s, DIRECTIONS, now, nextMidnight, nextMonthStart), Some(d))
    else
      var failed := v1.(error := Some(StatusMessage(reply.status)), directions := None, trafficLevel := None);
      if reply.status == OverQueryLimit then
        Outcome(failed.(pendingClear := Some(1500)), RecordError(cfg, s, DIRECTIONS, 429, now).state, None)
      else
        Outcome(failed, s, None)
  }

  // ---------------------------------------------------------------- properties

  /**
   * A reply with status OK but no usable leg leaves the route marked as
   * done: running the effect again for the same locations issues no request
   * and no limiter call, although nothing was reported.
   */
  lemma ParseFailureSticks(cfg: LimiterConfig, s: Limiter, v: View, inp: Inputs, reply: DirectionsReply,
                           now: int, later: int, nextMidnight: int, nextMonthStart: int)
    requires Ready(inp) && reply.status == DirectionsOk && Parse(reply.leg).None?
    ensures var o := Callback(cfg, s, v, Trim(inp.pickup), Trim(inp.dropoff), reply, now, nextMidnight, nextMonthStart);
      var r := RunEffect(cfg, o.limiter, o.view, inp, later);
      && o.reported.None? && o.limiter == s
      && r.action == Idle && r.limiter == s
  {
  }

  /** After a parsed route, the same locations are not requested again. */
  lemma NoRefetchAfterSuccess(cfg: LimiterConfig, s: Limiter, v: View, inp: Inputs, reply: DirectionsReply,
                              now: int, later: int, nextMidnight: int, nextMonthStart: int)
    requires Ready(inp) && reply.status == DirectionsOk
    ensures var o := Callback(cfg, s, v, Trim(inp.pickup), Trim(inp.dropoff), reply, now, nextMidnight, nextMonthStart);
      var r := RunEffect(cfg, o.limiter, o.view, inp, later);
      r.action == Idle && r.limiter == o.limiter
  {
  }

  /**
   * The map component's level, computed on minutes, is the level the fare
   * preview's distance panel computes on seconds for the same durations.
   */
  lemma {:induction false} SameLevelAsPanel(leg: Leg)
    requires leg.durationS.Some? && leg.durationS.value > 0.0
    ensures var traffic := if leg.durationInTrafficS.Some? then leg.durationInTrafficS.value else leg.durationS.value;
      Parse(Some(leg)).value.trafficLevel == LevelOf(leg.durationS.value, traffic)
  {
    var base := leg.durationS.value;
    var traffic := if leg.durationInTrafficS.Some? then leg.durationInTrafficS.value else base;
    LevelScaleFree(base, traffic, 60.0);
    LevelOfIsRatio(base / 60.0, traffic / 60.0);
  }
}
