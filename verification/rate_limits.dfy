/**
 * The static configuration that parameterises the rate limiter and the response
 * cache: one record per external endpoint, the application-wide quota and the
 * cache settings, with the values the application ships with.
 */
module RateLimits {

  /** Exponential backoff settings of one endpoint. */
  datatype BackoffPolicy = BackoffPolicy(
    enabled: bool,
    initialDelayMs: real,
    maxDelayMs: real,
    multiplier: real)

  /** Limits of one external endpoint. */
  datatype EndpointConfig = EndpointConfig(
    name: string,
    endpoint: string,
    minIntervalMs: int,
    requestsPerMinute: int,
    requestsPerHour: int,
    requestsPerDay: int,
    backoff: BackoffPolicy,
    retryableErrors: seq<int>,
    maxRetries: int)

  /** A positive integer: the quota limits divide the usage counts. */
  type Pos = x: int | x > 0 witness 1

  /** Application-wide quota and its warning thresholds (in percent). */
  datatype GlobalQuota = GlobalQuota(
    monthlyRequests: Pos,
    dailyRequests: Pos,
    warningThresholdPercent: real,
    criticalThresholdPercent: real)

  /**
   * Everything the limiter reads: the endpoint records keyed by endpoint name,
   * the order in which the configuration lists them, and the global quota.
   */
  datatype LimiterConfig = LimiterConfig(
    keys: seq<string>,
    endpoints: map<string, EndpointConfig>,
    quota: GlobalQuota)

  /** Cache settings. */
  datatype CacheConfig = CacheConfig(
    ttlMs: int,
    autocompleteTtlMs: int,
    maxEntriesPerEndpoint: int,
    maxAutocompleteEntries: int,
    enabled: bool,
    includeTrafficInKey: bool)

  const DISTANCE_MATRIX: string := "distanceMatrix"
  const DIRECTIONS: string := "directions"
  const PLACES: string := "places"
  const AUTOCOMPLETE: string := "autocomplete"

  /** The provider status codes every endpoint retries. */
  const RETRYABLE_ERRORS: seq<int> := [408, 429, 500, 502, 503, 504]

  const DISTANCE_MATRIX_CONFIG: EndpointConfig := EndpointConfig(
    "Distance Matrix", "https://maps.googleapis.com/maps/api/distancematrix/json",
    1000, 30, 1000, 25000, BackoffPolicy(true, 1000.0, 60000.0, 2.0), RETRYABLE_ERRORS, 3)

  const DIRECTIONS_CONFIG: EndpointConfig := EndpointConfig(
    "Directions API", "https://maps.googleapis.com/maps/api/directions/json",
    1000, 30, 1200, 25000, BackoffPolicy(true, 1000.0, 60000.0, 2.0), RETRYABLE_ERRORS, 3)

  const PLACES_CONFIG: EndpointConfig := EndpointConfig(
    "Places API", "https://maps.googleapis.com/maps/api/place/autocomplete/json",
    1000, 30, 1500, 30000, BackoffPolicy(true, 500.0, 30000.0, 1.5), RETRYABLE_ERRORS, 2)

  const AUTOCOMPLETE_CONFIG: EndpointConfig := EndpointConfig(
    "Autocomplete", "places-autocomplete",
    1500, 10, 100, 500, BackoffPolicy(true, 2000.0, 60000.0, 2.0), RETRYABLE_ERRORS, 1)

  /** The endpoint records in the order the configuration object lists them. */
  const ENDPOINT_KEYS: seq<string> := [DISTANCE_MATRIX, DIRECTIONS, PLACES, AUTOCOMPLETE]

  const RATE_LIMIT_CONFIG: map<string, EndpointConfig> := map[
    DISTANCE_MATRIX := DISTANCE_MATRIX_CONFIG,
    DIRECTIONS := DIRECTIONS_CONFIG,
    PLACES := PLACES_CONFIG,
    AUTOCOMPLETE := AUTOCOMPLETE_CONFIG]

  const GLOBAL_QUOTA: GlobalQuota := GlobalQuota(25000, 1000, 80.0, 95.0)

  const CACHE_CONFIG: CacheConfig := CacheConfig(300000, 86400000, 100, 200, true, true)

  /** The configuration the application runs with. */
  const DEFAULT_LIMITS: LimiterConfig := LimiterConfig(ENDPOINT_KEYS, RATE_LIMIT_CONFIG, GLOBAL_QUOTA)

  /** A backoff policy whose delays start no higher than the ceiling and never shrink. */
  predicate SaneBackoff(b: BackoffPolicy) {
    0.0 <= b.initialDelayMs <= b.maxDelayMs && b.multiplier >= 1.0
  }

  /** The key list names each configured endpoint exactly once. */
  predicate KeysListed(cfg: LimiterConfig) {
    && (forall i, j :: 0 <= i < j < |cfg.keys| ==> cfg.keys[i] != cfg.keys[j])
    && (forall k :: k in cfg.endpoints ==> k in cfg.keys)
    && (forall k :: k in cfg.keys ==> k in cfg.endpoints)
  }

  /** The shipped endpoint records list each endpoint once, with sane backoff and 429 retryable. */
  lemma DefaultLimitsWellFormed()
    ensures KeysListed(DEFAULT_LIMITS)
    ensures forall k :: k in RATE_LIMIT_CONFIG ==>
      && SaneBackoff(RATE_LIMIT_CONFIG[k].backoff)
      && RATE_LIMIT_CONFIG[k].backoff.enabled
      && 429 in RATE_LIMIT_CONFIG[k].retryableErrors
  {
    DefaultKeysListed();
    assert RETRYABLE_ERRORS[1] == 429;
    forall k | k in RATE_LIMIT_CONFIG
      ensures SaneBackoff(RATE_LIMIT_CONFIG[k].backoff) && RATE_LIMIT_CONFIG[k].backoff.enabled
      ensures 429 in RATE_LIMIT_CONFIG[k].retryableErrors
    {
      assert RATE_LIMIT_CONFIG[k].retryableErrors == RETRYABLE_ERRORS;
    }
  }

  /** The four endpoint names are distinct and name exactly the configured records. */
  lemma DefaultKeysListed()
    ensures KeysListed(DEFAULT_LIMITS)
  {
    assert RATE_LIMIT_CONFIG.Keys == {DISTANCE_MATRIX, DIRECTIONS, PLACES, AUTOCOMPLETE};
  }

  /** The retry budgets of the shipped endpoints. */
  lemma DefaultRetryBudgets()
    ensures RATE_LIMIT_CONFIG[DISTANCE_MATRIX].maxRetries == 3
    ensures RATE_LIMIT_CONFIG[DIRECTIONS].maxRetries == 3
    ensures RATE_LIMIT_CONFIG[PLACES].maxRetries == 2
    ensures RATE_LIMIT_CONFIG[AUTOCOMPLETE].maxRetries == 1
  {
  }

  /** The shipped quota: warning below critical, daily below monthly. */
  lemma DefaultQuotaOrdered()
    ensures GLOBAL_QUOTA.warningThresholdPercent == 80.0 < GLOBAL_QUOTA.criticalThresholdPercent == 95.0
    ensures GLOBAL_QUOTA.dailyRequests == 1000 < GLOBAL_QUOTA.monthlyRequests == 25000
  {
  }

  /** The shipped cache settings: 5 minutes and 24 hours, 100 and 200 entries, hour bucket on. */
  lemma DefaultCacheSettings()
    ensures CACHE_CONFIG.ttlMs == 5 * 60 * 1000
    ensures CACHE_CONFIG.autocompleteTtlMs == 24 * 60 * 60 * 1000
    ensures CACHE_CONFIG.maxEntriesPerEndpoint == 100 && CACHE_CONFIG.maxAutocompleteEntries == 200
    ensures CACHE_CONFIG.enabled && CACHE_CONFIG.includeTrafficInKey
  {
  }
}
