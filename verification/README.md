# AiravatL freight fare calculator: a Dafny model of its core

This project models the decision logic of the AiravatL freight fare calculator, a React application for
Guwahati freight pricing. It proves properties of that model. The model covers these parts:

- **Rate limiter** (`RateLimiter`, `RateLimiterFacts`). It admits each provider endpoint's calls through a
  backoff gate, a minimum spacing, sliding minute and hour windows, a per-endpoint day count, and a global
  daily and monthly quota. It records successes and failures. Failures get exponential backoff with a
  ceiling and a retry budget. The quota counters roll over lazily. There is also a diagnostic snapshot.
  The shipped limits are in `RateLimits`.
- **Response cache** (`ApiCache`, `Store`). It has a route cache keyed by endpoint, origin, destination and
  hour of day, and an autocomplete cache keyed by the normalised query. Both are insertion-ordered maps
  with a time-to-live, first-in-first-out eviction, and hit and miss counters. `ApiCacheAsWritten` keeps
  two parts of `clear` exactly as the code has them (see Findings).
- **Fetch orchestration**. `TrafficMap` is the fare preview's live distance panel. It skips, serves from
  the cache, reports a refusal, or issues one Distance Matrix request, then handles the reply. `RouteMap`
  is the map component's route effect and its Directions callback. `Traffic` is the traffic-level rule
  both of them apply. `RouteEntry` is the "Calculate Route" confirmation shared by the pages.
- **Location search**. `LocalLocations` is the scored catalogue search and the place icons.
  `Autocomplete` is the hook: the merge of catalogue and provider results, the search that tries the
  catalogue, then the cache, then the Places provider, the reply handling, and the input gate.
  `LocationInput` is the keyboard highlight of the suggestion list and when the dropdown shows.
- **Pricing**. `Fares` is the small-vehicle fare of the preview page and of the small-vehicle page.
  `LargeVehicle` is the large-vehicle operating cost. `Constants` and `VehicleTypes` are the shared tables
  and their lookups. `Formatters` is the duration formatting.

State is immutable data threaded through pure functions.

- The clock is a parameter: `now` in milliseconds, the hour of day, and the next midnight and next month
  start that the limiter's rollover needs.
- Provider replies are parameters: an abstract HTTP status, element status or leg fields.
- Each asynchronous request is split in two phases. One function returns the request to make. A second
  function consumes the reply.
- A JavaScript `Map` is a sequence of key and value pairs in insertion order.
- JavaScript `null` and `undefined` are `Option`.
- The place catalogue the hook searches is a parameter (`Env.catalogue`, and the `catalogue` argument of
  `Autocomplete.HandleInputChange`). The application passes `GUWAHATI_LOCATIONS`
  (`LocalLocations.GUWAHATI_LOCATIONS`).
- Money, distances, ratios and delays are `real`.
- Instants and counts are `int`.

## Where the model follows the code

Some behaviour is modelled as the code has it, even where a reader might expect otherwise:

- The per-endpoint day count is never reset. `reset` and the quota rollover leave it alone
  (`RateLimiterFacts.PerDayNeverResets`).
- The page-level `getODDistance` returns 0 for an origin without a row. It does not try the reverse row
  in that case. The reverse entry is used only when the forward row exists but lacks the destination.
  `getODDistance` in `constants.js` is different: it tries both directions, and a zero entry counts as
  missing.
- A whitespace-only local query of two or more characters gives the empty normalised query, which every
  catalogue name starts with. Every entry then scores 80.
- A Places reply is applied when it arrives, without checking whether the query has moved on. A thrown
  Places request keeps the previous suggestion source. The "please wait" message set on a limiter
  refusal is not cleared by a later search.
- A highlight index can be left past the end of a list that shrank. From there ArrowUp stays out of
  range (`LocationInput.StaleIndexStaysOut`). Enter guards against this and chooses nothing.

## Model

| member | source | states |
|---|---|---|
| RateLimits.DefaultLimitsWellFormed | src/config/rateLimits.js:8-87 | every shipped endpoint is listed once, has backoff enabled with initial delay at most the ceiling and multiplier at least 1, and retries 429 |
| RateLimits.DefaultRetryBudgets | src/config/rateLimits.js:30-85 | retry budgets are 3 for distance matrix and directions, 2 for places, 1 for autocomplete |
| RateLimits.DefaultQuotaOrdered | src/config/rateLimits.js:93-101 | warning threshold 80 is below critical 95, and daily limit 1000 is below monthly 25000 |
| RateLimits.DefaultCacheSettings | src/config/rateLimits.js:106-124 | the cache lives 5 minutes and autocomplete 24 hours, holds 100 and 200 entries, is enabled and keys routes by hour |
| RateLimiter.Prune | src/utils/rateLimiter.js:96-98 | the pruned window keeps exactly the instants after the cutoff, each with its multiplicity, in order |
| RateLimiter.PruneIdempotent | src/utils/rateLimiter.js:96-107 | pruning an already pruned window at the same cutoff changes nothing |
| RateLimiter.PruneAppend | src/utils/rateLimiter.js:139-140 | an instant appended to a window is counted by a later prune exactly when it is after the cutoff |
| RateLimiter.PruneKeepsRecent | src/utils/rateLimiter.js:96-98 | a window whose instants are all after the cutoff is not changed by pruning |
| RateLimiter.InitEndpoints | src/utils/rateLimiter.js:44-64 | one fresh record per configured endpoint: no requests, no errors, not backed off, no retries, delay at its initial value |
| RateLimiter.New | src/utils/rateLimiter.js:15-39 | a new limiter has fresh endpoint records and zero global counts that reset at the given boundaries |
| RateLimiter.Reset | src/utils/rateLimiter.js:262-264 | reset makes every endpoint record fresh and keeps the global daily and monthly counters |
| RateLimiter.Admit | src/utils/rateLimiter.js:79-127 | the verdict is the conjunction of the seven checks, so it is false iff one check fails; backoff clears only once its instant is reached; only the windows are pruned |
| RateLimiter.CanMakeRequest | src/utils/rateLimiter.js:69-128 | an unknown endpoint is refused with no state change; otherwise the verdict is the admission rule on that endpoint's record; no other record and neither global counter changes |
| RateLimiter.CanMakeRequestIdempotent | src/utils/rateLimiter.js:69-128 | a second check at the same instant gives the same verdict and leaves the state the first check left |
| RateLimiter.Rollover | src/utils/rateLimiter.js:213-220 | a counter resets to 0 with the next boundary only when now is strictly past its reset time |
| RateLimiter.Window | src/utils/rateLimiter.js:222-239 | the percentage is used/limit times 100, and the warning and critical flags hold iff it exceeds their thresholds |
| RateLimiter.GetQuotaInfo | src/utils/rateLimiter.js:209-241 | both counters are rolled over if due; each window reports used, limit, the exact percentage, warning iff above the warning threshold and critical iff above the critical one; endpoint records are untouched |
| RateLimiter.RecordSuccess | src/utils/rateLimiter.js:133-152 | for a known endpoint: now appended to both windows, day count and both global counts up by one, spacing restarted, backoff cursor reset, quota rolled over; unknown endpoint is a no-op |
| RateLimiter.Fail | src/utils/rateLimiter.js:162-203 | the error is always logged; a non-retryable status returns nothing and changes nothing else; a retryable one spends a retry, and within budget with backoff enabled backs off for the capped delay and grows the delay, capped |
| RateLimiter.RecordError | src/utils/rateLimiter.js:157-204 | an unknown endpoint gives no answer and no change; otherwise the failure lands on that endpoint's record only and the global counters stay |
| RateLimiter.RecentErrors | src/utils/rateLimiter.js:255 | the last five errors of the log, or all of them when there are fewer |
| RateLimiter.StatusOf | src/utils/rateLimiter.js:247-256 | an endpoint's snapshot reports the verdict of its own admission check and the remaining backoff time |
| RateLimiter.StatusLoop | src/utils/rateLimiter.js:247-256 | checking the listed endpoints in turn leaves unlisted endpoints and the global counters unchanged and reports only listed endpoints |
| RateLimiter.GetEndpointStatus | src/utils/rateLimiter.js:246-257 | the snapshot keeps the endpoint set and the global counters |
| RateLimiter.FindStatus | src/AiravatLFareCalculatorPreview.jsx:219 | finds a snapshot with the key when one exists and reports absence only when none has it |
| RateLimiterFacts.ErrorRunIsFailRun | src/utils/rateLimiter.js:157-204 | repeated failures of one endpoint act on its record alone |
| RateLimiterFacts.RetryBudget | src/utils/rateLimiter.js:173-184 | n retryable failures spend n retries, and the n-th may retry iff the budget still covers it and backoff is enabled |
| RateLimiterFacts.DelayClosedForm | src/utils/rateLimiter.js:187-203 | within the budget, the delay after n failures is min(d0 times multiplier to the n, ceiling), and the n-th failure backs off for the previous such delay |
| RateLimiterFacts.LimiterBackoffRun | src/utils/rateLimiter.js:157-204 | from a fresh cursor, failures 1 to maxRetries may retry with the closed-form delay, and every later one is refused |
| RateLimiterFacts.BackoffWaitBounded | src/utils/rateLimiter.js:187-193 | a failure that may retry never backs off longer than the endpoint's ceiling |
| RateLimiterFacts.SpacingAfterSuccess | src/utils/rateLimiter.js:88-91 | right after a success, a check at the same instant is refused when the spacing is positive |
| RateLimiterFacts.SuccessCountedInWindow | src/utils/rateLimiter.js:94-110 | a success is counted once more by the minute and hour windows of any check within the following minute |
| RateLimiterFacts.PerDayNeverResets | src/utils/rateLimiter.js:113-115 | checks, quota reports and failures leave the per-endpoint day count alone, and a success adds exactly one |
| RateLimiterFacts.DefaultBackoffScenario | src/config/rateLimits.js:22-30 | with shipped limits, a 429 on distance matrix refuses calls for 999 ms and admits one at exactly 1000 ms |
| RateLimiterFacts.StatusOfDependsOnOwnRecord | src/utils/rateLimiter.js:247-256 | an endpoint's snapshot depends only on its own record and the global counters |
| RateLimiterFacts.StatusLoopFinds | src/utils/rateLimiter.js:247-256 | the snapshot found for a listed endpoint equals its own check on the original state, despite earlier checks |
| RateLimiterFacts.EndpointStatusReportsOwnCheck | src/utils/rateLimiter.js:246-257 | for every configured endpoint the full snapshot holds the result of its own admission check |
| RateLimiterFacts.StatusLoopKeepsCounters | src/utils/rateLimiter.js:246-257 | taking the snapshot changes no spacing, day count, error log or backoff cursor of any endpoint |
| Store.Keys | src/utils/apiCache.js:152 | the keys of the map in insertion order |
| Store.Lookup | src/utils/apiCache.js:115 | get finds a value exactly when the key is present, and the value is stored under that key |
| Store.Remove | src/utils/apiCache.js:125 | delete drops the key and keeps every other entry |
| Store.Put | src/utils/apiCache.js:156-159 | set overwrites an existing key in place, keeping all positions, and appends a new key last |
| Store.PutBounded | src/utils/apiCache.js:147-159 | a new key into a map already at capacity first evicts the oldest entry; otherwise this is a plain set |
| Store.PutLookup | src/utils/apiCache.js:156-159 | after a set, a get of that key returns the value set |
| Store.PutLookupOther | src/utils/apiCache.js:156-159 | a set leaves every other key's value unchanged |
| Store.RemoveLookup | src/utils/apiCache.js:125 | after a delete, the key misses and every other key reads as before |
| Store.PutDistinct | src/utils/apiCache.js:156-159 | a set keeps every key once |
| Store.RemoveDistinct | src/utils/apiCache.js:125 | a delete keeps keys distinct and removes exactly one entry for a present key |
| Store.PutBoundedSpec | src/utils/apiCache.js:147-159 | the bounded set stores the value, keeps keys distinct, and never grows the map past its capacity |
| Store.EvictsOldest | src/utils/apiCache.js:147-154 | an eviction removes exactly the oldest key and leaves every other key's value |
| ApiCache.Empty | src/utils/apiCache.js:11-21 | a new cache has two empty maps |
| ApiCache.GenerateKey | src/utils/apiCache.js:26-32 | the key is the endpoint, origin and destination separated by bars, followed by a bar and the hour exactly when one is given |
| ApiCache.RouteKey | src/utils/apiCache.js:108-113 | the route key carries the hour iff traffic is part of the key |
| ApiCache.AutocompleteKey | src/utils/apiCache.js:37-39 | the `autocomplete` prefix and a bar, followed by a query part no longer than the query, without capital letters or surrounding white space |
| ApiCache.GenerateKeyInjective | src/utils/apiCache.js:26-32 | for parts without a bar, equal route keys mean the same endpoint, origin, destination and hour |
| ApiCache.HourBucketsDiffer | src/utils/apiCache.js:28-30 | the same route in two different hours has two different keys |
| ApiCache.AutocompleteKeyIgnoresPadding | src/utils/apiCache.js:37-39 | queries that differ only in surrounding white space share a key |
| ApiCache.AutocompleteKeyIgnoresCase | src/utils/apiCache.js:37-39 | queries that differ only in letter case share a key |
| ApiCache.ReadFresh | src/utils/apiCache.js:115-131 | a missing key misses; an entry older than the time-to-live misses and is deleted; a fresh one is returned unchanged |
| ApiCache.Get | src/utils/apiCache.js:105-132 | disabled, nothing is read or counted; enabled, the read is counted as exactly one hit or one miss and the autocomplete side is untouched |
| ApiCache.Set | src/utils/apiCache.js:137-162 | disabled, nothing changes; enabled, a bounded set under the route key, with the entry count following the map size |
| ApiCache.SetThenGet | src/utils/apiCache.js:105-162 | a stored route is served back as a hit in the same hour bucket up to and including the time-to-live |
| ApiCache.SetThenGetExpired | src/utils/apiCache.js:122-128 | once strictly more than the time-to-live has passed, the stored route misses and is deleted |
| ApiCache.GetCountsOnce | src/utils/apiCache.js:117-131 | every enabled read adds one to hits or to misses, never both |
| ApiCache.SetKeepsOthers | src/utils/apiCache.js:147-159 | storing a route leaves every other route's entry unless that entry is the one evicted |
| ApiCache.AutocompleteTtl | src/utils/apiCache.js:56 | the configured autocomplete time-to-live, or 24 hours when it is zero |
| ApiCache.AutocompleteCapacity | src/utils/apiCache.js:76 | the configured autocomplete capacity, or 200 when it is zero |
| ApiCache.GetAutocomplete | src/utils/apiCache.js:44-67 | disabled or with an empty query, nothing is read or counted; otherwise the normalised-key read, counted as a hit or a miss |
| ApiCache.SetAutocomplete | src/utils/apiCache.js:72-90 | disabled or with an empty query, nothing changes; otherwise a bounded set under the normalised key, with no counter touched |
| ApiCache.SetAutocompleteKeepsOthers | src/utils/apiCache.js:79-88 | storing one query keeps every other cached query, unless the map was full, the key new, and that query the oldest |
| ApiCache.SetAutocompleteEvictsOldest | src/utils/apiCache.js:79-82 | a full map given a new query drops its oldest entry and keeps its size |
| ApiCache.ClearAutocomplete | src/utils/apiCache.js:95-100 | empties the autocomplete map and zeroes its counters; the route side is untouched |
| ApiCache.SetThenGetAutocomplete | src/utils/apiCache.js:44-90 | results stored for a query are served for that query re-cased or padded within the autocomplete time-to-live |
| ApiCache.Clear | src/utils/apiCache.js:170-187 | with no endpoint, empties the route map and zeroes route counters; with a full route, deletes that route's entry under the key get and set use; autocomplete untouched |
| ApiCache.SetClearGet | src/utils/apiCache.js:170-187 | a route cleared in the hour it was stored misses on the next read |
| ApiCache.HitRatio | src/utils/apiCache.js:192-195 | 0 before any read; otherwise hits times 100 over all reads, between 0 and 100 |
| ApiCache.GetHitRatio | src/utils/apiCache.js:192-195 | the route hit ratio is hits·100/(hits+misses), so it lies between 0 and 100, and it is 0 before the first read |
| ApiCache.GetStats | src/utils/apiCache.js:200-212 | reports the counters unchanged, the route ratio of `getHitRatio`, the autocomplete ratio as autocomplete hits·100 over all autocomplete reads, and the autocomplete map size |
| ApiCacheAsWritten.Increment | src/utils/apiCache.js:52 | a number goes up by one; anything that is not a number (a missing counter or NaN) becomes NaN |
| ApiCacheAsWritten.ClearAllStats | src/utils/apiCache.js:175 | clearing installs zero route counters and drops both autocomplete counters |
| ApiCacheAsWritten.CountMisses | src/utils/apiCache.js:50-53 | counting misses leaves the hit counter as it was |
| ApiCacheAsWritten.AutocompleteHitRatio | src/utils/apiCache.js:201-204 | the ratio is a number exactly when both counters are numbers |
| ApiCacheAsWritten.ClearAllLosesAutocompleteCounters | src/utils/apiCache.js:170-176 | after clear, no number of misses restores the counter, and the reported autocomplete ratio is NaN from then on |
| ApiCacheAsWritten.ClearRoute | src/utils/apiCache.js:178-186 | clearing one route deletes only the entry under the key without the hour |
| ApiCacheAsWritten.ClearRouteKeepsStoredRoute | src/utils/apiCache.js:178-186 | with the hour in the key, clearing a stored route leaves it in place and the next read is a hit |
| ApiCacheAsWritten.ClearKeepsAutocompleteRatio | src/utils/apiCache.js:170-176 | the corrected clear leaves the autocomplete hit ratio unchanged |
| Text.TrimShape | src/hooks/useLocationAutocomplete.js:144 | the trimmed string occurs inside the original and neither starts nor ends with white space |
| Text.LowerTrimShape | src/utils/apiCache.js:38 | lower-casing then trimming gives no capitals, no surrounding white space, and no added length |
| Text.TrimIgnoresPadding | src/hooks/useLocationAutocomplete.js:144 | white space added around a string is removed again by trim |
| Text.ToLower | src/utils/apiCache.js:38 | lower-casing keeps the length and folds each letter |
| Text.ToLowerIdempotent | src/utils/apiCache.js:38 | lower-casing twice gives the same as once |
| Text.ToLowerTrim | src/utils/localLocations.js:102 | lower-casing and trimming commute |
| Text.Words | src/utils/localLocations.js:103 | the words of a split are non-empty and contain no white space |
| Text.NatToString | src/utils/formatters.js:48-51 | the rendering is non-empty decimal digits with no leading zero |
| Text.NatToStringRoundTrip | src/utils/formatters.js:48-51 | reading back the decimal rendering of a number gives the number |
| Text.NatToStringInjective | src/utils/apiCache.js:29 | different hours render as different key suffixes |
| Traffic.ClassifyMonotone | src/GoogleMapsComponent.jsx:219-229 | a larger traffic ratio never gives a lower level |
| Traffic.LevelOf | src/AiravatLFareCalculatorPreview.jsx:320-327 | Low iff the free-flow time is not positive or the ratio is below 1.1; High iff the ratio exceeds 1.3; Medium otherwise |
| Traffic.Classify | src/GoogleMapsComponent.jsx:219-229 | Low iff the ratio is below 1.1, High iff above 1.3, Medium iff in between |
| Traffic.NoDelayIsLow | src/AiravatLFareCalculatorPreview.jsx:320-324 | equal durations give Low |
| Traffic.LevelScaleFree | src/GoogleMapsComponent.jsx:211-229 | measuring both durations in another unit gives the same level |
| Traffic.LevelOfIsRatio | src/AiravatLFareCalculatorPreview.jsx:320-327 | with a positive free-flow time the level is the classification of the ratio |
| TrafficMap.Ceil | src/AiravatLFareCalculatorPreview.jsx:226 | the least integer not below the value |
| TrafficMap.Start | src/AiravatLFareCalculatorPreview.jsx:152-246 | an early exit touches neither service; a request is issued iff the call proceeds, the cache misses and the limiter admits it; a cache hit delivers the stored route without an admission check, reads the quota (rolling its windows over), stores that snapshot, clears the notice and shows the cache's hit ratio |
| TrafficMap.Deny | src/AiravatLFareCalculatorPreview.jsx:215-239 | a refusal keeps the cache and in-flight flag, and on the panel changes only the notice, the quota snapshot and possibly the pending retry; the quota shown is getQuotaInfo of the limiter before, and the limiter returned is that rolled-over state pruned by the endpoint status loop |
| TrafficMap.Summarise | src/AiravatLFareCalculatorPreview.jsx:305-329 | kilometres are metres over 1000, minutes are traffic seconds over 60 with the free-flow fallback, and the level uses the ratio |
| TrafficMap.Complete | src/AiravatLFareCalculatorPreview.jsx:261-354 | every exit clears in-flight; only a usable reply is cached, counted and emitted; on success the limiter is recordSuccess followed by the quota refresh, and the panel shows that quota; a throw, or an unusable element other than over-query-limit, leaves the limiter; over-query-limit records 429; an HTTP failure records the status (logging it and, if retryable, backing off), and when a retry is allowed the status loop then prunes the limiter |
| TrafficMap.DenialOutcome | src/AiravatLFareCalculatorPreview.jsx:215-239 | backed off: one retry replaces any pending one, due 100 ms after backoff; otherwise quota exceeded iff a critical flag is set, else rate limit reached |
| TrafficMap.StartDenies | src/AiravatLFareCalculatorPreview.jsx:215-240 | a refused call fetches nothing |
| TrafficMap.DenyReports | src/AiravatLFareCalculatorPreview.jsx:216-238 | the refusal's notice and retry are those of the endpoint record and quota before the check |
| TrafficMap.HttpFailureOutcome | src/AiravatLFareCalculatorPreview.jsx:264-285 | a failing status is logged against the endpoint with no success counted, and a retry is scheduled iff the limiter allows one with a positive delay: with no retry allowed, or a zero delay, the pending retry is left as it was |
| TrafficMap.NoRefetchAfterSuccess | src/AiravatLFareCalculatorPreview.jsx:183-189 | after a delivered route, the same trimmed labels do nothing |
| TrafficMap.CachedRouteServedWithoutLimiter | src/AiravatLFareCalculatorPreview.jsx:191-211 | a delivered route is served later from the cache within the time-to-live and hour, without an admission check |
| RouteMap.RunEffect | src/GoogleMapsComponent.jsx:82-175 | no request and no limiter call unless the route is new and nothing is in flight; a request goes out iff the limiter admits it; a refusal only shows a transient message |
| RouteMap.Parse | src/GoogleMapsComponent.jsx:204-231 | a leg parses iff it has a non-zero free-flow duration; kilometres, traffic minutes with fallback, and the ratio's level |
| RouteMap.Callback | src/GoogleMapsComponent.jsx:191-277 | an OK reply marks the route done before parsing; only a parsed route is reported and recorded as success; only over-query-limit records a 429 |
| RouteMap.StatusMessage | src/GoogleMapsComponent.jsx:255-273 | one message per failing status, each as an iff; any other status is shown by name |
| RouteMap.ParseFailureSticks | src/GoogleMapsComponent.jsx:196-253 | an OK reply without a usable leg reports nothing, yet the same route is not requested again |
| RouteMap.NoRefetchAfterSuccess | src/GoogleMapsComponent.jsx:117-126 | after an OK reply the same locations are not requested again |
| RouteMap.SameLevelAsPanel | src/GoogleMapsComponent.jsx:211-229 | the map's level from minutes equals the panel's level from seconds for the same durations |
| RouteEntry.CalculateRoute | src/pages/SmallVehicleCalculatorPage.jsx:70-78 | confirms iff the trimmed locations are non-empty and different; otherwise nothing changes |
| RouteEntry.NothingPendingInitially | src/pages/SmallVehicleCalculatorPage.jsx:80 | before any confirmation there is no unconfirmed change |
| RouteEntry.HasUnconfirmedChanges | src/pages/SmallVehicleCalculatorPage.jsx:80 | no hint without a confirmed route; with one, a hint iff a trimmed input differs from it |
| RouteEntry.ConfirmClearsChanges | src/pages/SmallVehicleCalculatorPage.jsx:70-80 | confirming clears the hint, which returns iff a trimmed input differs from the confirmed one |
| RouteEntry.PaddingIsNoChange | src/pages/SmallVehicleCalculatorPage.jsx:80 | white space typed around a confirmed location is not an unconfirmed change |
| RouteEntry.ConfirmedRouteIsTrimmed | src/pages/LargeVehicleCalculatorPage.jsx:64-70 | the confirmed route is trimmed, non-empty and distinct, so trimming again changes nothing |
| Constants.ODDistance | src/config/constants.js:51-54 | 0 for the same place; a non-zero result is the forward or the reverse entry; 0 iff same place or both entries missing or zero |
| Constants.ODDistanceSymmetric | src/config/constants.js:51-54 | over a symmetric table the distance does not depend on direction |
| Constants.ForwardEntryWins | src/config/constants.js:53 | a non-zero forward entry is the distance |
| Constants.ReverseEntryFallback | src/config/constants.js:53 | without a forward entry the reverse entry is the distance |
| Constants.ShippedTableSymmetric | src/config/constants.js:41-48 | the shipped table is symmetric and all its entries are positive |
| Constants.ShippedDistanceTabulated | src/config/constants.js:41-54 | between two tabulated places the shipped lookup gives the entry in both directions |
| VehicleTypes.FindIndex | src/config/vehicleTypes.js:23 | the position of the first vehicle with the id, and none iff no vehicle has it |
| VehicleTypes.GetVehicleById | src/config/vehicleTypes.js:22-23 | the first vehicle with the id; else the first vehicle; nothing iff the list is empty; always a listed vehicle |
| VehicleTypes.LookupListed | src/config/vehicleTypes.js:22-23 | with distinct ids, a listed vehicle's id gives that vehicle back |
| VehicleTypes.CatalogueWellFormed | src/config/vehicleTypes.js:7-10 | the shipped ids are distinct and every rate and mileage is positive |
| VehicleTypes.CatalogueLookupPositive | src/config/vehicleTypes.js:7-23 | every id yields a shipped vehicle with positive mileage |
| LargeVehicle.Compute | src/pages/LargeVehicleCalculatorPage.jsx:46-61 | no costs iff no vehicle can be read or the mileage in force is 0; otherwise overrides decide rate and mileage and every displayed figure keeps its cost relation, including litres, margin and amount |
| LargeVehicle.Derive | src/pages/LargeVehicleCalculatorPage.jsx:49-61 | distance is live plus extra; litres times mileage is the distance and fuel cost is litres at the fuel rate; fluid is 6% of fuel; driver is 1000 a day; the margin is its percentage of the total and the amount is total plus margin |
| LargeVehicle.FuelCostScales | src/pages/LargeVehicleCalculatorPage.jsx:54-55 | litres bought times mileage cover the distance at the fuel price |
| LargeVehicle.OverridesDecide | src/pages/LargeVehicleCalculatorPage.jsx:47-48 | with both overrides, neither the selected vehicle nor the catalogue matters |
| LargeVehicle.CatalogueFiguresUsed | src/pages/LargeVehicleCalculatorPage.jsx:46-48 | without overrides, the selected vehicle's own rate and mileage are used |
| LargeVehicle.CatalogueAlwaysPrices | src/pages/LargeVehicleCalculatorPage.jsx:46-61 | with the shipped catalogue, costs exist unless a zero mileage is typed |
| LargeVehicle.InitialTrip | src/pages/LargeVehicleCalculatorPage.jsx:20-35 | the starting form prices one day of the 12-ton truck with no distance |
| LargeVehicle.AmountMonotoneInDistance | src/pages/LargeVehicleCalculatorPage.jsx:49-61 | with positive mileage, non-negative fuel price and margin of at least -100%, more distance never lowers the amount |
| Fares.ODDistanceSymmetric | src/AiravatLFareCalculatorPreview.jsx:445-453 | over a symmetric table the page lookup does not depend on direction |
| Fares.ODDistanceTabulated | src/pages/SmallVehicleCalculatorPage.jsx:84-92 | a tabulated pair gives its entry in both directions |
| Fares.OdMatrixWellFormed | src/AiravatLFareCalculatorPreview.jsx:37-88 | the shipped table is symmetric and has a row for every selectable place |
| Fares.ODDistance | src/AiravatLFareCalculatorPreview.jsx:445-453 | 0 for an empty or repeated place or an origin without a row; a forward entry as it stands, zero included; any non-zero distance is a tabulated forward or reverse entry |
| Fares.EffectiveKm | src/AiravatLFareCalculatorPreview.jsx:457 | a positive live distance, else a non-zero tabulated distance, else the manual kilometres |
| Fares.BaseFare | src/AiravatLFareCalculatorPreview.jsx:459-460 | the vehicle's own base fare when listed, else the general one |
| Fares.Multiplier | src/AiravatLFareCalculatorPreview.jsx:469-471 | a table's factor for a key, or 1 for a missing key or a zero entry |
| Fares.LiveDistanceWins | src/AiravatLFareCalculatorPreview.jsx:457 | a positive live distance overrides the table and the manual entry |
| Fares.TableBeatsManual | src/pages/SmallVehicleCalculatorPage.jsx:96 | without a live distance, a non-zero table distance overrides the manual entry |
| Fares.Fare | src/AiravatLFareCalculatorPreview.jsx:455-476 | the fare uses the distance precedence, shows the vehicle's base fare, applies the three multipliers to the subtotal, and the commission is the rate times that amount, added to give the final fare |
| Fares.FinalFareFormula | src/pages/SmallVehicleCalculatorPage.jsx:98-110 | on both pages the fare is the subtotal times the three factors times 1.15 |
| Fares.FareShape | src/AiravatLFareCalculatorPreview.jsx:459-476 | the fare is the subtotal times the three factors times one plus the commission rate |
| Fares.UnknownKeysNeutral | src/AiravatLFareCalculatorPreview.jsx:459-471 | unknown vehicle, traffic and condition names price at base fare 200 with all factors 1 |
| Fares.ReportedLevelsPriced | src/pages/SmallVehicleCalculatorPage.jsx:18 | every level the map reports names a traffic table row on both pages |
| Fares.ShippedTablesPositive | src/pages/SmallVehicleCalculatorPage.jsx:12-41 | every shipped factor is positive |
| Fares.FareMonotoneInDistance | src/AiravatLFareCalculatorPreview.jsx:455-476 | with positive factors and non-negative rates, a longer live distance never gives a lower fare |
| Fares.OnDistanceCalculated | src/AiravatLFareCalculatorPreview.jsx:703-715 | the reported distance and duration replace the old ones; traffic follows the map unless locked |
| Fares.LiveReportPrices | src/AiravatLFareCalculatorPreview.jsx:703-715 | after a positive report the fare uses that distance and, unless locked, the reported level's factor |
| Formatters.Round | src/utils/formatters.js:48 | the nearest integer, with halves rounded up |
| Formatters.PartsAsWritten | src/utils/formatters.js:46-52 | as written: 0 for a falsy duration; the parts total the rounded minutes; hours from the floor and minutes up to 60 |
| Formatters.SixtyMinutesShown | src/utils/formatters.js:49-51 | as written, 119.5 minutes show as "1h 60m" |
| Formatters.Parts | src/utils/formatters.js:46-52 | corrected: the parts total the rounded minutes and the minutes part stays below 60 |
| Formatters.FormatDurationAsWritten | src/utils/formatters.js:46-52 | as written: "0 min" when falsy, rounded minutes under an hour, else whole hours then the remainder rounded on its own |
| Formatters.FormatDuration | src/utils/formatters.js:46-52 | corrected: "0 min" when falsy, rounded minutes under an hour, else the rounded total split into hours and minutes |
| Formatters.CorrectionOnlyCarries | src/utils/formatters.js:49-51 | the correction differs only when the minutes round to 60, and then shows the next whole hour |
| Formatters.TwoHoursShown | src/utils/formatters.js:49-51 | corrected, 119.5 minutes show as "2h" |
| Formatters.FalsyIsZero | src/utils/formatters.js:47 | a missing, NaN or zero duration shows as "0 min" |
| LocalLocations.BaseScore | src/utils/localLocations.js:111-126 | exact name 100, else prefix 80, else contained in the name 60, else in the address 40, else 0, each as an iff |
| LocalLocations.Normalize | src/utils/localLocations.js:102 | the matched query has no capitals and no surrounding white space, and is no longer than the query |
| LocalLocations.ScorePositive | src/utils/localLocations.js:106-137 | an entry scores iff the query or one of its long words occurs in the lower-cased name or address; an exact name scores at least 100 |
| LocalLocations.WordBonus | src/utils/localLocations.js:129-134 | at most 15 per word, and 0 iff no word of 3 or more characters occurs in the name or the address |
| LocalLocations.ScoreAll | src/utils/localLocations.js:106-137 | every catalogue entry with its position and its score, in catalogue order |
| LocalLocations.Positive | src/utils/localLocations.js:141 | keeps exactly the entries with a positive score, in order |
| LocalLocations.Insert | src/utils/localLocations.js:142 | one insertion step of the sort adds exactly the new entry |
| LocalLocations.InsertRanked | src/utils/localLocations.js:142 | inserting a later catalogue entry keeps a ranked list ranked |
| LocalLocations.SortByScore | src/utils/localLocations.js:142 | the sort is a permutation |
| LocalLocations.SortRanks | src/utils/localLocations.js:142 | the stable sort gives non-increasing scores with ties in catalogue order |
| LocalLocations.Select | src/utils/localLocations.js:140-143 | at most the limit, ranked, all entries positive |
| LocalLocations.SelectComplete | src/utils/localLocations.js:140-143 | a positive entry left out means the result is full and every kept entry ranks before it |
| LocalLocations.Top | src/utils/localLocations.js:106-143 | at most the limit, ranked, each with the score of its catalogue entry |
| LocalLocations.Search | src/utils/localLocations.js:97-145 | empty below two characters; at most the limit; catalogue entries with positive score in non-increasing score order; otherwise exactly the entries of the ranked selection Top, so ties keep catalogue order |
| LocalLocations.SearchIsComplete | src/utils/localLocations.js:139-145 | a positively scoring catalogue entry is returned, or the result is full of entries scoring at least as much |
| LocalLocations.SearchLocalLocations | src/utils/localLocations.js:97-145 | over the application's catalogue: empty below two characters, at most the limit, every entry scoring |
| LocalLocations.TopIsComplete | src/utils/localLocations.js:140-143 | no matching entry is missed unless the result is full of entries ranked before it |
| LocalLocations.NormalizeIgnoresCaseAndPadding | src/utils/localLocations.js:102 | the normalised query ignores case and surrounding white space |
| LocalLocations.SearchIgnoresCaseAndPadding | src/utils/localLocations.js:97-145 | for queries of two or more characters the search ignores case and surrounding white space |
| LocalLocations.GetLocationIcon | src/utils/localLocations.js:152-164 | the kind's icon, or the default for an unknown kind |
| LocalLocations.AreaIconIsDefault | src/utils/localLocations.js:153-162 | areas share the default pin, and every other kind has its own icon |
| Autocomplete.TagAll | src/hooks/useLocationAutocomplete.js:158 | each catalogue entry becomes a local suggestion with its name, address and kind |
| Autocomplete.Dedup | src/hooks/useLocationAutocomplete.js:229-245 | keeps the first entry of every key not already seen; the result has distinct keys, exactly the new keys |
| Autocomplete.Merge | src/hooks/useLocationAutocomplete.js:225-248 | at most the limit, with no two entries sharing a lower-cased name |
| Autocomplete.DedupConcat | src/hooks/useLocationAutocomplete.js:229-245 | deduplicating two parts equals deduplicating the second against the first part's keys |
| Autocomplete.Take | src/hooks/useLocationAutocomplete.js:247 | the first n entries, or all when there are fewer |
| Autocomplete.DedupInto | src/hooks/useLocationAutocomplete.js:229-245 | one loop of the merge adds the new keys to the seen set and appends the deduplicated entries |
| Autocomplete.MergeResults | src/hooks/useLocationAutocomplete.js:225-248 | the two loops and the cut compute the reference merge |
| Autocomplete.MergeShape | src/hooks/useLocationAutocomplete.js:225-248 | at most the limit; distinct lower-cased names, each first of its name; tagged catalogue entries before unchanged provider entries |
| Autocomplete.MergeComplete | src/hooks/useLocationAutocomplete.js:225-248 | every name offered by either source appears unless the merge is full |
| Autocomplete.Convert | src/hooks/useLocationAutocomplete.js:113-119 | as many suggestions as the smaller of the prediction count and the limit, the i-th converted from the i-th prediction and marked as a provider result |
| Autocomplete.FromPrediction | src/hooks/useLocationAutocomplete.js:113-119 | named by the main text when it is non-empty, else by the description; address, place id and provider tag from the prediction |
| Autocomplete.ShowLocal | src/hooks/useLocationAutocomplete.js:158-159 | shows the tagged catalogue results under the local source and changes nothing else |
| Autocomplete.Deliver | src/hooks/useLocationAutocomplete.js:185-211 | non-empty results are cached and merged; otherwise local results stay or the list empties; loading stops |
| Autocomplete.PerformSearch | src/hooks/useLocationAutocomplete.js:142-220 | same trimmed query does nothing; a full local list skips cache and limiter; a cache hit skips the limiter; a request needs the provider and the limiter; without the provider the tagged catalogue results are shown as local; after a refusal the catalogue results stay or the list empties |
| Autocomplete.FinishSearch | src/hooks/useLocationAutocomplete.js:107-211 | loading stops; only a non-empty OK answer is cached and merged; OK with predictions records success; over-query-limit records 429; an answer bringing no results keeps the catalogue results or empties the list; a throw records nothing |
| Autocomplete.SearchTwiceIsNoOp | src/hooks/useLocationAutocomplete.js:144-150 | searching again for the same query, padded or not, does nothing |
| Autocomplete.NoSearchAfterReply | src/hooks/useLocationAutocomplete.js:147-150 | after the reply, the same query still does nothing |
| Autocomplete.FetchedResultsServedFromCache | src/hooks/useLocationAutocomplete.js:169-194 | fetched results are served later from the cache within the time-to-live, merged the same way, without the limiter |
| Autocomplete.HandleInputChange | src/hooks/useLocationAutocomplete.js:254-288 | records the value and clears the error; below the minimum empties the list and schedules nothing; else may show local results and schedules the value |
| Autocomplete.ShortInputNeverSearched | src/hooks/useLocationAutocomplete.js:18-26 | with the shipped minimum of five characters, shorter input is never searched and empties the list |
| Autocomplete.HandleSelect | src/hooks/useLocationAutocomplete.js:293-308 | the input takes the full address, else the name, and the list empties |
| Autocomplete.ClearSuggestions | src/hooks/useLocationAutocomplete.js:313-317 | the list, source and error go; query and loading stay |
| Autocomplete.Reset | src/hooks/useLocationAutocomplete.js:322-334 | back to empty query, list, loading, error, source and last query |
| Autocomplete.ResetReopensSearch | src/hooks/useLocationAutocomplete.js:322-334 | after a reset any non-blank query is searched again |
| LocationInput.ArrowsStayInRange | src/components/LocationAutocomplete.jsx:93-103 | from none or a suggestion, either arrow lands on a suggestion |
| LocationInput.Down | src/components/LocationAutocomplete.jsx:93-98 | the next index, wrapping from the last to the first; from none or a suggestion it lands on a suggestion |
| LocationInput.Up | src/components/LocationAutocomplete.jsx:99-104 | the previous index, wrapping from the first (or none) to the last; from none or a suggestion it lands on a suggestion |
| LocationInput.ArrowsFromNothing | src/components/LocationAutocomplete.jsx:93-103 | from none, ArrowDown picks the first and ArrowUp the last |
| LocationInput.ArrowsInverse | src/components/LocationAutocomplete.jsx:93-103 | ArrowUp undoes ArrowDown and the reverse |
| LocationInput.DownCycles | src/components/LocationAutocomplete.jsx:93-97 | k ArrowDown presses move the index to (i + k) mod n |
| LocationInput.StaleIndexStaysOut | src/components/LocationAutocomplete.jsx:93-103 | from past the end, ArrowUp stays past the end and ArrowDown goes to the first |
| LocationInput.Highlighted | src/components/LocationAutocomplete.jsx:105-109 | a suggestion iff the index names one, and then that suggestion |
| LocationInput.Choose | src/components/LocationAutocomplete.jsx:75-85 | selects through the hook, closes the dropdown and clears the highlight |
| LocationInput.HandleKeyDown | src/components/LocationAutocomplete.jsx:88-121 | nothing unless focused with suggestions; ArrowDown moves to the next index and ArrowUp to the previous, wrapping, within range; Enter selects iff an index names a suggestion; Escape closes and clears |
| LocationInput.ArrowsModular | src/components/LocationAutocomplete.jsx:93-102 | on a valid index ArrowDown is i+1 mod n and ArrowUp is i-1 mod n |
| LocationInput.ArrowKeysWrap | src/components/LocationAutocomplete.jsx:88-102 | with the dropdown open on a valid index, the handler moves the highlight to (i+1) mod n or (i-1) mod n and changes nothing else |
| LocationInput.HandleChange | src/components/LocationAutocomplete.jsx:64-72 | the hook's input handler runs and the highlight resets |
| LocationInput.ClickOutside | src/components/LocationAutocomplete.jsx:52-61 | a press outside unfocuses and clears the highlight |
| LocationInput.ShowDropdown | src/components/LocationAutocomplete.jsx:162 | shown only while focused; always when focused with suggestions; never with no suggestions, no search and no error |
| LocationInput.KeysKeepIndexSane | src/components/LocationAutocomplete.jsx:88-121 | every key keeps the highlight none or on a suggestion |
| LocationInput.ClosedAfterEscapeOrSelection | src/components/LocationAutocomplete.jsx:105-114 | after Escape or a selection the dropdown is not shown |

## Left out

- Rendering, styling, animation and map drawing (renderer, markers, bounds, traffic layer): presentation only.
- `fetch`, URL building, and the Google Maps and Places SDKs (session tokens, location bias, script loading) are foreign I/O. Their replies are inputs. The Places service check is the single flag `placesLoaded`.
- Timers (retry, debounce and message-clearing `setTimeout`s) are not run. The model keeps the delay each would fire after, and whether it replaces a pending one. The value-to-query sync effect of the input is left out too.
- `getNextMidnight`, `getNextMonthStart` and `getHours` are local-time calendar code. Their values are parameters.
- `logMetrics`, console output and the logging half of `checkQuotaWarnings`: side effects with no state. The rollover it triggers is modelled inside `RecordSuccess`.
- The unused `requestQueue` and `isProcessingQueue` fields of the limiter.
- `toFixed`, `Intl.NumberFormat` (`formatINR`, `inr`), `formatDistance`, and `toNumber`/`Number()` coercion: library number formatting. Percentages, ratios and fares are exact `real` values, and a field that may be non-numeric is an `Option`.
- JavaScript floating point, `Infinity` and `NaN` in arithmetic. The exception is the NaN counter in Findings.
- Messages are enumerations, not their text. Thrown error messages are reduced to the fact of the throw.
- The panel's `cacheHitRate` and `quotaInfo` display state beyond the quota snapshot. The component-wide `directionsApiCallCount` is kept only as a per-view counter.
- Authentication, routing, bootstrap and the common UI components: outside the calculator's logic.
- React re-render timing, hook dependency lists and real concurrency. The in-flight guards are plain booleans.
- Text.ToLower: folds the ASCII letters only. JavaScript's `toLowerCase` also folds other Unicode letters.
- LocalLocations.GetLocationIcon: keys inherited from `Object.prototype` (such as `"constructor"`) are treated as unknown kinds. In the code they would return a function.
- ApiCache.GetHitRatio: returns the exact percentage, not the one-decimal string of `toFixed(1)`.
- RateLimiter.Window: `percentUsed` is the exact percentage, not the one-decimal string.
- LargeVehicle.Compute: a zero mileage gives no costs. The page would show `Infinity` or `NaN`.
- LocalLocations.Search: the two-character gate counts Unicode scalar values (`|s|` of a Dafny string), whereas JavaScript's `length` counts UTF-16 code units. A character outside the Basic Multilingual Plane, such as a single emoji, has length 2 in JavaScript and passes the gate there, but the model returns nothing for it.
- Autocomplete.HandleInputChange: the `minChars` threshold counts scalar values, not UTF-16 code units, so input with characters outside the Basic Multilingual Plane can be searched in JavaScript while the model still calls it short.
- LocalLocations.WordBonus: the three-character word length counts scalar values, not UTF-16 code units, so a shorter word made of characters outside the Basic Multilingual Plane earns the bonus only in JavaScript.

## Findings

| source | as written | input that shows it | evidently intended | confidence | as-written member | corrected member |
|---|---|---|---|---|---|---|
| src/utils/formatters.js:49-51 | the minutes part is the remainder rounded on its own, so it can round up to 60 without carrying into the hours | `formatDuration(119.5)` gives "1h 60m" | round the whole duration first, then split, giving "2h" | high, not executed | Formatters.SixtyMinutesShown | Formatters.CorrectionOnlyCarries |
| src/utils/apiCache.js:175 | `clear()` replaces the statistics object with one that lacks the autocomplete counters, which then become `undefined` and `NaN` | `clear()` then one autocomplete miss: `autocompleteMisses` is NaN and the reported autocomplete hit ratio is "NaN%" | reset the route counters only and keep the autocomplete counters | high, not executed | ApiCacheAsWritten.ClearAllLosesAutocompleteCounters | ApiCacheAsWritten.ClearKeepsAutocompleteRatio |
| src/utils/apiCache.js:180 | `clear(endpoint, origin, destination)` builds its key without the hour, but `get` and `set` add the hour when `includeTrafficInKey` is set, as shipped | `set("distanceMatrix", "A", "B", x)` then `clear("distanceMatrix", "A", "B")` then `get(...)` in the same hour returns `x` | delete the entry under the key `get` and `set` use | high, not executed | ApiCacheAsWritten.ClearRouteKeepsStoredRoute | ApiCache.SetClearGet |
