/**
 * The response cache: a route cache keyed by endpoint, origin, destination
 * and (optionally) the hour of day, with a time-to-live and FIFO eviction;
 * a separate autocomplete cache keyed by the normalised query; and the
 * hit/miss counters both report.
 *
 * The clock is a parameter: `now` is the current instant in milliseconds and
 * `hour` the local hour of day at that instant.
 */
module ApiCache {
  import opened Wrappers
  import opened Text
  import opened Store
  import opened RateLimits

  /** A cached value and the instant it was stored. */
  datatype Entry<D> = Entry(data: D, timestamp: int)

  datatype Stats = Stats(hits: nat, misses: nat, entries: nat, autocompleteHits: nat, autocompleteMisses: nat)

  /** Both maps and the counters; `D` is a route response, `A` a list of autocomplete results. */
  datatype Cache<D, A> = Cache(main: Entries<Entry<D>>, autocomplete: Entries<Entry<A>>, stats: Stats)

  /** A cache after a read, and what the read returned (`null` is `None`). */
  datatype Fetched<D, A, X> = Fetched(cache: Cache<D, A>, value: Option<X>)

  /** The statistics report. */
  datatype StatsReport = StatsReport(
    stats: Stats,
    hitRatio: real,
    autocompleteHitRatio: real,
    autocompleteCacheSize: nat)

  /** Fallbacks applied when the configured autocomplete values are zero. */
  const DEFAULT_AUTOCOMPLETE_TTL_MS: int := 86400000
  const DEFAULT_MAX_AUTOCOMPLETE_ENTRIES: int := 200

  predicate Valid<D, A>(c: Cache<D, A>) {
    DistinctKeys(c.main) && DistinctKeys(c.autocomplete)
  }

  function Empty<D, A>(): (c: Cache<D, A>)
    ensures Valid(c) && c.main == [] && c.autocomplete == []
  {
    Cache([], [], Stats(0, 0, 0, 0, 0))
  }

  // ---------------------------------------------------------------- keys

  /** `endpoint|origin|destination`, followed by `|hour` when the hour is part of the key. */
  function GenerateKey(endpoint: string, origin: string, destination: string, hour: Option<nat>): (k: string)
    ensures |k| >= |endpoint| + |origin| + |destination| + 2
    ensures k[..|endpoint|] == endpoint && k[|endpoint|] == '|'
    ensures k[|endpoint| + 1..|endpoint| + 1 + |origin|] == origin && k[|endpoint| + 1 + |origin|] == '|'
    ensures hour.None? ==> k[|endpoint| + |origin| + 2..] == destination
    ensures hour.Some? ==> k[|endpoint| + |origin| + 2..] == destination + "|" + NatToString(hour.value)
  {
    var base := endpoint + "|" + origin + "|" + destination;
    if hour.Some? then base + "|" + NatToString(hour.value) else base
  }

  /** The key the route cache uses under the given settings at the given hour: the hour is in it iff traffic is. */
  function RouteKey(cc: CacheConfig, endpoint: string, origin: string, destination: string, hour: nat): (k: string)
    ensures !cc.includeTrafficInKey ==> k == endpoint + "|" + origin + "|" + destination
    ensures cc.includeTrafficInKey ==> k == endpoint + "|" + origin + "|" + destination + "|" + NatToString(hour)
  {
    GenerateKey(endpoint, origin, destination, if cc.includeTrafficInKey then Some(hour) else None)
  }

  /** `autocomplete|` followed by the lower-cased, trimmed query. */
  function AutocompleteKey(query: string): (k: string)
    ensures 13 <= |k| <= 13 + |query| && k[..13] == "autocomplete|"
    ensures NoCapitals(k[13..])
    ensures Unpadded(k[13..])
  {
    LowerTrimShape(query);
    "autocomplete|" + Trim(ToLower(query))
  }

  /** In `a|x` with no bar in `a`, the first bar sits right after `a`. */
  lemma FirstBar(a: string, x: string)
    requires '|' !in a
    ensures (a + "|" + x)[|a|] == '|'
    ensures forall i :: 0 <= i < |a| ==> (a + "|" + x)[i] != '|'
  {
  }

  /** Two strings joined by a bar split back into the same halves when neither left half has a bar. */
  lemma SplitAtBar(a: string, x: string, b: string, y: string)
    requires '|' !in a && '|' !in b
    requires a + "|" + x == b + "|" + y
    ensures a == b && x == y
  {
    var s := a + "|" + x;
    FirstBar(a, x);
    FirstBar(b, y);
    assert |a| == |b|;
    assert a == s[..|a|] && b == (b + "|" + y)[..|b|];
    assert x == s[|a| + 1..] && y == (b + "|" + y)[|b| + 1..];
  }

  /** The part of a route key after the endpoint and its bar. */
  function KeyTail(origin: string, destination: string, hour: Option<nat>): string {
    origin + "|" + destination + (if hour.Some? then "|" + NatToString(hour.value) else "")
  }

  lemma KeyShape(e: string, o: string, d: string, h: Option<nat>)
    ensures GenerateKey(e, o, d, h) == e + "|" + KeyTail(o, d, h)
    ensures KeyTail(o, d, h) == o + "|" + (d + (if h.Some? then "|" + NatToString(h.value) else ""))
  {
  }

  /**
   * Route keys identify the request: when endpoint, origin and destination
   * contain no bar, equal keys mean the same request in the same hour bucket.
   */
  lemma GenerateKeyInjective(e: string, o: string, d: string, h: Option<nat>,
                             e': string, o': string, d': string, h': Option<nat>)
    requires '|' !in e && '|' !in o && '|' !in d && '|' !in e' && '|' !in o' && '|' !in d'
    requires h.Some? == h'.Some?
    requires GenerateKey(e, o, d, h) == GenerateKey(e', o', d', h')
    ensures e == e' && o == o' && d == d' && h == h'
  {
    KeyShape(e, o, d, h);
    KeyShape(e', o', d', h');
    SplitAtBar(e, KeyTail(o, d, h), e', KeyTail(o', d', h'));
    var t := d + (if h.Some? then "|" + NatToString(h.value) else "");
    var t' := d' + (if h'.Some? then "|" + NatToString(h'.value) else "");
    SplitAtBar(o, t, o', t');
    if h.Some? {
      assert t == d + "|" + NatToString(h.value);
      assert t' == d' + "|" + NatToString(h'.value);
      SplitAtBar(d, NatToString(h.value), d', NatToString(h'.value));
      NatToStringInjective(h.value, h'.value);
    } else {
      assert t == d && t' == d';
    }
  }

  /** The same route in two different hours is cached under two different keys. */
  lemma HourBucketsDiffer(e: string, o: string, d: string, h1: nat, h2: nat)
    requires '|' !in e && '|' !in o && '|' !in d
    requires h1 != h2
    ensures GenerateKey(e, o, d, Some(h1)) != GenerateKey(e, o, d, Some(h2))
  {
    if GenerateKey(e, o, d, Some(h1)) == GenerateKey(e, o, d, Some(h2)) {
      GenerateKeyInjective(e, o, d, Some(h1), e, o, d, Some(h2));
    }
  }

  /** Lower-casing distributes over concatenation. */
  lemma ToLowerConcat(a: string, b: string)
    ensures ToLower(a + b) == ToLower(a) + ToLower(b)
  {
  }

  /** Lower-casing white space leaves it white space. */
  lemma ToLowerSpaces(s: string)
    requires forall i :: 0 <= i < |s| ==> IsSpace(s[i])
    ensures ToLower(s) == s
  {
  }

  /** Queries that differ only in surrounding white space share a cache entry. */
  lemma AutocompleteKeyIgnoresPadding(pre: string, q: string, post: string)
    requires forall i :: 0 <= i < |pre| ==> IsSpace(pre[i])
    requires forall i :: 0 <= i < |post| ==> IsSpace(post[i])
    ensures AutocompleteKey(pre + q + post) == AutocompleteKey(q)
  {
    ToLowerConcat(pre + q, post);
    ToLowerConcat(pre, q);
    ToLowerSpaces(pre);
    ToLowerSpaces(post);
    TrimIgnoresPadding(pre, ToLower(q), post);
  }

  /** Queries that differ only in letter case share a cache entry. */
  lemma AutocompleteKeyIgnoresCase(q: string)
    ensures AutocompleteKey(ToLower(q)) == AutocompleteKey(q)
  {
    ToLowerIdempotent(q);
  }

  // ---------------------------------------------------------------- route cache

  /** An entry stored at `timestamp` is stale at `now` once strictly more than `ttl` has passed. */
  predicate Expired<D>(en: Entry<D>, now: int, ttl: int) {
    now - en.timestamp > ttl
  }

  /**
   * The read both maps share: a missing key misses; an entry past its
   * time-to-live misses and is deleted; a fresh entry is returned.
   */
  function ReadFresh<X>(m: Entries<Entry<X>>, key: string, ttl: int, now: int): (r: (Entries<Entry<X>>, Option<X>))
    requires DistinctKeys(m)
    ensures DistinctKeys(r.0)
    ensures Lookup(m, key).None? ==> r == (m, None)
    ensures Lookup(m, key).Some? && Expired(Lookup(m, key).value, now, ttl) ==>
      r.1 == None && r.0 == Remove(m, key) && Lookup(r.0, key) == None
    ensures Lookup(m, key).Some? && !Expired(Lookup(m, key).value, now, ttl) ==>
      r == (m, Some(Lookup(m, key).value.data))
  {
    match Lookup(m, key)
    case None => (m, None)
    case Some(en) =>
      if now - en.timestamp > ttl then
        RemoveDistinct(m, key);
        RemoveLookup(m, key, key);
        (Remove(m, key), None)
      else (m, Some(en.data))
  }

  /** `get(endpoint, origin, destination)`: a read of the route map, counted as a hit or a miss. */
  function Get<D, A>(cc: CacheConfig, c: Cache<D, A>, endpoint: string, origin: string, destination: string,
                     hour: nat, now: int): (r: Fetched<D, A, D>)
    requires Valid(c)
    ensures Valid(r.cache)
    ensures r.cache.autocomplete == c.autocomplete
    ensures !cc.enabled ==> r == Fetched(c, None)
    ensures cc.enabled ==>
      var read := ReadFresh(c.main, RouteKey(cc, endpoint, origin, destination, hour), cc.ttlMs, now);
      && r.cache.main == read.0 && r.value == read.1
      && r.cache.stats == if read.1.Some? then c.stats.(hits := c.stats.hits + 1)
                          else c.stats.(misses := c.stats.misses + 1)
  {
    if !cc.enabled then Fetched(c, None)
    else
      var read := ReadFresh(c.main, RouteKey(cc, endpoint, origin, destination, hour), cc.ttlMs, now);
      var stats := if read.1.Some? then c.stats.(hits := c.stats.hits + 1) else c.stats.(misses := c.stats.misses + 1);
      Fetched(c.(main := read.0, stats := stats), read.1)
  }

  /** `set(endpoint, origin, destination, data)`: the bounded insert, then the entry count. */
  function Set<D, A>(cc: CacheConfig, c: Cache<D, A>, endpoint: string, origin: string, destination: string,
                     data: D, hour: nat, now: int): (r: Cache<D, A>)
    requires Valid(c)
    ensures Valid(r)
    ensures r.autocomplete == c.autocomplete
    ensures !cc.enabled ==> r == c
    ensures cc.enabled ==>
      && Lookup(r.main, RouteKey(cc, endpoint, origin, destination, hour)) == Some(Entry(data, now))
      && r.stats == c.stats.(entries := |r.main|)
      && |r.main| <= |c.main| + 1
      && (1 <= cc.maxEntriesPerEndpoint && |c.main| <= cc.maxEntriesPerEndpoint ==>
            |r.main| <= cc.maxEntriesPerEndpoint)
  {
    if !cc.enabled then c
    else
      var key := RouteKey(cc, endpoint, origin, destination, hour);
      var main := PutBounded(c.main, key, Entry(data, now), cc.maxEntriesPerEndpoint);
      PutBoundedSpec(c.main, key, Entry(data, now), cc.maxEntriesPerEndpoint);
      c.(main := main, stats := c.stats.(entries := |main|))
  }

  /** A stored response is served back, as a hit, until its time-to-live has passed. */
  lemma SetThenGet<D, A>(cc: CacheConfig, c: Cache<D, A>, endpoint: string, origin: string, destination: string,
                         data: D, hour: nat, now: int, later: int)
    requires Valid(c) && cc.enabled
    requires later - now <= cc.ttlMs
    ensures var r := Get(cc, Set(cc, c, endpoint, origin, destination, data, hour, now),
                         endpoint, origin, destination, hour, later);
      r.value == Some(data) && r.cache.stats.hits == c.stats.hits + 1
  {
  }

  /** Once its time-to-live has passed, a stored response is a miss and is dropped. */
  lemma SetThenGetExpired<D, A>(cc: CacheConfig, c: Cache<D, A>, endpoint: string, origin: string,
                                destination: string, data: D, hour: nat, now: int, later: int)
    requires Valid(c) && cc.enabled
    requires later - now > cc.ttlMs
    ensures var r := Get(cc, Set(cc, c, endpoint, origin, destination, data, hour, now),
                         endpoint, origin, destination, hour, later);
      && r.value == None
      && Lookup(r.cache.main, RouteKey(cc, endpoint, origin, destination, hour)) == None
  {
    var key := RouteKey(cc, endpoint, origin, destination, hour);
    var c1 := Set(cc, c, endpoint, origin, destination, data, hour, now);
    RemoveLookup(c1.main, key, key);
  }

  /** Every enabled read counts exactly once, as a hit or as a miss. */
  lemma GetCountsOnce<D, A>(cc: CacheConfig, c: Cache<D, A>, endpoint: string, origin: string,
                            destination: string, hour: nat, now: int)
    requires Valid(c) && cc.enabled
    ensures var r := Get(cc, c, endpoint, origin, destination, hour, now);
      && r.cache.stats.hits + r.cache.stats.misses == c.stats.hits + c.stats.misses + 1
      && (r.value.Some? <==> r.cache.stats.hits == c.stats.hits + 1)
  {
  }

  /** Storing a route leaves every other route's cached response as it was, unless it is evicted. */
  lemma SetKeepsOthers<D, A>(cc: CacheConfig, c: Cache<D, A>, endpoint: string, origin: string,
                             destination: string, data: D, hour: nat, now: int, other: string)
    requires Valid(c) && cc.enabled
    requires other != RouteKey(cc, endpoint, origin, destination, hour)
    requires |c.main| < cc.maxEntriesPerEndpoint || c.main == [] || other != c.main[0].0
    ensures Lookup(Set(cc, c, endpoint, origin, destination, data, hour, now).main, other) == Lookup(c.main, other)
  {
    var key := RouteKey(cc, endpoint, origin, destination, hour);
    if |c.main| >= cc.maxEntriesPerEndpoint && !HasKey(c.main, key) && c.main != [] {
      EvictsOldest(c.main, key, Entry(data, now), cc.maxEntriesPerEndpoint, other);
    } else {
      PutLookupOther(c.main, key, Entry(data, now), other);
    }
  }

  // ---------------------------------------------------------------- autocomplete cache

  /** The configured autocomplete time-to-live, or the default when it is zero. */
  function AutocompleteTtl(cc: CacheConfig): (ttl: int)
    ensures cc.autocompleteTtlMs != 0 ==> ttl == cc.autocompleteTtlMs
    ensures cc.autocompleteTtlMs == 0 ==> ttl == DEFAULT_AUTOCOMPLETE_TTL_MS
  {
    if cc.autocompleteTtlMs != 0 then cc.autocompleteTtlMs else DEFAULT_AUTOCOMPLETE_TTL_MS
  }

  /** The configured autocomplete capacity, or the default when it is zero. */
  function AutocompleteCapacity(cc: CacheConfig): (cap: int)
    ensures cc.maxAutocompleteEntries != 0 ==> cap == cc.maxAutocompleteEntries
    ensures cc.maxAutocompleteEntries == 0 ==> cap == DEFAULT_MAX_AUTOCOMPLETE_ENTRIES
  {
    if cc.maxAutocompleteEntries != 0 then cc.maxAutocompleteEntries else DEFAULT_MAX_AUTOCOMPLETE_ENTRIES
  }

  /** `getAutocomplete(query)`: an empty query is neither looked up nor counted. */
  function GetAutocomplete<D, A>(cc: CacheConfig, c: Cache<D, A>, query: string, now: int): (r: Fetched<D, A, A>)
    requires Valid(c)
    ensures Valid(r.cache)
    ensures r.cache.main == c.main
    ensures !cc.enabled || query == [] ==> r == Fetched(c, None)
    ensures cc.enabled && query != [] ==>
      var read := ReadFresh(c.autocomplete, AutocompleteKey(query), AutocompleteTtl(cc), now);
      var st := c.stats;
      && r.cache.autocomplete == read.0 && r.value == read.1
      && r.cache.stats == if read.1.Some? then st.(autocompleteHits := st.autocompleteHits + 1)
                          else st.(autocompleteMisses := st.autocompleteMisses + 1)
  {
    if !cc.enabled || query == [] then Fetched(c, None)
    else
      var read := ReadFresh(c.autocomplete, AutocompleteKey(query), AutocompleteTtl(cc), now);
      var st := c.stats;
      var stats := if read.1.Some? then st.(autocompleteHits := st.autocompleteHits + 1)
                   else st.(autocompleteMisses := st.autocompleteMisses + 1);
      Fetched(c.(autocomplete := read.0, stats := stats), read.1)
  }

  /** `setAutocomplete(query, results)`: the bounded insert; no counter changes. */
  function SetAutocomplete<D, A>(cc: CacheConfig, c: Cache<D, A>, query: string, results: A, now: int)
    : (r: Cache<D, A>)
    requires Valid(c)
    ensures Valid(r)
    ensures r.main == c.main && r.stats == c.stats
    ensures !cc.enabled || query == [] ==> r == c
    ensures cc.enabled && query != [] ==>
      && Lookup(r.autocomplete, AutocompleteKey(query)) == Some(Entry(results, now))
      && (|c.autocomplete| <= AutocompleteCapacity(cc) && 1 <= AutocompleteCapacity(cc) ==>
            |r.autocomplete| <= AutocompleteCapacity(cc))
  {
    if !cc.enabled || query == [] then c
    else
      var key := AutocompleteKey(query);
      PutBoundedSpec(c.autocomplete, key, Entry(results, now), AutocompleteCapacity(cc));
      c.(autocomplete := PutBounded(c.autocomplete, key, Entry(results, now), AutocompleteCapacity(cc)))
  }

  /**
   * Storing results for one query keeps every other cached query, except
   * that a full map with a new key loses its oldest entry.
   */
  lemma SetAutocompleteKeepsOthers<D, A>(cc: CacheConfig, c: Cache<D, A>, query: string, results: A, now: int,
                                        other: string)
    requires Valid(c) && cc.enabled && query != []
    requires other != AutocompleteKey(query)
    requires |c.autocomplete| < AutocompleteCapacity(cc) || c.autocomplete == [] || other != c.autocomplete[0].0
    ensures Lookup(SetAutocomplete(cc, c, query, results, now).autocomplete, other) == Lookup(c.autocomplete, other)
  {
    var key := AutocompleteKey(query);
    var cap := AutocompleteCapacity(cc);
    if |c.autocomplete| >= cap && !HasKey(c.autocomplete, key) && c.autocomplete != [] {
      EvictsOldest(c.autocomplete, key, Entry(results, now), cap, other);
    } else {
      PutLookupOther(c.autocomplete, key, Entry(results, now), other);
    }
  }

  /** A full map that receives a new query drops its oldest entry. */
  lemma SetAutocompleteEvictsOldest<D, A>(cc: CacheConfig, c: Cache<D, A>, query: string, results: A, now: int)
    requires Valid(c) && cc.enabled && query != []
    requires c.autocomplete != [] && |c.autocomplete| >= AutocompleteCapacity(cc)
    requires !HasKey(c.autocomplete, AutocompleteKey(query))
    ensures Lookup(SetAutocomplete(cc, c, query, results, now).autocomplete, c.autocomplete[0].0) == None
    ensures |SetAutocomplete(cc, c, query, results, now).autocomplete| == |c.autocomplete|
  {
    var m := c.autocomplete;
    var key := AutocompleteKey(query);
    assert m[0].0 != key;
    PutLookupOther(m[1..], key, Entry(results, now), m[0].0);
    assert !HasKey(m[1..], m[0].0);
  }

  /** `clearAutocomplete()`: empty the autocomplete map and zero its counters. */
  function ClearAutocomplete<D, A>(c: Cache<D, A>): (r: Cache<D, A>)
    ensures r.autocomplete == [] && r.main == c.main
    ensures r.stats == c.stats.(autocompleteHits := 0, autocompleteMisses := 0)
  {
    c.(autocomplete := [], stats := c.stats.(autocompleteHits := 0, autocompleteMisses := 0))
  }

  /** Results stored for a query are served for the same query padded or re-cased, within the day. */
  lemma SetThenGetAutocomplete<D, A>(cc: CacheConfig, c: Cache<D, A>, query: string, results: A,
                                     pre: string, post: string, now: int, later: int)
    requires Valid(c) && cc.enabled && query != []
    requires forall i :: 0 <= i < |pre| ==> IsSpace(pre[i])
    requires forall i :: 0 <= i < |post| ==> IsSpace(post[i])
    requires later - now <= AutocompleteTtl(cc)
    ensures GetAutocomplete(cc, SetAutocomplete(cc, c, query, results, now), pre + ToLower(query) + post, later).value
            == Some(results)
  {
    var q2 := pre + ToLower(query) + post;
    assert |q2| >= |query|;
    SameAutocompleteKey(pre, query, post);
    var c1 := SetAutocomplete(cc, c, query, results, now);
    assert |q2| > 0;
    AutocompleteHit(cc, c1, q2, Entry(results, now), later);
  }

  /** A non-empty query whose key holds an unexpired entry is a hit with that entry's data. */
  lemma AutocompleteHit<D, A>(cc: CacheConfig, c: Cache<D, A>, query: string, e: Entry<A>, now: int)
    requires Valid(c) && cc.enabled && query != []
    requires Lookup(c.autocomplete, AutocompleteKey(query)) == Some(e) && !Expired(e, now, AutocompleteTtl(cc))
    ensures GetAutocomplete(cc, c, query, now).value == Some(e.data)
  {
  }

  lemma SameAutocompleteKey(pre: string, query: string, post: string)
    requires forall i :: 0 <= i < |pre| ==> IsSpace(pre[i])
    requires forall i :: 0 <= i < |post| ==> IsSpace(post[i])
    ensures AutocompleteKey(pre + ToLower(query) + post) == AutocompleteKey(query)
  {
    AutocompleteKeyIgnoresPadding(pre, ToLower(query), post);
    AutocompleteKeyIgnoresCase(query);
  }

  // ---------------------------------------------------------------- clearing and statistics

  /**
   * `clear()` with no endpoint empties the route map and zeroes the route
   * counters, leaving the autocomplete map and its counters alone. With an
   * endpoint, origin and destination it deletes that route's entry under
   * the key `get` and `set` use at this hour. Any other argument pattern
   * does nothing.
   */
  function Clear<D, A>(cc: CacheConfig, c: Cache<D, A>, endpoint: string, origin: string, destination: string,
                       hour: nat): (r: Cache<D, A>)
    requires Valid(c)
    ensures Valid(r)
    ensures r.autocomplete == c.autocomplete
    ensures r.stats.autocompleteHits == c.stats.autocompleteHits
    ensures r.stats.autocompleteMisses == c.stats.autocompleteMisses
    ensures endpoint == [] ==> r.main == [] && r.stats.hits == 0 && r.stats.misses == 0 && r.stats.entries == 0
    ensures endpoint != [] && origin != [] && destination != [] ==>
      Lookup(r.main, RouteKey(cc, endpoint, origin, destination, hour)) == None
  {
    if endpoint == [] then
      c.(main := [], stats := c.stats.(hits := 0, misses := 0, entries := 0))
    else if origin != [] && destination != [] then
      var key := RouteKey(cc, endpoint, origin, destination, hour);
      RemoveLookup(c.main, key, key);
      RemoveDistinct(c.main, key);
      if HasKey(c.main, key) then
        c.(main := Remove(c.main, key), stats := c.stats.(entries := |Remove(c.main, key)|))
      else c
    else c
  }

  /** A route cleared at the hour it was stored is fetched afresh. */
  lemma SetClearGet<D, A>(cc: CacheConfig, c: Cache<D, A>, endpoint: string, origin: string, destination: string,
                          data: D, hour: nat, now: int, later: int)
    requires Valid(c) && cc.enabled
    requires endpoint != [] && origin != [] && destination != []
    ensures var c1 := Clear(cc, Set(cc, c, endpoint, origin, destination, data, hour, now), endpoint, origin, destination, hour);
      Get(cc, c1, endpoint, origin, destination, hour, later).value == None
  {
  }

  /** Hits as a percentage of all route reads, zero before the first read. */
  function HitRatio(hits: nat, misses: nat): (r: real)
    ensures 0.0 <= r <= 100.0
    ensures hits + misses == 0 ==> r == 0.0
    ensures hits + misses > 0 ==> r * ((hits + misses) as real) == (hits as real) * 100.0
    ensures misses == 0 && hits > 0 ==> r == 100.0
  {
    if hits + misses == 0 then 0.0
    else
      var total := (hits + misses) as real;
      var q := (hits as real) / total;
      ShareBounds(hits as real, total);
      var r := q * 100.0;
      assert r * total == (hits as real) * 100.0;
      r
  }

  /** A part over a positive whole is a share between 0 and 1 that multiplies back to the part. */
  lemma ShareBounds(part: real, whole: real)
    requires 0.0 <= part <= whole && whole > 0.0
    ensures part / whole * whole == part
    ensures 0.0 <= part / whole <= 1.0
    ensures part == whole ==> part / whole == 1.0
  {
    var q := part / whole;
    assert q * whole == part;
    assert (1.0 - q) * whole == whole - part;
    if part == whole {
      assert (q - 1.0) * whole == 0.0;
    }
  }

  /** `getHitRatio()`: the share of route reads that hit, as a percentage. */
  function GetHitRatio<D, A>(c: Cache<D, A>): (r: real)
    ensures 0.0 <= r <= 100.0
    ensures c.stats.hits + c.stats.misses == 0 ==> r == 0.0
    ensures c.stats.hits + c.stats.misses > 0 ==>
      r * ((c.stats.hits + c.stats.misses) as real) == (c.stats.hits as real) * 100.0
    ensures c.stats.misses == 0 && c.stats.hits > 0 ==> r == 100.0
    ensures c.stats.hits == 0 ==> r == 0.0
  {
    HitRatio(c.stats.hits, c.stats.misses)
  }

  /** `getStats()`: the counters with both hit ratios and the autocomplete map size. */
  function GetStats<D, A>(c: Cache<D, A>): (r: StatsReport)
    ensures r.stats == c.stats
    ensures r.autocompleteCacheSize == |c.autocomplete|
    ensures 0.0 <= r.hitRatio <= 100.0 && 0.0 <= r.autocompleteHitRatio <= 100.0
    ensures c.stats.autocompleteHits == 0 ==> r.autocompleteHitRatio == 0.0
    // both ratios are hits over all reads of their map, as percentages
    ensures r.hitRatio == GetHitRatio(c)
    ensures c.stats.autocompleteHits + c.stats.autocompleteMisses > 0 ==>
      r.autocompleteHitRatio * ((c.stats.autocompleteHits + c.stats.autocompleteMisses) as real)
        == (c.stats.autocompleteHits as real) * 100.0
  {
    StatsReport(c.stats, GetHitRatio(c),
                HitRatio(c.stats.autocompleteHits, c.stats.autocompleteMisses), |c.autocomplete|)
  }
}

/**
 * The two argument patterns of `clear` exactly as the code performs them,
 * kept beside the corrected `ApiCache.Clear` to exhibit where they differ.
 */
module ApiCacheAsWritten {
  import opened Wrappers
  import opened Store
  import opened RateLimits
  import opened ApiCache

  /** A JavaScript counter that may have been dropped from its object. */
  datatype JsCount = Num(n: nat) | Undefined | NaN

  /** `x++`: incrementing `undefined` gives `NaN`, and `NaN` stays `NaN`. */
  function Increment(x: JsCount): (r: JsCount)
    ensures x.Num? <==> r.Num?
    ensures x.Num? ==> r.n == x.n + 1
    ensures !x.Num? ==> r == NaN
  {
    match x
    case Num(n) => Num(n + 1)
    case _ => NaN
  }

  /** The statistics object, with the autocomplete counters as the code may leave them. */
  datatype RawStats = RawStats(hits: nat, misses: nat, entries: nat,
                               autocompleteHits: JsCount, autocompleteMisses: JsCount)

  /** The statistics object `clear()` installs: three fields, the autocomplete counters gone. */
  function ClearAllStats(s: RawStats): (r: RawStats)
    ensures r.hits == 0 && r.misses == 0 && r.entries == 0
    ensures r.autocompleteHits == Undefined && r.autocompleteMisses == Undefined
  {
    RawStats(0, 0, 0, Undefined, Undefined)
  }

  /** `n` autocomplete misses counted with `autocompleteMisses++`. */
  function CountMisses(s: RawStats, n: nat): (r: RawStats)
    ensures r.autocompleteHits == s.autocompleteHits
  {
    if n == 0 then s else CountMisses(s, n - 1).(autocompleteMisses := Increment(CountMisses(s, n - 1).autocompleteMisses))
  }

  /** The autocomplete hit ratio `getStats` computes; `None` is `NaN`. */
  function AutocompleteHitRatio(s: RawStats): (r: Option<real>)
    ensures r.Some? <==> s.autocompleteHits.Num? && s.autocompleteMisses.Num?
  {
    match (s.autocompleteHits, s.autocompleteMisses)
    case (Num(h), Num(m)) => Some(HitRatio(h, m))
    case _ => None
  }

  /**
   * After `clear()`, no number of later autocomplete misses brings the
   * counter back: it is `undefined` and then `NaN`, and the reported hit
   * ratio is `NaN` from then on.
   */
  lemma {:induction false} ClearAllLosesAutocompleteCounters(s: RawStats, n: nat)
    ensures var r := CountMisses(ClearAllStats(s), n);
      && r.autocompleteMisses == (if n == 0 then Undefined else NaN)
      && AutocompleteHitRatio(r) == None
  {
    if n > 0 {
      ClearAllLosesAutocompleteCounters(s, n - 1);
    }
  }

  /** `clear(endpoint, origin, destination)`: the key is built without the hour suffix. */
  function ClearRoute<D, A>(c: Cache<D, A>, endpoint: string, origin: string, destination: string): (r: Cache<D, A>)
    requires Valid(c)
    ensures Valid(r) && r.autocomplete == c.autocomplete
    ensures endpoint != [] && origin != [] && destination != [] ==>
      Lookup(r.main, GenerateKey(endpoint, origin, destination, None)) == None
  {
    if endpoint != [] && origin != [] && destination != [] then
      var key := GenerateKey(endpoint, origin, destination, None);
      RemoveLookup(c.main, key, key);
      RemoveDistinct(c.main, key);
      if HasKey(c.main, key) then c.(main := Remove(c.main, key), stats := c.stats.(entries := |Remove(c.main, key)|))
      else c
    else c
  }

  /** A key with the hour bucket is never the key without it. */
  lemma HourKeyDiffers(e: string, o: string, d: string, hour: nat)
    ensures GenerateKey(e, o, d, Some(hour)) != GenerateKey(e, o, d, None)
  {
    assert |GenerateKey(e, o, d, Some(hour))| > |GenerateKey(e, o, d, None)|;
  }

  /**
   * With the hour in the key (the shipped setting), clearing a route as
   * written leaves the stored response in place: the next read is a hit.
   */
  lemma ClearRouteKeepsStoredRoute<D, A>(cc: CacheConfig, c: Cache<D, A>, endpoint: string, origin: string,
                                         destination: string, data: D, hour: nat, now: int)
    requires Valid(c) && cc.enabled && cc.includeTrafficInKey && cc.ttlMs >= 0
    ensures var c1 := ClearRoute(Set(cc, c, endpoint, origin, destination, data, hour, now), endpoint, origin, destination);
      Get(cc, c1, endpoint, origin, destination, hour, now).value == Some(data)
  {
    var c0 := Set(cc, c, endpoint, origin, destination, data, hour, now);
    HourKeyDiffers(endpoint, origin, destination, hour);
    RemoveLookup(c0.main, GenerateKey(endpoint, origin, destination, None), GenerateKey(endpoint, origin, destination, Some(hour)));
  }

  /** The corrected `clear()` leaves the autocomplete counters, and so their ratio, as they were. */
  lemma ClearKeepsAutocompleteRatio<D, A>(cc: CacheConfig, c: Cache<D, A>, hour: nat)
    requires Valid(c)
    ensures GetStats(Clear(cc, c, [], [], [], hour)).autocompleteHitRatio == GetStats(c).autocompleteHitRatio
  {
  }
}
