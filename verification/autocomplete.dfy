/**
 * The location autocomplete hook: the merge of catalogue and provider
 * suggestions, the search that tries the catalogue, then the autocomplete
 * cache, then the Places provider, and the input handler's length gate.
 *
 * The provider request is asynchronous, so a search is modelled in two
 * phases: `PerformSearch` returns either a finished state or a request to
 * make, and `FinishSearch` consumes the provider's reply.
 */
module Autocomplete {
  import opened Wrappers
  import opened Text
  import opened RateLimits
  import opened RateLimiter
  import opened ApiCache
  import opened LocalLocations

  /** Where a suggestion came from. */
  datatype Origin = FromLocal | FromApi

  /** A suggestion in the dropdown. `placeId` is present for provider results only. */
  datatype Suggestion = Suggestion(name: string, fullAddress: string, kind: string, placeId: Option<string>, origin: Origin)

  /** The key two suggestions are duplicates under: the lower-cased name. */
  function Key(s: Suggestion): string {
    ToLower(s.name)
  }

  /** `{ ...loc, source: "local" }`. */
  function TagLocal(loc: Location): Suggestion {
    Suggestion(loc.name, loc.fullAddress, loc.kind, None, FromLocal)
  }

  function TagAll(locs: seq<Location>): (r: seq<Suggestion>)
    ensures |r| == |locs|
    ensures forall i :: 0 <= i < |r| ==> r[i] == TagLocal(locs[i])
  {
    seq(|locs|, i requires 0 <= i < |locs| => TagLocal(locs[i]))
  }

  /** The keys occurring in a sequence. */
  function KeySet<T>(s: seq<T>, key: T -> string): (ks: set<string>)
    ensures forall i :: 0 <= i < |s| ==> key(s[i]) in ks
    ensures forall k :: k in ks ==> exists i :: 0 <= i < |s| && key(s[i]) == k
  {
    if s == [] then {}
    else
      var rest := KeySet(s[1..], key);
      assert forall i :: 1 <= i < |s| ==> s[i] == s[1..][i - 1];
      {key(s[0])} + rest
  }

  lemma KeySetAppend<T>(s: seq<T>, x: T, key: T -> string)
    ensures KeySet(s + [x], key) == KeySet(s, key) + {key(x)}
  {
    assert forall i :: 0 <= i < |s| ==> (s + [x])[i] == s[i];
    assert (s + [x])[|s|] == x;
  }

  /** No two entries share a key. */
  predicate DistinctKeys<T>(s: seq<T>, key: T -> string) {
    forall i, j :: 0 <= i < j < |s| ==> key(s[i]) != key(s[j])
  }

  /** `x` is the first entry of `s` with its key. */
  predicate FirstOfKey<T(==)>(s: seq<T>, x: T, key: T -> string) {
    exists i :: 0 <= i < |s| && s[i] == x && forall j :: 0 <= j < i ==> key(s[j]) != key(x)
  }

  /**
   * The entries of `s` whose key is neither in `seen` nor taken by an
   * earlier entry: the first occurrence of every new key, in order.
   */
  function Dedup<T(==)>(s: seq<T>, seen: set<string>, key: T -> string): (r: seq<T>)
    ensures DistinctKeys(r, key)
    ensures forall i :: 0 <= i < |r| ==> key(r[i]) !in seen && FirstOfKey(s, r[i], key)
    ensures KeySet(r, key) == KeySet(s, key) - seen
  {
    if s == [] then []
    else
      var x, t := s[0], s[1..];
      assert s == [x] + t;
      if key(x) in seen then
        var r := Dedup(t, seen, key);
        FirstsShift(x, t, r, key);
        r
      else
        var rest := Dedup(t, seen + {key(x)}, key);
        FirstsShift(x, t, rest, key);
        ConsNewKey(x, t, rest, key);
        [x] + rest
  }

  /** Entries first of their key in `t`, with a key other than `x`'s, stay first in `[x] + t`. */
  lemma FirstsShift<T>(x: T, t: seq<T>, r: seq<T>, key: T -> string)
    requires forall i :: 0 <= i < |r| ==> FirstOfKey(t, r[i], key)
    ensures forall i :: 0 <= i < |r| && key(r[i]) != key(x) ==> FirstOfKey([x] + t, r[i], key)
  {
    forall i | 0 <= i < |r| && key(r[i]) != key(x)
      ensures FirstOfKey([x] + t, r[i], key)
    {
      var j :| 0 <= j < |t| && t[j] == r[i] && forall j' :: 0 <= j' < j ==> key(t[j']) != key(r[i]);
      var s := [x] + t;
      assert s[j + 1] == r[i];
      forall j' | 0 <= j' < j + 1
        ensures key(s[j']) != key(r[i])
      {
        if j' > 0 {
          assert s[j'] == t[j' - 1];
        }
      }
    }
  }

  /** A new key in front of distinct keys: still distinct, first of its key, and one more key. */
  lemma ConsNewKey<T>(x: T, t: seq<T>, rest: seq<T>, key: T -> string)
    requires DistinctKeys(rest, key)
    requires forall i :: 0 <= i < |rest| ==> key(rest[i]) != key(x)
    ensures DistinctKeys([x] + rest, key)
    ensures FirstOfKey([x] + t, x, key)
    ensures KeySet([x] + rest, key) == {key(x)} + KeySet(rest, key)
  {
    var r := [x] + rest;
    assert ([x] + t)[0] == x;
    assert r[1..] == rest;
    forall i, j | 0 <= i < j < |r|
      ensures key(r[i]) != key(r[j])
    {
      assert r[j] == rest[j - 1];
      if i > 0 {
        assert r[i] == rest[i - 1];
      }
    }
  }

  /** Deduplicating a concatenation deduplicates the second part against the first part's keys. */
  lemma {:induction false} DedupConcat<T>(a: seq<T>, b: seq<T>, seen: set<string>, key: T -> string)
    ensures Dedup(a + b, seen, key) == Dedup(a, seen, key) + Dedup(b, seen + KeySet(a, key), key)
  {
    if a != [] {
      var x, t := a[0], a[1..];
      assert a == [x] + t;
      assert a + b == [x] + (t + b);
      if key(x) in seen {
        DedupConcat(t, b, seen, key);
        DedupConcatSkip(x, t, b, seen, key);
      } else {
        DedupConcat(t, b, seen + {key(x)}, key);
        DedupConcatKeep(x, t, b, seen, key);
      }
    } else {
      assert a + b == b;
      assert seen + KeySet(a, key) == seen;
    }
  }

  /** The inductive step of `DedupConcat` for a head whose key is already seen. */
  lemma DedupConcatSkip<T>(x: T, t: seq<T>, b: seq<T>, seen: set<string>, key: T -> string)
    requires key(x) in seen
    requires Dedup(t + b, seen, key) == Dedup(t, seen, key) + Dedup(b, seen + KeySet(t, key), key)
    ensures Dedup([x] + (t + b), seen, key) == Dedup([x] + t, seen, key) + Dedup(b, seen + KeySet([x] + t, key), key)
  {
    DedupCons(x, t, seen, key);
    DedupCons(x, t + b, seen, key);
    KeySetCons(x, t, key);
    assert seen + KeySet(t, key) == seen + KeySet([x] + t, key);
  }

  /** The inductive step of `DedupConcat` for a head with a new key. */
  lemma DedupConcatKeep<T>(x: T, t: seq<T>, b: seq<T>, seen: set<string>, key: T -> string)
    requires key(x) !in seen
    requires Dedup(t + b, seen + {key(x)}, key)
      == Dedup(t, seen + {key(x)}, key) + Dedup(b, seen + {key(x)} + KeySet(t, key), key)
    ensures Dedup([x] + (t + b), seen, key) == Dedup([x] + t, seen, key) + Dedup(b, seen + KeySet([x] + t, key), key)
  {
    DedupCons(x, t, seen, key);
    DedupCons(x, t + b, seen, key);
    KeySetCons(x, t, key);
    assert seen + {key(x)} + KeySet(t, key) == seen + KeySet([x] + t, key);
    ConcatAssoc([x], Dedup(t, seen + {key(x)}, key), Dedup(b, seen + {key(x)} + KeySet(t, key), key));
  }

  lemma KeySetCons<T>(x: T, t: seq<T>, key: T -> string)
    ensures KeySet([x] + t, key) == {key(x)} + KeySet(t, key)
  {
  }

  /** One step of `Dedup`: the head is kept exactly when its key is new. */
  lemma DedupCons<T>(x: T, t: seq<T>, seen: set<string>, key: T -> string)
    ensures key(x) in seen ==> Dedup([x] + t, seen, key) == Dedup(t, seen, key)
    ensures key(x) !in seen ==> Dedup([x] + t, seen, key) == [x] + Dedup(t, seen + {key(x)}, key)
  {
    assert ([x] + t)[0] == x && ([x] + t)[1..] == t;
  }

  lemma ConcatAssoc<T>(a: seq<T>, b: seq<T>, c: seq<T>)
    ensures (a + b) + c == a + (b + c)
  {
  }

  /** The first `n` entries, or all of them when there are fewer. */
  function Take<T>(s: seq<T>, n: nat): (r: seq<T>)
    ensures |r| <= n && (|s| <= n ==> r == s)
    ensures r == s[..|r|]
  {
    if n < |s| then s[..n] else s
  }

  /** The reference merge: tagged catalogue entries, then provider entries, deduplicated, then cut. */
  function Merge(local: seq<Location>, api: seq<Suggestion>, maxResults: nat): (r: seq<Suggestion>)
    ensures |r| <= maxResults
    ensures DistinctKeys(r, Key)
  {
    Take(Dedup(TagAll(local) + api, {}, Key), maxResults)
  }

  /** One step of the merge loops: the next entry is kept exactly when its key is new. */
  lemma DedupStep<T>(s: seq<T>, i: nat, seen: set<string>, merged: seq<T>, key: T -> string)
    requires i < |s|
    ensures key(s[i]) in seen ==> merged + Dedup(s[i..], seen, key) == merged + Dedup(s[i + 1..], seen, key)
    ensures key(s[i]) !in seen ==>
      merged + Dedup(s[i..], seen, key) == (merged + [s[i]]) + Dedup(s[i + 1..], seen + {key(s[i])}, key)
  {
    assert s[i..][0] == s[i] && s[i..][1..] == s[i + 1..];
    if key(s[i]) !in seen {
      ConcatAssoc(merged, [s[i]], Dedup(s[i + 1..], seen + {key(s[i])}, key));
    }
  }

  /** The seen set of a merge loop after one more entry. */
  lemma SeenStep<T>(s: seq<T>, i: nat, seen0: set<string>, seen: set<string>, key: T -> string)
    requires i < |s| && seen == seen0 + KeySet(s[..i], key)
    ensures key(s[i]) in seen ==> seen == seen0 + KeySet(s[..i + 1], key)
    ensures key(s[i]) !in seen ==> seen + {key(s[i])} == seen0 + KeySet(s[..i + 1], key)
  {
    assert s[..i + 1] == s[..i] + [s[i]];
    KeySetAppend(s[..i], s[i], key);
  }

  /** Where a merge loop starts: nothing seen of the input yet, all of it still to go. */
  lemma DedupStart<T>(s: seq<T>, seen: set<string>, key: T -> string)
    ensures KeySet(s[..0], key) == {}
    ensures Dedup(s[0..], seen, key) == Dedup(s, seen, key)
  {
    assert s[..0] == [];
    assert s[0..] == s;
  }

  /** Where a merge loop ends: every key of the input seen, and the merged output complete. */
  lemma DedupEnd<T>(s: seq<T>, seen: set<string>, merged: seq<T>, key: T -> string, total: seq<T>)
    requires merged + Dedup(s[|s|..], seen, key) == total
    ensures KeySet(s[..|s|], key) == KeySet(s, key)
    ensures merged == total
  {
    assert s[..|s|] == s;
    assert s[|s|..] == [];
    assert merged + [] == merged;
  }

  /**
   * One loop of `mergeResults`: walks `s`, appending each entry whose key
   * has not been seen and adding its key to the seen set.
   */
  method DedupInto<T>(s: seq<T>, seen0: set<string>, merged0: seq<T>, key: T -> string)
    returns (seen: set<string>, merged: seq<T>)
    ensures seen == seen0 + KeySet(s, key)
    ensures merged == merged0 + Dedup(s, seen0, key)
  {
    seen, merged := seen0, merged0;
    var i := 0;
    DedupStart(s, seen, key);
    ConcatAssoc(merged0, [], Dedup(s, seen0, key));
    while i < |s|
      invariant 0 <= i <= |s|
      invariant seen == seen0 + KeySet(s[..i], key)
      invariant merged + Dedup(s[i..], seen, key) == merged0 + Dedup(s, seen0, key)
    {
      DedupStep(s, i, seen, merged, key);
      SeenStep(s, i, seen0, seen, key);
      var k := key(s[i]);
      if k !in seen {
        seen := seen + {k};
        merged := merged + [s[i]];
      }
      i := i + 1;
    }
    DedupEnd(s, seen, merged, key, merged0 + Dedup(s, seen0, key));
  }

  /**
   * `mergeResults`: one pass over the catalogue results, tagging them, then
   * one over the provider results, each skipping a name already seen, and
   * the first `maxResults` of what is kept.
   */
  method MergeResults(local: seq<Location>, api: seq<Suggestion>, maxResults: nat) returns (r: seq<Suggestion>)
    ensures r == Merge(local, api, maxResults)
  {
    var tagged := TagAll(local);
    var seen, merged := DedupInto(tagged, {}, [], Key);
    seen, merged := DedupInto(api, seen, merged, Key);
    assert [] + Dedup(tagged, {}, Key) == Dedup(tagged, {}, Key);
    assert {} + KeySet(tagged, Key) == KeySet(tagged, Key);
    DedupConcat(tagged, api, {}, Key);
    r := Take(merged, maxResults);
  }

  /** The first `k` entries of `r` come from `a` and the rest from `b`. */
  predicate SplitAt<T(==)>(r: seq<T>, a: seq<T>, b: seq<T>, k: nat) {
    && k <= |r|
    && (forall i :: 0 <= i < k ==> r[i] in a)
    && (forall i :: k <= i < |r| ==> r[i] in b)
  }

  /** A cut of a concatenation takes the first part's entries before the second part's. */
  lemma TakeConcatSplits<T>(d1: seq<T>, d2: seq<T>, n: nat)
    ensures var r := Take(d1 + d2, n);
      SplitAt(r, d1, d2, if |d1| < |r| then |d1| else |r|)
  {
    var r := Take(d1 + d2, n);
    assert r == (d1 + d2)[..|r|];
    var k := if |d1| < |r| then |d1| else |r|;
    forall i | 0 <= i < k
      ensures r[i] in d1
    {
      assert r[i] == d1[i];
    }
    forall i | k <= i < |r|
      ensures r[i] in d2
    {
      assert r[i] == d2[i - |d1|];
    }
  }

  /** Deduplication only drops entries. */
  lemma DedupSubset<T>(s: seq<T>, seen: set<string>, key: T -> string)
    ensures forall x :: x in Dedup(s, seen, key) ==> x in s
  {
    var d := Dedup(s, seen, key);
    forall x | x in d
      ensures x in s
    {
      var i :| 0 <= i < |d| && d[i] == x;
      assert FirstOfKey(s, d[i], key);
    }
  }

  /** A cut keeps the distinct keys of what it cuts. */
  lemma TakeDistinct<T>(d: seq<T>, key: T -> string, n: nat)
    requires DistinctKeys(d, key)
    ensures DistinctKeys(Take(d, n), key)
    ensures forall i :: 0 <= i < |Take(d, n)| ==> Take(d, n)[i] == d[i]
  {
  }

  /** A cut of a deduplicated concatenation keeps the entries of the first part before those of the second. */
  lemma DedupCutSplits<T>(a: seq<T>, b: seq<T>, key: T -> string, n: nat)
    ensures var r := Take(Dedup(a + b, {}, key), n);
      && DistinctKeys(r, key)
      && (forall i :: 0 <= i < |r| ==> FirstOfKey(a + b, r[i], key))
      && SplitAt(r, a, b, if |Dedup(a, {}, key)| < |r| then |Dedup(a, {}, key)| else |r|)
  {
    var d := Dedup(a + b, {}, key);
    TakeDistinct(d, key, n);
    CutSplits(a, b, key, n);
  }

  /** The order half of `DedupCutSplits`. */
  lemma CutSplits<T>(a: seq<T>, b: seq<T>, key: T -> string, n: nat)
    ensures var r := Take(Dedup(a + b, {}, key), n);
      SplitAt(r, a, b, if |Dedup(a, {}, key)| < |r| then |Dedup(a, {}, key)| else |r|)
  {
    DedupConcat(a, b, {}, key);
    var d1 := Dedup(a, {}, key);
    var d2 := Dedup(b, {} + KeySet(a, key), key);
    TakeConcatSplits(d1, d2, n);
    DedupSubset(a, {}, key);
    DedupSubset(b, {} + KeySet(a, key), key);
    var r := Take(d1 + d2, n);
    SplitWidens(r, d1, d2, a, b, if |d1| < |r| then |d1| else |r|);
  }

  /** A split between parts of `a` and `b` is a split between `a` and `b`. */
  lemma SplitWidens<T>(r: seq<T>, d1: seq<T>, d2: seq<T>, a: seq<T>, b: seq<T>, k: nat)
    requires SplitAt(r, d1, d2, k)
    requires (forall x :: x in d1 ==> x in a) && (forall x :: x in d2 ==> x in b)
    ensures SplitAt(r, a, b, k)
  {
  }

  /** The first `k` entries are tagged catalogue entries and the rest are provider entries. */
  predicate LocalThenApi(r: seq<Suggestion>, local: seq<Location>, api: seq<Suggestion>, k: nat) {
    && k <= |r|
    && (forall i :: 0 <= i < k ==> r[i] in TagAll(local) && r[i].origin == FromLocal)
    && (forall i :: k <= i < |r| ==> r[i] in api)
  }

  /**
   * What the merge promises: at most `maxResults` entries, no two with the
   * same lower-cased name, each the first entry of its name; all catalogue
   * entries, tagged as such, before all provider entries, which are passed
   * through unchanged.
   */
  lemma MergeShape(local: seq<Location>, api: seq<Suggestion>, maxResults: nat)
    ensures var r := Merge(local, api, maxResults);
      && |r| <= maxResults
      && DistinctKeys(r, Key)
      && (forall i :: 0 <= i < |r| ==> FirstOfKey(TagAll(local) + api, r[i], Key))
      && exists k :: LocalThenApi(r, local, api, k)
  {
    var tagged := TagAll(local);
    var r := Merge(local, api, maxResults);
    DedupCutSplits(tagged, api, Key, maxResults);
    var k: nat := if |Dedup(tagged, {}, Key)| < |r| then |Dedup(tagged, {}, Key)| else |r|;
    TaggedSplit(r, local, api, k);
  }

  /** Entries drawn from the tagged catalogue are tagged as catalogue entries. */
  lemma TaggedSplit(r: seq<Suggestion>, local: seq<Location>, api: seq<Suggestion>, k: nat)
    requires SplitAt(r, TagAll(local), api, k)
    ensures LocalThenApi(r, local, api, k)
  {
    forall i | 0 <= i < k
      ensures r[i].origin == FromLocal
    {
      var j :| 0 <= j < |local| && TagAll(local)[j] == r[i];
    }
  }

  /** Every name offered by either source appears in the merge unless the merge is full. */
  lemma MergeComplete(local: seq<Location>, api: seq<Suggestion>, maxResults: nat, x: Suggestion)
    requires x in TagAll(local) + api
    ensures var r := Merge(local, api, maxResults);
      |r| == maxResults || exists i :: 0 <= i < |r| && Key(r[i]) == Key(x)
  {
    var s := TagAll(local) + api;
    var d := Dedup(s, {}, Key);
    var j :| 0 <= j < |s| && s[j] == x;
    assert Key(x) in KeySet(s, Key);
    assert Key(x) in KeySet(d, Key);
  }

  // ---------------------------------------------------------------- the hook

  /** The options the search depends on; the debounce delay and the location bias are left out. */
  datatype Options = Options(minChars: nat, maxResults: nat, showLocalFirst: bool, enableGoogleApi: bool)

  const DEFAULT_OPTIONS: Options := Options(5, 5, true, true)

  /** Where the shown suggestions came from: `"local"`, `"cache"` or `"api"`. */
  datatype Source = LocalResults | CachedResults | ApiResults

  /** The two messages the hook shows: the limiter's refusal and a failed search. */
  datatype HookError = PleaseWait | SearchFailed

  /** The hook's state, with `lastQuery` the trimmed query last searched. */
  datatype Hook = Hook(
    query: string,
    suggestions: seq<Suggestion>,
    isLoading: bool,
    error: Option<HookError>,
    source: Option<Source>,
    lastQuery: string)

  const INITIAL_HOOK: Hook := Hook("", [], false, None, None, "")

  /** The hook together with the shared limiter and cache it uses; `D` is the route-cache payload. */
  datatype World<D> = World(hook: Hook, limiter: Limiter, cache: Cache<D, seq<Suggestion>>)

  /**
   * The surroundings of a search: the service configurations, the place
   * catalogue searched first (the application's is `GUWAHATI_LOCATIONS`),
   * whether the Places library is loaded, the clock and the next quota resets.
   */
  datatype Env = Env(cfg: LimiterConfig, cc: CacheConfig, catalogue: seq<Location>, placesLoaded: bool, now: int,
                     nextMidnight: int, nextMonthStart: int)

  /** A search either finishes at once or waits for a Places request for `query`. */
  datatype Action = Done | Request(query: string, local: seq<Location>)

  datatype Step<D> = Step(world: World<D>, action: Action)

  /** The Places status values the callback tells apart. */
  datatype PlacesStatus = PlacesOk | ZeroResults | OverQueryLimit | OtherStatus(name: string)

  /** One Places prediction: the structured main text (if any), the description and the place id. */
  datatype Prediction = Prediction(mainText: Option<string>, description: string, placeId: string)

  /** How the Places request ended: it threw, or the callback ran with a status and (possibly null) predictions. */
  datatype Reply = Thrown | Answered(status: PlacesStatus, predictions: Option<seq<Prediction>>)

  /** A prediction as a suggestion: named by its main text, or by its description when that is empty. */
  function FromPrediction(p: Prediction): (s: Suggestion)
    ensures p.mainText.Some? && p.mainText.value != [] ==> s.name == p.mainText.value
    ensures p.mainText.None? || p.mainText.value == [] ==> s.name == p.description
    ensures s.fullAddress == p.description && s.placeId == Some(p.placeId) && s.origin == FromApi
  {
    var name := if p.mainText.Some? && p.mainText.value != [] then p.mainText.value else p.description;
    Suggestion(name, p.description, "google", Some(p.placeId), FromApi)
  }

  /** The first `maxResults` predictions as suggestions, in order. */
  function Convert(preds: seq<Prediction>, maxResults: nat): (r: seq<Suggestion>)
    ensures |r| == if |preds| < maxResults then |preds| else maxResults
    ensures forall i :: 0 <= i < |r| ==> r[i] == FromPrediction(preds[i]) && r[i].origin == FromApi
  {
    var n := if |preds| < maxResults then |preds| else maxResults;
    seq(n, i requires 0 <= i < n => FromPrediction(preds[i]))
  }

  /** The catalogue results shown as they are, tagged. */
  function ShowLocal(h: Hook, local: seq<Location>): (r: Hook)
    ensures r.suggestions == TagAll(local) && r.source == Some(LocalResults)
    ensures r == h.(suggestions := r.suggestions, source := r.source)
  {
    h.(suggestions := TagAll(local), source := Some(LocalResults))
  }

  /**
   * The list a search leaves when the provider adds nothing: the tagged
   * catalogue results when there are any, otherwise an empty list under the
   * source shown before.
   */
  predicate ShowsLocalOnly(h: Hook, prior: Hook, local: seq<Location>) {
    && (|local| > 0 ==> h.suggestions == TagAll(local) && h.source == Some(LocalResults))
    && (|local| == 0 ==> h.suggestions == [] && h.source == prior.source)
  }

  /**
   * What the search does with the provider's results, the loading flag
   * dropped in every case: non-empty results are cached and merged behind
   * the catalogue results; otherwise the catalogue results stay, or the
   * list empties when there are none.
   */
  function Deliver<D>(opts: Options, env: Env, w: World<D>, query: string, local: seq<Location>, results: seq<Suggestion>)
    : (r: World<D>)
    requires ApiCache.Valid(w.cache)
    ensures ApiCache.Valid(r.cache)
    ensures r.limiter == w.limiter && !r.hook.isLoading
    ensures r.hook == w.hook.(suggestions := r.hook.suggestions, source := r.hook.source, isLoading := false)
    ensures |results| > 0 ==>
      && r.cache == SetAutocomplete(env.cc, w.cache, query, results, env.now)
      && r.hook.suggestions == Merge(local, results, opts.maxResults) && r.hook.source == Some(ApiResults)
    ensures |results| == 0 ==> r.cache == w.cache
    ensures |results| == 0 && |local| > 0 ==> r.hook.suggestions == TagAll(local) && r.hook.source == Some(LocalResults)
    ensures |results| == 0 && |local| == 0 ==> r.hook.suggestions == [] && r.hook.source == w.hook.source
  {
    if |results| > 0 then
      var h := w.hook.(suggestions := Merge(local, results, opts.maxResults), source := Some(ApiResults), isLoading := false);
      World(h, w.limiter, SetAutocomplete(env.cc, w.cache, query, results, env.now))
    else if |local| > 0 then
      World(ShowLocal(w.hook, local).(isLoading := false), w.limiter, w.cache)
    else
      World(w.hook.(suggestions := [], isLoading := false), w.limiter, w.cache)
  }

  /**
   * `performSearch` up to the Places request: nothing for the query last
   * searched; otherwise the catalogue, then -- unless the catalogue filled
   * the list -- the autocomplete cache, then -- when the provider is enabled
   * and loaded -- the limiter, and else the catalogue results alone.
   */
  function PerformSearch<D>(opts: Options, env: Env, w: World<D>, searchQuery: string): (r: Step<D>)
    requires ApiCache.Valid(w.cache)
    ensures ApiCache.Valid(r.world.cache)
    ensures Trim(searchQuery) == w.hook.lastQuery ==> r == Step(w, Done)
    ensures Trim(searchQuery) != w.hook.lastQuery ==>
      && r.world.hook.lastQuery == Trim(searchQuery)
      && r.world.hook.query == w.hook.query
      && (r.action.Done? ==> !r.world.hook.isLoading)
    // a full list from the catalogue consults neither the cache nor the limiter
    ensures var local := Search(env.catalogue, Trim(searchQuery), opts.maxResults);
      Trim(searchQuery) != w.hook.lastQuery && 0 < |local| && opts.maxResults <= |local| ==>
        && r.action == Done && r.world.cache == w.cache && r.world.limiter == w.limiter
        && r.world.hook.suggestions == TagAll(local) && r.world.hook.source == Some(LocalResults)
    // a cache hit is merged behind the catalogue results without the limiter
    ensures var local := Search(env.catalogue, Trim(searchQuery), opts.maxResults);
      var read := GetAutocomplete(env.cc, w.cache, Trim(searchQuery), env.now);
      Trim(searchQuery) != w.hook.lastQuery && !(0 < |local| && opts.maxResults <= |local|) && read.value.Some? ==>
        && r.action == Done && r.world.cache == read.cache && r.world.limiter == w.limiter
        && r.world.hook.suggestions == Merge(local, read.value.value, opts.maxResults)
        && r.world.hook.source == Some(CachedResults)
    // a request is made only with the provider enabled and loaded and the limiter's consent
    ensures r.action.Request? ==>
      && r.action.query == Trim(searchQuery)
      && r.action.local == Search(env.catalogue, Trim(searchQuery), opts.maxResults)
      && opts.enableGoogleApi && env.placesLoaded && r.world.hook.isLoading
      && var adm := CanMakeRequest(env.cfg, w.limiter, AUTOCOMPLETE, env.now);
         adm.allowed && r.world.limiter == adm.state
    // without the provider the catalogue results are shown alone
    ensures var local := Search(env.catalogue, Trim(searchQuery), opts.maxResults);
      var read := GetAutocomplete(env.cc, w.cache, Trim(searchQuery), env.now);
      && Trim(searchQuery) != w.hook.lastQuery && !(0 < |local| && opts.maxResults <= |local|) && read.value.None?
      && !(opts.enableGoogleApi && env.placesLoaded) ==>
        && r.action == Done && r.world.cache == read.cache && r.world.limiter == w.limiter
        && r.world.hook.suggestions == TagAll(local) && r.world.hook.source == Some(LocalResults)
    // after the limiter's refusal the catalogue results stay, or the list empties
    ensures var local := Search(env.catalogue, Trim(searchQuery), opts.maxResults);
      var read := GetAutocomplete(env.cc, w.cache, Trim(searchQuery), env.now);
      var adm := CanMakeRequest(env.cfg, w.limiter, AUTOCOMPLETE, env.now);
      && Trim(searchQuery) != w.hook.lastQuery && !(0 < |local| && opts.maxResults <= |local|) && read.value.None?
      && opts.enableGoogleApi && env.placesLoaded && !adm.allowed ==>
        && r.action == Done && r.world.cache == read.cache && r.world.limiter == adm.state
        && ShowsLocalOnly(r.world.hook, w.hook, local) && r.world.hook.error == Some(PleaseWait)
    // the limiter's refusal shows a message and caches nothing
    ensures r.world.hook.error != w.hook.error ==>
      && r.world.hook.error == Some(PleaseWait) && r.action == Done
      && !CanMakeRequest(env.cfg, w.limiter, AUTOCOMPLETE, env.now).allowed
  {
    var q := Trim(searchQuery);
    if q == w.hook.lastQuery then Step(w, Done)
    else
      var h0 := w.hook.(lastQuery := q);
      var local := Search(env.catalogue, q, opts.maxResults);
      var h1 := if |local| > 0 then ShowLocal(h0, local) else h0;
      if |local| > 0 && |local| >= opts.maxResults then
        Step(w.(hook := h1.(isLoading := false)), Done)
      else
        var read := GetAutocomplete(env.cc, w.cache, q, env.now);
        if read.value.Some? then
          var h2 := h1.(suggestions := Merge(local, read.value.value, opts.maxResults), source := Some(CachedResults),
                        isLoading := false);
          Step(World(h2, w.limiter, read.cache), Done)
        else if opts.enableGoogleApi && env.placesLoaded then
          var adm := CanMakeRequest(env.cfg, w.limiter, AUTOCOMPLETE, env.now);
          var h2 := h1.(isLoading := true);
          if adm.allowed then Step(World(h2, adm.state, read.cache), Request(q, local))
          else Step(Deliver(opts, env, World(h2.(error := Some(PleaseWait)), adm.state, read.cache), q, local, []), Done)
        else
          Step(World(ShowLocal(h1, local).(isLoading := false), w.limiter, read.cache), Done)
  }

  /**
   * The rest of `performSearch` once the Places request ends: the callback's
   * status decides the results and what the limiter records; a throw leaves
   * the error message and the catalogue results.
   */
  function FinishSearch<D>(opts: Options, env: Env, w: World<D>, query: string, local: seq<Location>, reply: Reply)
    : (r: World<D>)
    requires ApiCache.Valid(w.cache)
    ensures ApiCache.Valid(r.cache)
    ensures !r.hook.isLoading
    ensures r.hook.query == w.hook.query && r.hook.lastQuery == w.hook.lastQuery
    // only a non-empty answer is written to the cache
    ensures r.cache == w.cache || (
      && reply.Answered? && reply.status == PlacesOk && reply.predictions.Some?
      && var results := Convert(reply.predictions.value, opts.maxResults);
         |results| > 0 && r.cache == SetAutocomplete(env.cc, w.cache, query, results, env.now))
    // a success is recorded exactly when the status is OK with predictions
    ensures reply.Answered? && reply.status == PlacesOk && reply.predictions.Some? ==>
      && r.limiter == RecordSuccess(env.cfg, w.limiter, AUTOCOMPLETE, env.now, env.nextMidnight, env.nextMonthStart)
      && var results := Convert(reply.predictions.value, opts.maxResults);
         |results| > 0 ==> r.hook.suggestions == Merge(local, results, opts.maxResults) && r.hook.source == Some(ApiResults)
    ensures reply.Answered? && reply.status == OverQueryLimit ==>
      r.limiter == RecordError(env.cfg, w.limiter, AUTOCOMPLETE, 429, env.now).state
    ensures reply.Answered? && reply.status != OverQueryLimit && !(reply.status == PlacesOk && reply.predictions.Some?) ==>
      r.limiter == w.limiter && r.cache == w.cache
    // a throw records nothing, keeps the source and falls back to the catalogue results
    ensures reply.Thrown? ==>
      && r.limiter == w.limiter && r.cache == w.cache
      && r.hook.error == Some(SearchFailed) && r.hook.source == w.hook.source
      && r.hook.suggestions == (if |local| > 0 then TagAll(local) else w.hook.suggestions)
    ensures reply.Answered? ==> r.hook.error == w.hook.error
    // an answer that brings no results keeps the catalogue results, or empties the list
    ensures reply.Answered? &&
            !(reply.status == PlacesOk && reply.predictions.Some? && |Convert(reply.predictions.value, opts.maxResults)| > 0) ==>
      ShowsLocalOnly(r.hook, w.hook, local)
  {
    match reply
    case Thrown =>
      var h := w.hook.(error := Some(SearchFailed), isLoading := false);
      World(if |local| > 0 then h.(suggestions := TagAll(local)) else h, w.limiter, w.cache)
    case Answered(status, preds) =>
      if status == PlacesOk && preds.Some? then
        var s := RecordSuccess(env.cfg, w.limiter, AUTOCOMPLETE, env.now, env.nextMidnight, env.nextMonthStart);
        Deliver(opts, env, w.(limiter := s), query, local, Convert(preds.value, opts.maxResults))
      else if status == OverQueryLimit then
        Deliver(opts, env, w.(limiter := RecordError(env.cfg, w.limiter, AUTOCOMPLETE, 429, env.now).state), query, local, [])
      else
        Deliver(opts, env, w, query, local, [])
  }

  /** A search the user re-triggers for the same trimmed query, padded or not, does nothing. */
  lemma SearchTwiceIsNoOp<D>(opts: Options, env: Env, env': Env, w: World<D>, q: string, pre: string, post: string)
    requires ApiCache.Valid(w.cache)
    requires forall i :: 0 <= i < |pre| ==> IsSpace(pre[i])
    requires forall i :: 0 <= i < |post| ==> IsSpace(post[i])
    ensures var w1 := PerformSearch(opts, env, w, q).world;
      PerformSearch(opts, env', w1, pre + q + post) == Step(w1, Done)
  {
    var w1 := PerformSearch(opts, env, w, q).world;
    SearchRecordsQuery(opts, env, w, q);
    TrimIgnoresPadding(pre, q, post);
    assert Trim(pre + q + post) == w1.hook.lastQuery;
    SameQueryIsNoOp(opts, env', w1, pre + q + post);
  }

  /** After a search the hook remembers the trimmed query, whether it searched or not. */
  lemma SearchRecordsQuery<D>(opts: Options, env: Env, w: World<D>, q: string)
    requires ApiCache.Valid(w.cache)
    ensures PerformSearch(opts, env, w, q).world.hook.lastQuery == Trim(q)
    ensures ApiCache.Valid(PerformSearch(opts, env, w, q).world.cache)
  {
  }

  /** A query that trims to the one last searched is a no-op. */
  lemma SameQueryIsNoOp<D>(opts: Options, env: Env, w: World<D>, q: string)
    requires ApiCache.Valid(w.cache) && Trim(q) == w.hook.lastQuery
    ensures PerformSearch(opts, env, w, q) == Step(w, Done)
  {
  }

  /** The reply to a search does not reopen it: the same query stays a no-op afterwards. */
  lemma NoSearchAfterReply<D>(opts: Options, env: Env, env': Env, w: World<D>, q: string, reply: Reply)
    requires ApiCache.Valid(w.cache)
    ensures var s := PerformSearch(opts, env, w, q);
      s.action.Request? ==>
        var w2 := FinishSearch(opts, env', s.world, s.action.query, s.action.local, reply);
        PerformSearch(opts, env', w2, q) == Step(w2, Done)
  {
  }

  /**
   * Provider results fetched for a query are served from the autocomplete
   * cache the next time that query is searched within the day, merged
   * behind the same catalogue results, without the limiter.
   */
  lemma {:induction false} FetchedResultsServedFromCache<D>(opts: Options, env: Env, env': Env, w: World<D>,
                                                           q: string, preds: seq<Prediction>, h: Hook)
    requires ApiCache.Valid(w.cache) && env.cc == env'.cc && env.cc.enabled && env'.catalogue == env.catalogue
    requires 0 <= env'.now - env.now <= AutocompleteTtl(env.cc)
    requires Trim(q) != [] && h.lastQuery != Trim(q)
    requires |preds| > 0 && opts.maxResults > 0
    requires PerformSearch(opts, env, w, q).action.Request?
    ensures var s := PerformSearch(opts, env, w, q);
      var w2 := FinishSearch(opts, env, s.world, s.action.query, s.action.local, Answered(PlacesOk, Some(preds)));
      var s3 := PerformSearch(opts, env', w2.(hook := h), q);
      && s3.action == Done && s3.world.limiter == w2.limiter
      && s3.world.hook.source == Some(CachedResults)
      && s3.world.hook.suggestions == Merge(s.action.local, Convert(preds, opts.maxResults), opts.maxResults)
  {
    var s := PerformSearch(opts, env, w, q);
    var results := Convert(preds, opts.maxResults);
    assert |results| > 0 && s.action.query == Trim(q);
    var w2 := FinishSearch(opts, env, s.world, s.action.query, s.action.local, Answered(PlacesOk, Some(preds)));
    FinishCaches(opts, env, s.world, Trim(q), s.action.local, preds);
    ReadBack(env.cc, s.world.cache, Trim(q), results, env.now, env'.now);
    var local := Search(env.catalogue, Trim(q), opts.maxResults);
    assert s.action.local == local && !(0 < |local| && opts.maxResults <= |local|);
    CacheHitServed(opts, env', w2.(hook := h), q, results);
  }

  /** A non-empty OK answer is written to the cache under the query. */
  lemma FinishCaches<D>(opts: Options, env: Env, w: World<D>, query: string, local: seq<Location>, preds: seq<Prediction>)
    requires ApiCache.Valid(w.cache) && |Convert(preds, opts.maxResults)| > 0
    ensures FinishSearch(opts, env, w, query, local, Answered(PlacesOk, Some(preds))).cache
            == SetAutocomplete(env.cc, w.cache, query, Convert(preds, opts.maxResults), env.now)
  {
  }

  /** Results just stored for a query are read back for it within the time-to-live. */
  lemma ReadBack<D>(cc: CacheConfig, c: Cache<D, seq<Suggestion>>, query: string, results: seq<Suggestion>,
                    now: int, later: int)
    requires ApiCache.Valid(c) && cc.enabled && query != []
    requires 0 <= later - now <= AutocompleteTtl(cc)
    ensures GetAutocomplete(cc, SetAutocomplete(cc, c, query, results, now), query, later).value == Some(results)
  {
  }

  /** A search that is not a no-op, without a full catalogue list, serves a cache hit without the limiter. */
  lemma CacheHitServed<D>(opts: Options, env: Env, w: World<D>, q: string, results: seq<Suggestion>)
    requires ApiCache.Valid(w.cache) && w.hook.lastQuery != Trim(q)
    requires GetAutocomplete(env.cc, w.cache, Trim(q), env.now).value == Some(results)
    requires var local := Search(env.catalogue, Trim(q), opts.maxResults);
      !(0 < |local| && opts.maxResults <= |local|)
    ensures var s := PerformSearch(opts, env, w, q);
      && s.action == Done && s.world.limiter == w.limiter
      && s.world.hook.source == Some(CachedResults)
      && s.world.hook.suggestions == Merge(Search(env.catalogue, Trim(q), opts.maxResults), results, opts.maxResults)
  {
  }

  /** What an input change leads to: the new state and the search it schedules, if any. */
  datatype Input = Input(hook: Hook, scheduled: Option<string>)

  /**
   * `handleInputChange`: record the value and drop the error; below
   * `minChars` characters empty the list and schedule nothing; otherwise show
   * the catalogue results at once (when enabled and non-empty), start
   * loading and schedule the search of the value, replacing any pending one.
   */
  function HandleInputChange(opts: Options, catalogue: seq<Location>, h: Hook, value: string): (r: Input)
    ensures r.hook.query == value && r.hook.error == None && r.hook.lastQuery == h.lastQuery
    ensures |value| < opts.minChars <==> r.scheduled.None?
    ensures |value| < opts.minChars ==> r.hook.suggestions == [] && r.hook.source == None && !r.hook.isLoading
    ensures |value| >= opts.minChars ==> r.scheduled == Some(value) && r.hook.isLoading
    ensures var local := Search(catalogue, value, opts.maxResults);
      |value| >= opts.minChars ==>
        if opts.showLocalFirst && |local| > 0 then r.hook.suggestions == TagAll(local) && r.hook.source == Some(LocalResults)
        else r.hook.suggestions == h.suggestions && r.hook.source == h.source
  {
    var h1 := h.(query := value, error := None);
    if |value| < opts.minChars then
      Input(h1.(suggestions := [], source := None, isLoading := false), None)
    else
      var local := Search(catalogue, value, opts.maxResults);
      var h2 := if opts.showLocalFirst && |local| > 0 then ShowLocal(h1, local) else h1;
      Input(h2.(isLoading := true), Some(value))
  }

  /** With the default options, anything shorter than five characters is never searched. */
  lemma ShortInputNeverSearched(catalogue: seq<Location>, h: Hook, value: string)
    requires |value| < 5
    ensures HandleInputChange(DEFAULT_OPTIONS, catalogue, h, value).scheduled == None
    ensures HandleInputChange(DEFAULT_OPTIONS, catalogue, h, value).hook.suggestions == []
  {
  }

  /** The address a selected suggestion fills the input with: its full address, else its name. */
  function Address(s: Suggestion): string {
    if s.fullAddress != [] then s.fullAddress else s.name
  }

  /** `handleSelect`: the input takes the address and the list empties. */
  function HandleSelect(h: Hook, s: Suggestion): (r: Hook)
    ensures r.query == Address(s) && r.suggestions == [] && r.source == None
    ensures r.isLoading == h.isLoading && r.error == h.error && r.lastQuery == h.lastQuery
  {
    h.(query := Address(s), suggestions := [], source := None)
  }

  /** `clearSuggestions`: the list, its source and the error go. */
  function ClearSuggestions(h: Hook): (r: Hook)
    ensures r.suggestions == [] && r.source == None && r.error == None
    ensures r.query == h.query && r.isLoading == h.isLoading && r.lastQuery == h.lastQuery
  {
    h.(suggestions := [], source := None, error := None)
  }

  /** `reset`: back to the initial state, forgetting the last query. */
  function Reset(h: Hook): (r: Hook)
    ensures r == INITIAL_HOOK
  {
    Hook("", [], false, None, None, "")
  }

  /** After a reset any non-blank query is searched again. */
  lemma ResetReopensSearch<D>(opts: Options, env: Env, w: World<D>, q: string)
    requires ApiCache.Valid(w.cache) && Trim(q) != []
    ensures PerformSearch(opts, env, w.(hook := Reset(w.hook)), q).world.hook.lastQuery == Trim(q)
  {
  }
}
