/**
 * An insertion-ordered string-keyed map, the behaviour of a JavaScript `Map`
 * the cache relies on: lookup, in-place overwrite, delete, and eviction of
 * the oldest key when a new key would exceed the capacity.
 */
module Store {
  import opened Wrappers

  /** Entries in insertion order; a well-formed store has each key once. */
  type Entries<V> = seq<(string, V)>

  /** The keys in insertion order (`map.keys()`). */
  function Keys<V>(m: Entries<V>): (ks: seq<string>)
    ensures |ks| == |m|
    ensures forall i :: 0 <= i < |m| ==> ks[i] == m[i].0
  {
    if m == [] then [] else [m[0].0] + Keys(m[1..])
  }

  predicate DistinctKeys<V>(m: Entries<V>) {
    forall i, j :: 0 <= i < j < |m| ==> m[i].0 != m[j].0
  }

  /** `map.has(k)`. */
  predicate HasKey<V>(m: Entries<V>, k: string) {
    k in Keys(m)
  }

  /** `map.get(k)`: the value of the first entry with key `k`. */
  function Lookup<V>(m: Entries<V>, k: string): (r: Option<V>)
    ensures r.None? <==> !HasKey(m, k)
    ensures r.Some? ==> (k, r.value) in m
  {
    if m == [] then None
    else if m[0].0 == k then Some(m[0].1)
    else Lookup(m[1..], k)
  }

  /** `map.delete(k)`: every entry with key `k` goes, the others keep their order. */
  function Remove<V>(m: Entries<V>, k: string): (r: Entries<V>)
    ensures |r| <= |m|
    ensures !HasKey(r, k)
    ensures !HasKey(m, k) ==> r == m
    ensures forall i :: 0 <= i < |r| ==> r[i] in m && r[i].0 != k && HasKey(m, r[i].0)
    ensures forall i :: 0 <= i < |m| && m[i].0 != k ==> m[i] in r
  {
    if m == [] then []
    else
      var rest := Remove(m[1..], k);
      RemoveStep(m, k, rest);
      if m[0].0 == k then rest else [m[0]] + rest
  }

  /** One step of `Remove`: the facts about the tail's result carry over to the whole map. */
  lemma RemoveStep<V>(m: Entries<V>, k: string, rest: Entries<V>)
    requires m != []
    requires |rest| <= |m[1..]| && !HasKey(rest, k)
    requires !HasKey(m[1..], k) ==> rest == m[1..]
    requires forall i :: 0 <= i < |rest| ==> rest[i] in m[1..] && rest[i].0 != k
    requires forall i :: 0 <= i < |m[1..]| && m[1..][i].0 != k ==> m[1..][i] in rest
    ensures var r := if m[0].0 == k then rest else [m[0]] + rest;
      && |r| <= |m| && !HasKey(r, k)
      && (!HasKey(m, k) ==> r == m)
      && (forall i :: 0 <= i < |r| ==> r[i] in m && r[i].0 != k && HasKey(m, r[i].0))
      && (forall i :: 0 <= i < |m| && m[i].0 != k ==> m[i] in r)
  {
    var r := if m[0].0 == k then rest else [m[0]] + rest;
    assert m == [m[0]] + m[1..];
    forall i | 0 <= i < |r|
      ensures r[i] in m && HasKey(m, r[i].0)
    {
      var j :| 0 <= j < |m| && m[j] == r[i];
      assert Keys(m)[j] == r[i].0;
    }
    forall i | 0 <= i < |m| && m[i].0 != k
      ensures m[i] in r
    {
      if i > 0 {
        assert m[i] == m[1..][i - 1];
      }
    }
    if !HasKey(m, k) {
      assert m[0].0 != k;
      assert !HasKey(m[1..], k) by {
        forall i | 0 <= i < |m[1..]|
          ensures Keys(m[1..])[i] != k
        {
          assert Keys(m)[i + 1] == m[i + 1].0;
        }
      }
    }
  }

  /** `map.set(k, v)`: an existing key keeps its position and takes the new value, a new key goes last. */
  function Put<V>(m: Entries<V>, k: string, v: V): (r: Entries<V>)
    requires DistinctKeys(m)
    ensures HasKey(m, k) ==> |r| == |m| && Keys(r) == Keys(m)
    ensures !HasKey(m, k) ==> r == m + [(k, v)]
    ensures forall i :: 0 <= i < |m| ==> r[i] == if m[i].0 == k then (k, v) else m[i]
  {
    if m == [] then [(k, v)]
    else if m[0].0 == k then
      assert !HasKey(m[1..], k);
      [(k, v)] + m[1..]
    else
      var r := [m[0]] + Put(m[1..], k, v);
      assert r[1..] == Put(m[1..], k, v);
      r
  }

  /**
   * The bounded insert both caches perform: when the map already holds
   * `cap` or more entries and `k` is new, the first key in insertion order
   * is deleted (nothing, if the map is empty), then `k` is set.
   */
  function PutBounded<V>(m: Entries<V>, k: string, v: V, cap: int): (r: Entries<V>)
    requires DistinctKeys(m)
    ensures HasKey(m, k) || |m| < cap || m == [] ==> r == Put(m, k, v)
    ensures !HasKey(m, k) && |m| >= cap && m != [] ==> r == m[1..] + [(k, v)]
  {
    // deleting the first key drops exactly the first entry (FirstKeyOnce)
    if |m| >= cap && !HasKey(m, k) && m != [] then Put(m[1..], k, v)
    else Put(m, k, v)
  }

  /** In a map with distinct keys, deleting the first key removes exactly the first entry. */
  lemma FirstKeyOnce<V>(m: Entries<V>)
    requires DistinctKeys(m) && m != []
    ensures Remove(m, m[0].0) == m[1..]
  {
    assert !HasKey(m[1..], m[0].0);
  }

  // ---------------------------------------------------------------- properties

  /** After `set`, `get` of the same key returns the stored value. */
  lemma {:induction false} PutLookup<V>(m: Entries<V>, k: string, v: V)
    requires DistinctKeys(m)
    ensures Lookup(Put(m, k, v), k) == Some(v)
  {
    if m != [] && m[0].0 != k {
      PutLookup(m[1..], k, v);
    }
  }

  /** `set` of one key leaves every other key's value alone. */
  lemma {:induction false} PutLookupOther<V>(m: Entries<V>, k: string, v: V, k': string)
    requires DistinctKeys(m) && k' != k
    ensures Lookup(Put(m, k, v), k') == Lookup(m, k')
  {
    if m != [] {
      PutLookupOther(m[1..], k, v, k');
    }
  }

  /** After `delete`, `get` misses the key and finds every other key as before. */
  lemma {:induction false} RemoveLookup<V>(m: Entries<V>, k: string, k': string)
    ensures Lookup(Remove(m, k), k) == None
    ensures k' != k ==> Lookup(Remove(m, k), k') == Lookup(m, k')
  {
    if m != [] {
      RemoveLookup(m[1..], k, k');
    }
  }

  /** `set` keeps the keys distinct. */
  lemma PutDistinct<V>(m: Entries<V>, k: string, v: V)
    requires DistinctKeys(m)
    ensures DistinctKeys(Put(m, k, v))
  {
    if !HasKey(m, k) {
      assert forall i :: 0 <= i < |m| ==> Keys(m)[i] != k;
    }
  }

  /** `delete` keeps the keys distinct and, for a present key, removes exactly one entry. */
  lemma {:induction false} RemoveDistinct<V>(m: Entries<V>, k: string)
    requires DistinctKeys(m)
    ensures DistinctKeys(Remove(m, k))
    ensures HasKey(m, k) ==> |Remove(m, k)| == |m| - 1
  {
    if m != [] {
      RemoveDistinct(m[1..], k);
      var rest := Remove(m[1..], k);
      assert !HasKey(m[1..], m[0].0);
      if m[0].0 != k {
        forall i | 0 <= i < |rest|
          ensures Keys(rest)[i] != m[0].0
        {
          assert HasKey(m[1..], rest[i].0);
        }
        ConsDistinct(m[0], rest);
        assert Remove(m, k) == [m[0]] + rest;
      }
    }
  }

  /** An entry whose key is new, put in front of a map with distinct keys, keeps them distinct. */
  lemma ConsDistinct<V>(x: (string, V), rest: Entries<V>)
    requires DistinctKeys(rest) && !HasKey(rest, x.0)
    ensures DistinctKeys([x] + rest)
  {
    var r := [x] + rest;
    forall i, j | 0 <= i < j < |r| ensures r[i].0 != r[j].0 {
      assert r[j] == rest[j - 1];
      if i == 0 {
        assert Keys(rest)[j - 1] == rest[j - 1].0;
      } else {
        assert r[i] == rest[i - 1];
      }
    }
  }

  /** The bounded insert stores the value, keeps keys distinct and never lets the map outgrow its capacity. */
  lemma PutBoundedSpec<V>(m: Entries<V>, k: string, v: V, cap: int)
    requires DistinctKeys(m)
    ensures Lookup(PutBounded(m, k, v, cap), k) == Some(v)
    ensures DistinctKeys(PutBounded(m, k, v, cap))
    ensures 1 <= cap && |m| <= cap ==> |PutBounded(m, k, v, cap)| <= cap
    ensures |PutBounded(m, k, v, cap)| <= |m| + 1
  {
    if !HasKey(m, k) && |m| >= cap && m != [] {
      PutLookup(m[1..], k, v);
      PutDistinct(m[1..], k, v);
      assert !HasKey(m[1..], k);
    } else {
      PutLookup(m, k, v);
      PutDistinct(m, k, v);
    }
  }

  /** When a new key evicts, the victim is the oldest entry and every other key keeps its value. */
  lemma EvictsOldest<V>(m: Entries<V>, k: string, v: V, cap: int, k': string)
    requires DistinctKeys(m) && m != [] && |m| >= cap && !HasKey(m, k)
    requires k' != k && k' != m[0].0
    ensures Lookup(PutBounded(m, k, v, cap), m[0].0) == None
    ensures Lookup(PutBounded(m, k, v, cap), k') == Lookup(m, k')
  {
    assert m[0].0 != k;
    PutLookupOther(m[1..], k, v, m[0].0);
    PutLookupOther(m[1..], k, v, k');
    assert !HasKey(m[1..], m[0].0);
  }
}
