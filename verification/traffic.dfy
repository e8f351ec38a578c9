/**
 * The traffic classification both route fetchers apply to a provider reply:
 * the ratio of the in-traffic travel time to the free-flow travel time, read
 * against the thresholds 1.1 and 1.3.
 */
module Traffic {

  /** The three traffic levels the fare pages price. */
  datatype Level = Low | Medium | High

  /** Position of a level on the scale Low < Medium < High. */
  function Rank(l: Level): nat {
    match l
    case Low => 0
    case Medium => 1
    case High => 2
  }

  /** The level of a ratio: below 1.1 is Low, above 1.3 is High, anything between is Medium. */
  function Classify(ratio: real): (l: Level)
    ensures l == Low <==> ratio < 1.1
    ensures l == High <==> ratio > 1.3
    ensures l == Medium <==> 1.1 <= ratio <= 1.3
  {
    if ratio < 1.1 then Low else if ratio > 1.3 then High else Medium
  }

  /** A larger ratio never gives a lower level. */
  lemma ClassifyMonotone(r1: real, r2: real)
    requires r1 <= r2
    ensures Rank(Classify(r1)) <= Rank(Classify(r2))
  {
  }

  /**
   * The level of a pair of durations, with the ratio taken as 1 when the
   * free-flow duration is not positive.  Stated without division: the
   * in-traffic time is compared with 1.1 and 1.3 times the free-flow time.
   */
  function LevelOf(base: real, traffic: real): (l: Level)
    ensures l == Low <==> (base <= 0.0 || traffic * 10.0 < base * 11.0)
    ensures l == High <==> (base > 0.0 && traffic * 10.0 > base * 13.0)
    ensures l == Medium <==> (base > 0.0 && base * 11.0 <= traffic * 10.0 <= base * 13.0)
  {
    var ratio := if base > 0.0 then traffic / base else 1.0;
    RatioBelow(traffic, base, 1.1);
    RatioAbove(traffic, base, 1.3);
    Classify(ratio)
  }

  lemma RatioBelow(traffic: real, base: real, k: real)
    ensures base > 0.0 ==> (traffic / base < k <==> traffic < k * base)
  {
    if base > 0.0 {
      assert traffic == (traffic / base) * base;
    }
  }

  lemma RatioAbove(traffic: real, base: real, k: real)
    ensures base > 0.0 ==> (traffic / base > k <==> traffic > k * base)
  {
    if base > 0.0 {
      assert traffic == (traffic / base) * base;
    }
  }

  /** With no traffic delay at all the level is Low, whatever the duration. */
  lemma NoDelayIsLow(d: real)
    ensures LevelOf(d, d) == Low
  {
  }

  /**
   * The level depends on the ratio only, so measuring both durations in
   * minutes instead of seconds gives the same level.
   */
  lemma {:induction false} LevelScaleFree(base: real, traffic: real, unit: real)
    requires unit > 0.0
    ensures LevelOf(base / unit, traffic / unit) == LevelOf(base, traffic)
  {
    var b, t := base / unit, traffic / unit;
    assert base == b * unit && traffic == t * unit;
    assert b > 0.0 <==> base > 0.0;
    assert t * 10.0 < b * 11.0 <==> traffic * 10.0 < base * 11.0 by {
      assert traffic * 10.0 == (t * 10.0) * unit;
      assert base * 11.0 == (b * 11.0) * unit;
    }
    assert t * 10.0 > b * 13.0 <==> traffic * 10.0 > base * 13.0 by {
      assert traffic * 10.0 == (t * 10.0) * unit;
      assert base * 13.0 == (b * 13.0) * unit;
    }
  }

  /** For a positive free-flow time, `LevelOf` is the classification of the plain ratio. */
  lemma LevelOfIsRatio(base: real, traffic: real)
    requires base > 0.0
    ensures LevelOf(base, traffic) == Classify(traffic / base)
  {
  }
}
