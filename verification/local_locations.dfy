/**
 * The local catalogue of Guwahati localities and its scored search, which
 * answers the location inputs without any provider request, and the icon
 * shown for each kind of place.
 */
module LocalLocations {
  import opened Text

  /** A catalogue entry: display name, full address and kind of place. */
  datatype Location = Location(name: string, fullAddress: string, kind: string)

  const GUWAHATI_LOCATIONS: seq<Location> := [
    Location("Ulubari", "Ulubari, Guwahati, Assam, India", "area"),
    Location("Panbazar", "Panbazar, Guwahati, Assam, India", "area"),
    Location("Ganeshguri", "Ganeshguri, Guwahati, Assam, India", "area"),
    Location("Beltola", "Beltola, Guwahati, Assam, India", "area"),
    Location("Jalukbari", "Jalukbari, Guwahati, Assam, India", "area"),
    Location("Six Mile", "Six Mile, Guwahati, Assam, India", "area"),
    Location("Zoo Road", "Zoo Road, Guwahati, Assam, India", "area"),
    Location("Chandmari", "Chandmari, Guwahati, Assam, India", "area"),
    Location("Maligaon", "Maligaon, Guwahati, Assam, India", "area"),
    Location("Dispur", "Dispur, Guwahati, Assam, India", "area"),
    Location("Bhangagarh", "Bhangagarh, Guwahati, Assam, India", "area"),
    Location("Khanapara", "Khanapara, Guwahati, Assam, India", "area"),
    Location("Hatigaon", "Hatigaon, Guwahati, Assam, India", "area"),
    Location("Kahilipara", "Kahilipara, Guwahati, Assam, India", "area"),
    Location("Basistha", "Basistha, Guwahati, Assam, India", "area"),
    Location("Bhetapara", "Bhetapara, Guwahati, Assam, India", "area"),
    Location("Narengi", "Narengi, Guwahati, Assam, India", "area"),
    Location("Noonmati", "Noonmati, Guwahati, Assam, India", "area"),
    Location("Rehabari", "Rehabari, Guwahati, Assam, India", "area"),
    Location("Silpukhuri", "Silpukhuri, Guwahati, Assam, India", "area"),
    Location("Uzanbazar", "Uzanbazar, Guwahati, Assam, India", "area"),
    Location("Lakhtokia", "Lakhtokia, Guwahati, Assam, India", "area"),
    Location("Athgaon", "Athgaon, Guwahati, Assam, India", "area"),
    Location("Paltan Bazar", "Paltan Bazar, Guwahati, Assam, India", "area"),
    Location("Fancy Bazar", "Fancy Bazar, Guwahati, Assam, India", "area"),
    Location("Ambari", "Ambari, Guwahati, Assam, India", "area"),
    Location("Lachit Nagar", "Lachit Nagar, Guwahati, Assam, India", "area"),
    Location("Christian Basti", "Christian Basti, Guwahati, Assam, India", "area"),
    Location("Satgaon", "Satgaon, Guwahati, Assam, India", "area"),
    Location("Lokhra", "Lokhra, Guwahati, Assam, India", "area"),
    Location("Garchuk", "Garchuk, Guwahati, Assam, India", "area"),
    Location("VIP Road", "VIP Road, Guwahati, Assam, India", "area"),
    Location("GS Road", "GS Road, Guwahati, Assam, India", "area"),
    Location("RGB Road", "RGB Road, Guwahati, Assam, India", "area"),
    Location("AT Road", "AT Road, Guwahati, Assam, India", "area"),
    Location("Guwahati Railway Station", "Guwahati Railway Station, Paltan Bazar, Guwahati, Assam", "transport"),
    Location("Kamakhya Railway Station", "Kamakhya Railway Station, Guwahati, Assam", "transport"),
    Location("LGBI Airport", "Lokpriya Gopinath Bordoloi International Airport, Borjhar, Guwahati", "transport"),
    Location("Guwahati Airport", "Lokpriya Gopinath Bordoloi International Airport, Borjhar, Guwahati", "transport"),
    Location("ISBT Guwahati", "ISBT, Betkuchi, Guwahati, Assam", "transport"),
    Location("Adabari Bus Stand", "Adabari Bus Stand, Guwahati, Assam", "transport"),
    Location("Paltan Bazar Bus Stand", "Paltan Bazar Bus Stand, Guwahati, Assam", "transport"),
    Location("Kamakhya Temple", "Kamakhya Temple, Nilachal Hill, Guwahati, Assam", "landmark"),
    Location("Umananda Temple", "Umananda Temple, Peacock Island, Guwahati, Assam", "landmark"),
    Location("Navagraha Temple", "Navagraha Temple, Chitrachal Hill, Guwahati, Assam", "landmark"),
    Location("Assam State Zoo", "Assam State Zoo, RG Baruah Road, Guwahati, Assam", "landmark"),
    Location("Guwahati Planetarium", "Guwahati Planetarium, Uzanbazar, Guwahati, Assam", "landmark"),
    Location("Srimanta Sankardev Kalakshetra", "Srimanta Sankardev Kalakshetra, Panjabari, Guwahati, Assam", "landmark"),
    Location("City Centre Mall", "City Centre Mall, Christian Basti, Guwahati, Assam", "shopping"),
    Location("Vishal Mega Mart Six Mile", "Vishal Mega Mart, Six Mile, Guwahati, Assam", "shopping"),
    Location("Big Bazaar Guwahati", "Big Bazaar, GS Road, Guwahati, Assam", "shopping"),
    Location("Hub Mall", "Hub Mall, Khanapara, Guwahati, Assam", "shopping"),
    Location("GMCH", "Gauhati Medical College and Hospital, Bhangagarh, Guwahati, Assam", "hospital"),
    Location("Gauhati Medical College", "Gauhati Medical College and Hospital, Bhangagarh, Guwahati, Assam", "hospital"),
    Location("Nemcare Hospital", "Nemcare Hospital, Bhangagarh, Guwahati, Assam", "hospital"),
    Location("Down Town Hospital", "Down Town Hospital, Dispur, Guwahati, Assam", "hospital"),
    Location("GNRC Hospital", "GNRC Hospital, Six Mile, Guwahati, Assam", "hospital"),
    Location("Hayat Hospital", "Hayat Hospital, Dispur, Guwahati, Assam", "hospital"),
    Location("Excelcare Hospital", "Excelcare Hospital, Hatigaon, Guwahati, Assam", "hospital"),
    Location("Gauhati University", "Gauhati University, Jalukbari, Guwahati, Assam", "education"),
    Location("IIT Guwahati", "Indian Institute of Technology Guwahati, North Guwahati, Assam", "education"),
    Location("Cotton University", "Cotton University, Panbazar, Guwahati, Assam", "education"),
    Location("Handique Girls College", "Handique Girls College, Panbazar, Guwahati, Assam", "education"),
    Location("Don Bosco University", "Assam Don Bosco University, Azara, Guwahati, Assam", "education"),
    Location("Vivanta Guwahati", "Vivanta Guwahati, GS Road, Guwahati, Assam", "hotel"),
    Location("Radisson Blu Guwahati", "Radisson Blu, Basistha, Guwahati, Assam", "hotel"),
    Location("Novotel Guwahati", "Novotel Guwahati, GS Road, Guwahati, Assam", "hotel")]

  /** The default number of results. */
  const DEFAULT_MAX_RESULTS: nat := 5

  /** The query as it is matched: lower-cased, then trimmed. */
  function Normalize(query: string): (q: string)
    ensures |q| <= |query| && NoCapitals(q) && Unpadded(q)
  {
    LowerTrimShape(query);
    Trim(ToLower(query))
  }

  /**
   * The match score of a name and an address, both lower-cased, against the
   * query: exact name 100, else name prefix 80, else name contains 60, else
   * address contains 40, else 0.
   */
  function BaseScore(name: string, address: string, q: string): (s: nat)
    ensures s == 100 <==> name == q
    ensures s == 80 <==> name != q && StartsWith(name, q)
    ensures s == 60 <==> !StartsWith(name, q) && Includes(name, q)
    ensures s == 40 <==> !Includes(name, q) && Includes(address, q)
    ensures s == 0 <==> !Includes(name, q) && !Includes(address, q)
  {
    IncludesSelf(name);
    PrefixIncluded(name, q);
    if name == q then 100
    else if StartsWith(name, q) then 80
    else if Includes(name, q) then 60
    else if Includes(address, q) then 40
    else 0
  }

  lemma PrefixIncluded(s: string, p: string)
    ensures StartsWith(s, p) ==> Includes(s, p)
  {
    if StartsWith(s, p) {
      StartsWithIncludes(s, p);
    }
  }

  /** The points one query word earns: 10 in the name, 5 in the address, only for words of 3 or more characters. */
  function WordPoints(name: string, address: string, w: string): nat {
    if |w| >= 3 then (if Includes(name, w) then 10 else 0) + (if Includes(address, w) then 5 else 0) else 0
  }

  /** The bonus of all query words. */
  function WordBonus(name: string, address: string, words: seq<string>): (b: nat)
    ensures b <= 15 * |words|
    ensures b == 0 <==> forall k :: 0 <= k < |words| ==> WordPoints(name, address, words[k]) == 0
  {
    if words == [] then 0
    else
      var rest := WordBonus(name, address, words[1..]);
      assert forall k :: 1 <= k < |words| ==> words[k] == words[1..][k - 1];
      WordPoints(name, address, words[0]) + rest
  }

  /** Some word of the query earns points in the name or the address. */
  predicate WordMatches(name: string, address: string, words: seq<string>) {
    exists k :: 0 <= k < |words| && WordPoints(name, address, words[k]) > 0
  }

  /** The score of a catalogue entry for a normalised query. */
  function Score(loc: Location, q: string): nat {
    var name := ToLower(loc.name);
    var address := ToLower(loc.fullAddress);
    BaseScore(name, address, q) + WordBonus(name, address, Words(q))
  }

  /**
   * An entry scores exactly when the query, or one of its words of three or
   * more characters, occurs in the lower-cased name or address; an exact name
   * scores at least 100.
   */
  lemma ScorePositive(loc: Location, q: string)
    ensures Score(loc, q) > 0 <==>
      || Includes(ToLower(loc.name), q) || Includes(ToLower(loc.fullAddress), q)
      || WordMatches(ToLower(loc.name), ToLower(loc.fullAddress), Words(q))
    ensures ToLower(loc.name) == q ==> Score(loc, q) >= 100
  {
    var name := ToLower(loc.name);
    var address := ToLower(loc.fullAddress);
    var bonus := WordBonus(name, address, Words(q));
    if !WordMatches(name, address, Words(q)) {
      assert bonus == 0;
    }
  }

  /** A catalogue entry with its position and its score. */
  datatype Scored = Scored(index: nat, loc: Location, score: nat)

  /** The score of every entry, in catalogue order. */
  function ScoreAll(catalogue: seq<Location>, q: string): (r: seq<Scored>)
    ensures |r| == |catalogue|
    ensures forall i :: 0 <= i < |r| ==> r[i] == Scored(i, catalogue[i], Score(catalogue[i], q))
  {
    seq(|catalogue|, i requires 0 <= i < |catalogue| => Scored(i, catalogue[i], Score(catalogue[i], q)))
  }

  /** Positions strictly increase along the sequence. */
  predicate Increasing(s: seq<Scored>) {
    forall i, j :: 0 <= i < j < |s| ==> s[i].index < s[j].index
  }

  /** The entries with a positive score, in their order. */
  function Positive(s: seq<Scored>): (r: seq<Scored>)
    ensures forall x :: x in r <==> x in s && x.score > 0
    ensures Increasing(s) ==> Increasing(r)
  {
    if s == [] then []
    else
      var rest := Positive(s[1..]);
      if s[0].score > 0 then [s[0]] + rest else rest
  }

  /** `a` comes before `b` in the result: a higher score, or the same score and an earlier position. */
  predicate Before(a: Scored, b: Scored) {
    a.score > b.score || (a.score == b.score && a.index < b.index)
  }

  /** Every earlier entry comes before every later one. */
  predicate Ranked(s: seq<Scored>) {
    forall i, j :: 0 <= i < j < |s| ==> Before(s[i], s[j])
  }

  /** Insert `x` after every entry scoring at least as much: one step of a stable descending sort. */
  function Insert(s: seq<Scored>, x: Scored): (r: seq<Scored>)
    ensures multiset(r) == multiset(s) + multiset{x}
  {
    if s == [] then [x]
    else if s[0].score < x.score then [x] + s
    else
      assert s == [s[0]] + s[1..];
      [s[0]] + Insert(s[1..], x)
  }

  /** Inserting an entry from later in the catalogue keeps a ranked sequence ranked. */
  lemma {:induction false} InsertRanked(s: seq<Scored>, x: Scored)
    requires Ranked(s)
    requires forall y :: y in s ==> y.index < x.index
    ensures Ranked(Insert(s, x))
  {
    if s != [] && s[0].score >= x.score {
      var t := s[1..];
      assert forall y :: y in t ==> y in s;
      InsertRanked(t, x);
      var r := Insert(t, x);
      forall y | y in r
        ensures Before(s[0], y)
      {
        assert y in multiset(r);
        if y != x {
          assert y in multiset(t);
          var j :| 0 <= j < |t| && t[j] == y;
          assert s[j + 1] == y;
        }
      }
      ConsRanked(s[0], r);
    } else if s != [] {
      forall y | y in s
        ensures Before(x, y)
      {
        var j :| 0 <= j < |s| && s[j] == y;
        if j > 0 {
          assert Before(s[0], s[j]);
        }
      }
      ConsRanked(x, s);
    }
  }

  /** An entry ranked before every entry of a ranked sequence can head it. */
  lemma ConsRanked(h: Scored, t: seq<Scored>)
    requires Ranked(t)
    requires forall y :: y in t ==> Before(h, y)
    ensures Ranked([h] + t)
  {
    var r := [h] + t;
    forall i, j | 0 <= i < j < |r|
      ensures Before(r[i], r[j])
    {
      assert r[j] == t[j - 1];
      if i > 0 {
        assert r[i] == t[i - 1];
      }
    }
  }

  /** `sort((a, b) => b.score - a.score)`: a stable sort on descending score. */
  function SortByScore(s: seq<Scored>): (r: seq<Scored>)
    ensures multiset(r) == multiset(s)
  {
    if s == [] then []
    else
      assert s == s[..|s| - 1] + [s[|s| - 1]];
      Insert(SortByScore(s[..|s| - 1]), s[|s| - 1])
  }

  /**
   * Sorting entries taken in catalogue order ranks them: scores never
   * increase, and equal scores keep catalogue order.
   */
  lemma {:induction false} SortRanks(s: seq<Scored>)
    ensures Increasing(s) ==> Ranked(SortByScore(s))
  {
    if s != [] && Increasing(s) {
      var init, last := s[..|s| - 1], s[|s| - 1];
      SortRanks(init);
      forall y | y in SortByScore(init)
        ensures y.index < last.index
      {
        assert y in multiset(SortByScore(init));
        var j :| 0 <= j < |init| && init[j] == y;
        assert s[j] == y;
      }
      InsertRanked(SortByScore(init), last);
    }
  }

  /** The positive entries, ranked and cut to `maxResults`. */
  function Select(s: seq<Scored>, maxResults: nat): (r: seq<Scored>)
    ensures |r| <= maxResults
    ensures Increasing(s) ==> Ranked(r)
    ensures forall i :: 0 <= i < |r| ==> r[i] in s && r[i].score > 0
  {
    var ranked := SortByScore(Positive(s));
    SortRanks(Positive(s));
    var r := ranked[..if maxResults < |ranked| then maxResults else |ranked|];
    assert forall i :: 0 <= i < |r| ==> r[i] in multiset(Positive(s));
    r
  }

  /**
   * Nothing is missed: a positive entry that is not selected means the
   * selection is full and every selected entry comes before it.
   */
  lemma SelectComplete(s: seq<Scored>, maxResults: nat, e: Scored)
    requires Increasing(s) && e in s && e.score > 0
    ensures var r := Select(s, maxResults);
      e in r || (|r| == maxResults && forall i :: 0 <= i < |r| ==> Before(r[i], e))
  {
    var ranked := SortByScore(Positive(s));
    SortRanks(Positive(s));
    assert e in multiset(ranked);
    var p :| 0 <= p < |ranked| && ranked[p] == e;
    var cut := if maxResults < |ranked| then maxResults else |ranked|;
    var r := ranked[..cut];
    assert r == Select(s, maxResults);
    if p < cut {
      assert r[p] == e;
    } else {
      forall i | 0 <= i < |r|
        ensures Before(r[i], e)
      {
        assert r[i] == ranked[i];
      }
    }
  }

  /** The scored result before the score is dropped: filtered, sorted and cut to `maxResults`. */
  function Top(catalogue: seq<Location>, q: string, maxResults: nat): (r: seq<Scored>)
    ensures |r| <= maxResults
    ensures Ranked(r)
    ensures forall i :: 0 <= i < |r| ==>
      r[i].index < |catalogue| && r[i].loc == catalogue[r[i].index]
      && r[i].score == Score(r[i].loc, q) > 0
  {
    var scored := ScoreAll(catalogue, q);
    assert Increasing(scored);
    Select(scored, maxResults)
  }

  /**
   * `searchLocalLocations`: nothing for a query of fewer than two
   * characters; otherwise the best-scoring catalogue entries, at most
   * `maxResults` of them, in non-increasing score order, ties in catalogue
   * order (the ranked selection `Top`, with the scores dropped).
   */
  function Search(catalogue: seq<Location>, query: string, maxResults: nat): (r: seq<Location>)
    ensures |query| < 2 ==> r == []
    ensures |r| <= maxResults
    ensures forall i :: 0 <= i < |r| ==> r[i] in catalogue && Score(r[i], Normalize(query)) > 0
    ensures forall i, j :: 0 <= i < j < |r| ==> Score(r[i], Normalize(query)) >= Score(r[j], Normalize(query))
    ensures |query| >= 2 ==> r == Locations(Top(catalogue, Normalize(query), maxResults))
  {
    if |query| < 2 then []
    else
      var top := Top(catalogue, Normalize(query), maxResults);
      LocationsRanked(top, catalogue, Normalize(query));
      Locations(top)
  }

  /** The entries of a ranked selection from the catalogue come in non-increasing score order. */
  lemma LocationsRanked(top: seq<Scored>, catalogue: seq<Location>, q: string)
    requires Ranked(top)
    requires forall i :: 0 <= i < |top| ==>
      top[i].index < |catalogue| && top[i].loc == catalogue[top[i].index] && top[i].score == Score(top[i].loc, q) > 0
    ensures var r := Locations(top);
      && (forall i :: 0 <= i < |r| ==> r[i] in catalogue && Score(r[i], q) > 0)
      && (forall i, j :: 0 <= i < j < |r| ==> Score(r[i], q) >= Score(r[j], q))
  {
    var r := Locations(top);
    forall i, j | 0 <= i < j < |r|
      ensures Score(r[i], q) >= Score(r[j], q)
    {
      assert Before(top[i], top[j]);
    }
  }

  /** The catalogue entries of a scored selection, in its order. */
  function Locations(top: seq<Scored>): (r: seq<Location>)
    ensures |r| == |top| && forall i :: 0 <= i < |r| ==> r[i] == top[i].loc
  {
    seq(|top|, i requires 0 <= i < |top| => top[i].loc)
  }

  /** The catalogue search of the application. */
  function SearchLocalLocations(query: string, maxResults: nat): (r: seq<Location>)
    ensures |query| < 2 ==> r == []
    ensures |r| <= maxResults
    ensures forall i :: 0 <= i < |r| ==> Score(r[i], Normalize(query)) > 0
  {
    Search(GUWAHATI_LOCATIONS, query, maxResults)
  }

  /**
   * Nothing is missed: an entry with a positive score that is not returned
   * means the result is full and every returned entry comes before it.
   */
  lemma TopIsComplete(catalogue: seq<Location>, q: string, maxResults: nat, k: nat)
    requires k < |catalogue| && Score(catalogue[k], q) > 0
    ensures var r := Top(catalogue, q, maxResults);
      var e := Scored(k, catalogue[k], Score(catalogue[k], q));
      e in r || (|r| == maxResults && forall i :: 0 <= i < |r| ==> Before(r[i], e))
  {
    var scored := ScoreAll(catalogue, q);
    assert scored[k] in scored;
    SelectComplete(scored, maxResults, scored[k]);
  }

  /**
   * Nothing is missed by the search either: a catalogue entry that scores
   * above zero for a long-enough query is returned, or the result is full
   * and every returned entry scores at least as much.
   */
  lemma SearchIsComplete(catalogue: seq<Location>, query: string, maxResults: nat, k: nat)
    requires |query| >= 2 && k < |catalogue| && Score(catalogue[k], Normalize(query)) > 0
    ensures var r := Search(catalogue, query, maxResults);
      catalogue[k] in r
      || (|r| == maxResults && forall i :: 0 <= i < |r| ==> Score(r[i], Normalize(query)) >= Score(catalogue[k], Normalize(query)))
  {
    TopLocationsComplete(catalogue, Normalize(query), maxResults, k);
  }

  /** Completeness of `Top`, stated on its catalogue entries. */
  lemma TopLocationsComplete(catalogue: seq<Location>, q: string, maxResults: nat, k: nat)
    requires k < |catalogue| && Score(catalogue[k], q) > 0
    ensures var r := Locations(Top(catalogue, q, maxResults));
      catalogue[k] in r
      || (|r| == maxResults && forall i :: 0 <= i < |r| ==> Score(r[i], q) >= Score(catalogue[k], q))
  {
    var top := Top(catalogue, q, maxResults);
    TopIsComplete(catalogue, q, maxResults, k);
    var e := Scored(k, catalogue[k], Score(catalogue[k], q));
    LocationsComplete(top, e, maxResults);
    var r := Locations(top);
    if catalogue[k] !in r {
      forall i | 0 <= i < |r|
        ensures Score(r[i], q) >= e.score
      {
        assert top[i].score >= e.score && r[i] == top[i].loc;
      }
    }
  }

  /** Completeness of a scored selection carries over to its catalogue entries. */
  lemma LocationsComplete(top: seq<Scored>, e: Scored, maxResults: nat)
    requires e in top || (|top| == maxResults && forall i :: 0 <= i < |top| ==> Before(top[i], e))
    ensures e.loc in Locations(top)
      || (|top| == maxResults && forall i :: 0 <= i < |top| ==> top[i].score >= e.score)
  {
    var r := Locations(top);
    if e in top {
      var p :| 0 <= p < |top| && top[p] == e;
      assert r[p] == e.loc;
    } else {
      forall i | 0 <= i < |top|
        ensures top[i].score >= e.score
      {
        assert Before(top[i], e);
      }
    }
  }

  /** Lower-casing distributes over concatenation. */
  lemma ToLowerConcat(a: string, b: string)
    ensures ToLower(a + b) == ToLower(a) + ToLower(b)
  {
  }

  /** Normalising ignores case and white space around the query. */
  lemma {:induction false} NormalizeIgnoresCaseAndPadding(pre: string, query: string, post: string)
    requires forall i :: 0 <= i < |pre| ==> IsSpace(pre[i])
    requires forall i :: 0 <= i < |post| ==> IsSpace(post[i])
    ensures Normalize(pre + ToLower(query) + post) == Normalize(query)
  {
    ToLowerConcat(pre + ToLower(query), post);
    ToLowerConcat(pre, ToLower(query));
    ToLowerIdempotent(query);
    assert ToLower(pre) == pre && ToLower(post) == post;
    TrimIgnoresPadding(pre, ToLower(query), post);
  }

  /** The search ignores case and white space around a query of two or more characters. */
  lemma SearchIgnoresCaseAndPadding(catalogue: seq<Location>, pre: string, query: string, post: string,
                                    maxResults: nat)
    requires forall i :: 0 <= i < |pre| ==> IsSpace(pre[i])
    requires forall i :: 0 <= i < |post| ==> IsSpace(post[i])
    requires |query| >= 2
    ensures Search(catalogue, pre + ToLower(query) + post, maxResults) == Search(catalogue, query, maxResults)
  {
    NormalizeIgnoresCaseAndPadding(pre, query, post);
  }

  /** The icon of each kind of place. */
  const ICONS: map<string, string> := map[
    "area" := "\U{1F4CD}",
    "transport" := "\U{1F689}",
    "landmark" := "\U{1F3DB}\U{FE0F}",
    "shopping" := "\U{1F6D2}",
    "hospital" := "\U{1F3E5}",
    "education" := "\U{1F393}",
    "hotel" := "\U{1F3E8}",
    "default" := "\U{1F4CD}"]

  /** `getLocationIcon`: the icon of the kind, or the default pin for an unknown kind. */
  function GetLocationIcon(kind: string): (icon: string)
    ensures kind in ICONS ==> icon == ICONS[kind]
    ensures kind !in ICONS ==> icon == ICONS["default"]
    ensures icon != []
  {
    if kind in ICONS && ICONS[kind] != [] then ICONS[kind] else ICONS["default"]
  }

  /** Areas show the same pin as an unknown kind; the kinds other than areas each have a different icon. */
  lemma AreaIconIsDefault(kind: string)
    requires kind !in ICONS
    ensures GetLocationIcon("area") == GetLocationIcon(kind)
    ensures forall a, b :: a in ICONS && b in ICONS && a != b && ICONS[a] == ICONS[b] ==> {a, b} == {"area", "default"}
  {
  }
}
