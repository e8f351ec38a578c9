/**
 * The application-wide constants: the operating costs of a large vehicle and
 * the shared table of road distances between the default localities, with
 * its lookup.
 */
module Constants {

  /** Driver allowance per trip day, in rupees. */
  const DRIVER_DAILY_BATA: real := 1000.0
  /** Diesel exhaust fluid cost as a fraction of the fuel cost. */
  const DEF_PERCENTAGE_OF_FUEL: real := 0.06
  /** Fuel price per litre the large-vehicle page starts with. */
  const DEFAULT_FUEL_RATE: real := 96.0

  /** The localities the origin and destination inputs start from. */
  const DEFAULT_LOCATIONS: seq<string> := ["Ulubari", "Panbazar", "Ganeshguri", "Beltola", "Jalukbari", "Six Mile"]

  /** Pre-computed road distances in kilometres. */
  const OD_DISTANCES: map<string, map<string, nat>> := map[
    "Ulubari" := map["Panbazar" := 2, "Ganeshguri" := 5, "Beltola" := 8, "Jalukbari" := 8, "Six Mile" := 6],
    "Panbazar" := map["Ulubari" := 2, "Ganeshguri" := 6, "Beltola" := 10, "Jalukbari" := 7, "Six Mile" := 9],
    "Ganeshguri" := map["Ulubari" := 5, "Panbazar" := 6, "Beltola" := 4, "Jalukbari" := 10, "Six Mile" := 3],
    "Beltola" := map["Ulubari" := 8, "Panbazar" := 10, "Ganeshguri" := 4, "Jalukbari" := 13, "Six Mile" := 5],
    "Jalukbari" := map["Ulubari" := 8, "Panbazar" := 7, "Ganeshguri" := 10, "Beltola" := 13, "Six Mile" := 12],
    "Six Mile" := map["Ulubari" := 6, "Panbazar" := 9, "Ganeshguri" := 3, "Beltola" := 5, "Jalukbari" := 12]]

  /** The entry for `from` to `to`, with 0 standing for a missing row or column. */
  function Entry(m: map<string, map<string, nat>>, from: string, to: string): nat {
    if from in m && to in m[from] then m[from][to] else 0
  }

  /**
   * `getODDistance`: 0 between a locality and itself; otherwise the forward
   * entry, else the reverse entry, else 0 -- where an entry of 0 counts as
   * missing.
   */
  function ODDistance(m: map<string, map<string, nat>>, from: string, to: string): (d: nat)
    ensures from == to ==> d == 0
    ensures d != 0 ==> d == Entry(m, from, to) || d == Entry(m, to, from)
    ensures d == 0 <==> from == to || (Entry(m, from, to) == 0 && Entry(m, to, from) == 0)
  {
    if from == to then 0
    else if Entry(m, from, to) != 0 then Entry(m, from, to)
    else if Entry(m, to, from) != 0 then Entry(m, to, from)
    else 0
  }

  /** Every entry has its mirror image with the same distance. */
  predicate Symmetric(m: map<string, map<string, nat>>) {
    forall a, b :: a in m && b in m[a] ==> b in m && a in m[b] && m[b][a] == m[a][b]
  }

  /** Over a symmetric table the distance does not depend on the direction of travel. */
  lemma ODDistanceSymmetric(m: map<string, map<string, nat>>, a: string, b: string)
    requires Symmetric(m)
    ensures ODDistance(m, a, b) == ODDistance(m, b, a)
  {
  }

  /** A present, non-zero forward entry is the distance. */
  lemma ForwardEntryWins(m: map<string, map<string, nat>>, a: string, b: string)
    requires a != b && a in m && b in m[a] && m[a][b] != 0
    ensures ODDistance(m, a, b) == m[a][b]
  {
  }

  /** Without a forward entry the reverse entry is used. */
  lemma ReverseEntryFallback(m: map<string, map<string, nat>>, a: string, b: string)
    requires a != b && Entry(m, a, b) == 0
    ensures ODDistance(m, a, b) == Entry(m, b, a)
  {
  }

  /** Row `a` has no entry for `a` itself, and every entry is positive and mirrored in the row it names. */
  predicate MirroredRow(m: map<string, map<string, nat>>, a: string) {
    a in m && a !in m[a] && forall b :: b in m[a] ==> b in m && a in m[b] && m[b][a] == m[a][b] && m[a][b] > 0
  }

  /** Each row of the shipped table is mirrored in the rows it names. */
  lemma RowMirrored(a: string)
    requires a in OD_DISTANCES
    ensures MirroredRow(OD_DISTANCES, a)
  {
    if a == "Ulubari" {
      UlubariRow();
    } else if a == "Panbazar" {
      PanbazarRow();
    } else if a == "Ganeshguri" {
      GaneshguriRow();
    } else if a == "Beltola" {
      BeltolaRow();
    } else if a == "Jalukbari" {
      JalukbariRow();
    } else {
      SixMileRow();
    }
  }

  lemma UlubariRow() ensures MirroredRow(OD_DISTANCES, "Ulubari") {}
  lemma PanbazarRow() ensures MirroredRow(OD_DISTANCES, "Panbazar") {}
  lemma GaneshguriRow() ensures MirroredRow(OD_DISTANCES, "Ganeshguri") {}
  lemma BeltolaRow() ensures MirroredRow(OD_DISTANCES, "Beltola") {}
  lemma JalukbariRow() ensures MirroredRow(OD_DISTANCES, "Jalukbari") {}
  lemma SixMileRow() ensures MirroredRow(OD_DISTANCES, "Six Mile") {}

  /**
   * The shipped table is symmetric with positive entries, so between two
   * different tabulated localities the lookup gives the tabulated distance
   * either way round.
   */
  lemma ShippedTableSymmetric()
    ensures Symmetric(OD_DISTANCES)
    ensures forall a, b :: a in OD_DISTANCES && b in OD_DISTANCES[a] ==> OD_DISTANCES[a][b] > 0
  {
    forall a | a in OD_DISTANCES
      ensures MirroredRow(OD_DISTANCES, a)
    {
      RowMirrored(a);
    }
  }

  /** Between two different tabulated localities the shipped lookup gives the entry, both ways. */
  lemma ShippedDistanceTabulated(a: string, b: string)
    requires a in OD_DISTANCES && b in OD_DISTANCES[a]
    ensures a != b
    ensures ODDistance(OD_DISTANCES, a, b) == OD_DISTANCES[a][b] == ODDistance(OD_DISTANCES, b, a)
  {
    RowMirrored(a);
  }
}
