/**
 * The small-vehicle fare of the preview page and of the small-vehicle page:
 * the distance chosen among the live route, the origin-destination table
 * and the manual kilometres; the base fare of the vehicle; the subtotal; the
 * three multipliers; and the commission on top.  The two pages share the
 * formula and all tables but the traffic multipliers.
 */
module Fares {
  import opened Wrappers
  import opened Traffic

  /** A pricing configuration; each lookup table is a string-keyed object. */
  datatype Pricing = Pricing(
    baseFare: real,
    perKm: real,
    waitPerMin: real,
    stopCharge: real,
    commissionRate: real,
    traffic: map<string, real>,
    vehicle: map<string, real>,
    vehicleBaseFare: map<string, real>,
    condition: map<string, real>,
    odLocations: seq<string>,
    odMatrix: map<string, map<string, real>>)

  const VEHICLE_MULTIPLIERS: map<string, real> := map[
    "3 Wheeler - 500kg" := 1.0,
    "Intra - 1 Ton" := 1.25,
    "Bolero Pickup - 2 Ton" := 1.55,
    "Tata 407 - 4 Ton" := 2.0]

  const VEHICLE_BASE_FARES: map<string, real> := map[
    "3 Wheeler - 500kg" := 150.0,
    "Intra - 1 Ton" := 250.0,
    "Bolero Pickup - 2 Ton" := 350.0,
    "Tata 407 - 4 Ton" := 500.0]

  const CONDITION_MULTIPLIERS: map<string, real> := map["New" := 1.0, "Mid" := 1.05, "Old" := 1.1]

  const OD_LOCATIONS: seq<string> := ["Ulubari", "Panbazar", "Ganeshguri", "Beltola", "Jalukbari", "Six Mile"]

  /** Road distances in kilometres between the tabulated localities. */
  const OD_MATRIX: map<string, map<string, real>> := map[
    "Ulubari" := map["Panbazar" := 3.5, "Ganeshguri" := 3.5, "Beltola" := 6.0, "Jalukbari" := 8.0, "Six Mile" := 6.0],
    "Panbazar" := map["Ulubari" := 3.5, "Ganeshguri" := 6.0, "Beltola" := 8.5, "Jalukbari" := 7.0, "Six Mile" := 9.0],
    "Ganeshguri" := map["Ulubari" := 3.5, "Panbazar" := 6.0, "Beltola" := 4.0, "Jalukbari" := 10.0, "Six Mile" := 3.0],
    "Beltola" := map["Ulubari" := 6.0, "Panbazar" := 8.5, "Ganeshguri" := 4.0, "Jalukbari" := 13.0, "Six Mile" := 5.0],
    "Jalukbari" := map["Ulubari" := 8.0, "Panbazar" := 7.0, "Ganeshguri" := 10.0, "Beltola" := 13.0, "Six Mile" := 12.0],
    "Six Mile" := map["Ulubari" := 6.0, "Panbazar" := 9.0, "Ganeshguri" := 3.0, "Beltola" := 5.0, "Jalukbari" := 12.0]]

  /** The preview page's pricing: light traffic earns a 5% discount. */
  const PREVIEW_PRICING: Pricing := Pricing(
    200.0, 30.0, 2.0, 50.0, 0.15,
    map["Low" := 0.95, "Medium" := 1.0, "High" := 1.2],
    VEHICLE_MULTIPLIERS, VEHICLE_BASE_FARES, CONDITION_MULTIPLIERS, OD_LOCATIONS, OD_MATRIX)

  /** The small-vehicle page's pricing: medium traffic costs 10% more. */
  const SMALL_VEHICLE_PRICING: Pricing := Pricing(
    200.0, 30.0, 2.0, 50.0, 0.15,
    map["Low" := 1.0, "Medium" := 1.1, "High" := 1.2],
    VEHICLE_MULTIPLIERS, VEHICLE_BASE_FARES, CONDITION_MULTIPLIERS, OD_LOCATIONS, OD_MATRIX)

  /** What the fare form holds. `None` is a live distance not (yet) reported. */
  datatype FareInputs = FareInputs(
    vehicle: string,
    traffic: string,
    condition: string,
    origin: string,
    destination: string,
    baseKm: real,
    extraKm: real,
    waitMin: real,
    stops: real,
    loading: real,
    apiDistanceKm: Option<real>,
    apiDurationMin: Option<real>)

  /** Every intermediate figure the page shows. */
  datatype Breakdown = Breakdown(
    effectiveKm: real,
    baseFare: real,
    subtotal: real,
    combinedMult: real,
    beforeCommission: real,
    commission: real,
    finalFare: real)

  /**
   * The tabulated distance: 0 for an empty or repeated location and for an
   * origin without a row; the forward entry when there is one; otherwise the
   * reverse entry, or 0.
   */
  function ODDistance(p: Pricing, from: string, to: string): (km: real)
    ensures from == [] || to == [] || from == to || from !in p.odMatrix ==> km == 0.0
    // a forward entry is used as it is, even a zero one
    ensures from != [] && to != [] && from != to && from in p.odMatrix && to in p.odMatrix[from] ==>
      km == p.odMatrix[from][to]
    // a non-zero distance is always a tabulated one, forward or reverse
    ensures km != 0.0 ==>
      || (from in p.odMatrix && to in p.odMatrix[from] && km == p.odMatrix[from][to])
      || (to in p.odMatrix && from in p.odMatrix[to] && km == p.odMatrix[to][from])
  {
    if from == [] || to == [] || from == to then 0.0
    else if from !in p.odMatrix then 0.0
    else if to in p.odMatrix[from] then p.odMatrix[from][to]
    else if to in p.odMatrix && from in p.odMatrix[to] then p.odMatrix[to][from]
    else 0.0
  }

  /** Every entry has its mirror image with the same distance. */
  predicate SymmetricMatrix(m: map<string, map<string, real>>) {
    forall a, b :: a in m && b in m[a] ==> b in m && a in m[b] && m[b][a] == m[a][b]
  }

  /** Over a symmetric table the lookup does not depend on the direction of travel. */
  lemma ODDistanceSymmetric(p: Pricing, a: string, b: string)
    requires SymmetricMatrix(p.odMatrix)
    ensures ODDistance(p, a, b) == ODDistance(p, b, a)
  {
  }

  /** Over a symmetric table a tabulated pair gives its entry, in both directions. */
  lemma ODDistanceTabulated(p: Pricing, a: string, b: string)
    requires SymmetricMatrix(p.odMatrix)
    requires a != [] && b != [] && a != b && a in p.odMatrix && b in p.odMatrix[a]
    ensures ODDistance(p, a, b) == p.odMatrix[a][b] == ODDistance(p, b, a)
  {
  }

  /** The shipped table is symmetric, and it lists a row for every selectable locality. */
  lemma OdMatrixWellFormed()
    ensures SymmetricMatrix(OD_MATRIX)
    ensures forall i :: 0 <= i < |OD_LOCATIONS| ==> OD_LOCATIONS[i] in OD_MATRIX
  {
    forall a | a in OD_MATRIX
      ensures MirroredRow(OD_MATRIX, a)
    {
      RowMirrored(a);
    }
  }

  /** Every entry of row `a` is mirrored in the row it names. */
  predicate MirroredRow(m: map<string, map<string, real>>, a: string) {
    a in m && forall b :: b in m[a] ==> b in m && a in m[b] && m[b][a] == m[a][b]
  }

  /** Each row's entries are mirrored in the rows they name. */
  lemma RowMirrored(a: string)
    requires a in OD_MATRIX
    ensures MirroredRow(OD_MATRIX, a)
  {
    if a == "Ulubari" {
      UlubariRow();
    } else if a == "Panbazar" {
      PanbazarRow();
    } else if a == "Ganeshguri" {
      GaneshguriRow();
    } else if a == "Beltola" {
      BeltolaRow();
    } else if a == "Jalukbari" {
      JalukbariRow();
    } else {
      SixMileRow();
    }
  }

  lemma UlubariRow() ensures MirroredRow(OD_MATRIX, "Ulubari") {
    var row := OD_MATRIX["Ulubari"];
    assert row == map["Panbazar" := 3.5, "Ganeshguri" := 3.5, "Beltola" := 6.0, "Jalukbari" := 8.0, "Six Mile" := 6.0];
    forall b | b in row
      ensures b in OD_MATRIX && "Ulubari" in OD_MATRIX[b] && OD_MATRIX[b]["Ulubari"] == row[b]
    {
      assert b == "Panbazar" || b == "Ganeshguri" || b == "Beltola" || b == "Jalukbari" || b == "Six Mile";
    }
  }
  lemma PanbazarRow() ensures MirroredRow(OD_MATRIX, "Panbazar") {}
  lemma GaneshguriRow() ensures MirroredRow(OD_MATRIX, "Ganeshguri") {}
  lemma BeltolaRow() ensures MirroredRow(OD_MATRIX, "Beltola") {}
  lemma JalukbariRow() ensures MirroredRow(OD_MATRIX, "Jalukbari") {}
  lemma SixMileRow() ensures MirroredRow(OD_MATRIX, "Six Mile") {}

  /** A table multiplier, 1 for a key the table lacks (or a zero entry). */
  function Multiplier(table: map<string, real>, key: string): (m: real)
    ensures key !in table ==> m == 1.0
    ensures key in table && table[key] != 0.0 ==> m == table[key]
    ensures key in table && table[key] == 0.0 ==> m == 1.0
  {
    if key in table && table[key] != 0.0 then table[key] else 1.0
  }

  /**
   * The distance the fare uses: a positive live distance, else a non-zero
   * tabulated distance, else the manual kilometres.
   */
  function EffectiveKm(apiKm: Option<real>, odKm: real, manualKm: real): (km: real)
    ensures km == odKm || km == manualKm || (apiKm.Some? && km == apiKm.value)
    ensures apiKm.Some? && apiKm.value > 0.0 ==> km == apiKm.value
    ensures (apiKm.None? || apiKm.value <= 0.0) && odKm != 0.0 ==> km == odKm
    ensures (apiKm.None? || apiKm.value <= 0.0) && odKm == 0.0 ==> km == manualKm
  {
    if apiKm.Some? && apiKm.value > 0.0 then apiKm.value
    else if odKm != 0.0 then odKm
    else manualKm
  }

  /** A positive live distance overrides the table and the manual entry, whatever they hold. */
  lemma LiveDistanceWins(km: real, od1: real, od2: real, manual1: real, manual2: real)
    requires km > 0.0
    ensures EffectiveKm(Some(km), od1, manual1) == EffectiveKm(Some(km), od2, manual2) == km
  {
  }

  /** Without a live distance, a tabulated route overrides the manual entry. */
  lemma TableBeatsManual(api: Option<real>, od: real, manual1: real, manual2: real)
    requires api.None? || api.value <= 0.0
    requires od != 0.0
    ensures EffectiveKm(api, od, manual1) == EffectiveKm(api, od, manual2) == od
  {
  }

  /** The vehicle's base fare, or the general base fare for an unknown vehicle. */
  function BaseFare(p: Pricing, vehicle: string): (fare: real)
    ensures vehicle in p.vehicleBaseFare ==> fare == p.vehicleBaseFare[vehicle]
    ensures vehicle !in p.vehicleBaseFare ==> fare == p.baseFare
  {
    if vehicle in p.vehicleBaseFare then p.vehicleBaseFare[vehicle] else p.baseFare
  }

  /** Base fare, distance, loading charge, waiting and stops, before any multiplier. */
  function Subtotal(p: Pricing, vehicle: string, km: real, loading: real, waitMin: real, stops: real): real {
    BaseFare(p, vehicle) + km * p.perKm + loading + waitMin * p.waitPerMin + stops * p.stopCharge
  }

  /** The page's fare computation. */
  function Fare(p: Pricing, inp: FareInputs): (b: Breakdown)
    ensures b.effectiveKm == EffectiveKm(inp.apiDistanceKm, ODDistance(p, inp.origin, inp.destination),
                                         inp.baseKm + inp.extraKm)
    ensures b.finalFare == b.beforeCommission * (1.0 + p.commissionRate)
    ensures b.beforeCommission == b.subtotal * b.combinedMult
    // the displayed base fare and commission, and the final fare as their sum with the multiplied subtotal
    ensures b.baseFare == BaseFare(p, inp.vehicle)
    ensures b.commission == b.beforeCommission * p.commissionRate
    ensures b.finalFare == b.beforeCommission + b.commission
  {
    var km := EffectiveKm(inp.apiDistanceKm, ODDistance(p, inp.origin, inp.destination), inp.baseKm + inp.extraKm);
    var base := BaseFare(p, inp.vehicle);
    var subtotal := Subtotal(p, inp.vehicle, km, inp.loading, inp.waitMin, inp.stops);
    var mult := Multiplier(p.traffic, inp.traffic) * Multiplier(p.vehicle, inp.vehicle)
                * Multiplier(p.condition, inp.condition);
    var before := subtotal * mult;
    var commission := before * p.commissionRate;
    Breakdown(km, base, subtotal, mult, before, commission, before + commission)
  }

  /** Both pages charge 15% commission on the multiplied subtotal. */
  lemma FinalFareFormula(p: Pricing, inp: FareInputs)
    requires p == PREVIEW_PRICING || p == SMALL_VEHICLE_PRICING
    ensures var b := Fare(p, inp);
      && b.subtotal == BaseFare(p, inp.vehicle) + b.effectiveKm * 30.0 + inp.loading + inp.waitMin * 2.0 + inp.stops * 50.0
      && b.combinedMult == Multiplier(p.traffic, inp.traffic) * Multiplier(p.vehicle, inp.vehicle)
                           * Multiplier(p.condition, inp.condition)
      && b.finalFare == b.subtotal * b.combinedMult * 1.15
  {
    var b := Fare(p, inp);
    FareShape(p, inp);
    ShippedRates(p);
    ScaleBy(b.effectiveKm, p.perKm, 30.0);
    ScaleBy(inp.waitMin, p.waitPerMin, 2.0);
    ScaleBy(inp.stops, p.stopCharge, 50.0);
    ScaleBy(b.beforeCommission, 1.0 + p.commissionRate, 1.15);
  }

  /** The rates both pages share. */
  lemma ShippedRates(p: Pricing)
    requires p == PREVIEW_PRICING || p == SMALL_VEHICLE_PRICING
    ensures p.perKm == 30.0 && p.waitPerMin == 2.0 && p.stopCharge == 50.0 && p.commissionRate == 0.15
  {
  }

  lemma ScaleBy(x: real, k: real, k': real)
    requires k == k'
    ensures x * k == x * k'
  {
  }

  lemma FareShape(p: Pricing, inp: FareInputs)
    ensures var b := Fare(p, inp);
      && b.subtotal == BaseFare(p, inp.vehicle) + b.effectiveKm * p.perKm + inp.loading + inp.waitMin * p.waitPerMin
                       + inp.stops * p.stopCharge
      && b.combinedMult == Multiplier(p.traffic, inp.traffic) * Multiplier(p.vehicle, inp.vehicle)
                           * Multiplier(p.condition, inp.condition)
  {
  }

  /** Unknown vehicle, traffic and condition names price as the 200 base fare with no multiplier. */
  lemma UnknownKeysNeutral(p: Pricing, inp: FareInputs)
    requires p == PREVIEW_PRICING || p == SMALL_VEHICLE_PRICING
    requires inp.vehicle !in VEHICLE_BASE_FARES && inp.traffic !in p.traffic && inp.condition !in CONDITION_MULTIPLIERS
    ensures var b := Fare(p, inp);
      b.baseFare == 200.0 && b.combinedMult == 1.0 && b.finalFare == b.subtotal * 1.15
  {
  }

  /** The name the fare form uses for a traffic level reported by the map. */
  function LevelName(l: Level): string {
    match l
    case Low => "Low"
    case Medium => "Medium"
    case High => "High"
  }

  /** Every level the map reports names a row of both traffic tables, so none of them prices as 1. */
  lemma ReportedLevelsPriced(l: Level)
    ensures LevelName(l) in PREVIEW_PRICING.traffic && LevelName(l) in SMALL_VEHICLE_PRICING.traffic
    ensures Rank(l) == 0 ==> Multiplier(PREVIEW_PRICING.traffic, LevelName(l)) == 0.95
  {
  }

  /** All multipliers of a pricing are positive. */
  predicate PositiveTables(p: Pricing) {
    && (forall k :: k in p.traffic ==> p.traffic[k] > 0.0)
    && (forall k :: k in p.vehicle ==> p.vehicle[k] > 0.0)
    && (forall k :: k in p.condition ==> p.condition[k] > 0.0)
  }

  lemma ShippedTablesPositive()
    ensures PositiveTables(PREVIEW_PRICING) && PositiveTables(SMALL_VEHICLE_PRICING)
  {
    SharedTablesPositive();
    assert PREVIEW_PRICING.vehicle == SMALL_VEHICLE_PRICING.vehicle == VEHICLE_MULTIPLIERS;
    assert PREVIEW_PRICING.condition == SMALL_VEHICLE_PRICING.condition == CONDITION_MULTIPLIERS;
    assert forall k :: k in PREVIEW_PRICING.traffic ==> PREVIEW_PRICING.traffic[k] > 0.0;
    assert forall k :: k in SMALL_VEHICLE_PRICING.traffic ==> SMALL_VEHICLE_PRICING.traffic[k] > 0.0;
  }

  /** The vehicle and condition multipliers both pages share are positive. */
  lemma SharedTablesPositive()
    ensures forall k :: k in VEHICLE_MULTIPLIERS ==> VEHICLE_MULTIPLIERS[k] > 0.0
    ensures forall k :: k in CONDITION_MULTIPLIERS ==> CONDITION_MULTIPLIERS[k] > 0.0
  {
  }

  lemma MulMono(a: real, b: real, c: real)
    requires a <= b && c >= 0.0
    ensures a * c <= b * c
  {
  }

  lemma SubtotalMono(p: Pricing, vehicle: string, km1: real, km2: real, loading: real, waitMin: real, stops: real)
    requires p.perKm >= 0.0 && km1 <= km2
    ensures Subtotal(p, vehicle, km1, loading, waitMin, stops) <= Subtotal(p, vehicle, km2, loading, waitMin, stops)
  {
    MulMono(km1, km2, p.perKm);
  }

  /**
   * Over positive tables and a non-negative commission, a longer effective
   * distance never gives a lower fare, everything else being equal.
   */
  lemma FareMonotoneInDistance(p: Pricing, inp: FareInputs, km1: real, km2: real)
    requires PositiveTables(p) && p.perKm >= 0.0 && p.commissionRate >= 0.0
    requires 0.0 < km1 <= km2
    ensures Fare(p, inp.(apiDistanceKm := Some(km1))).finalFare <= Fare(p, inp.(apiDistanceKm := Some(km2))).finalFare
  {
    var b1 := Fare(p, inp.(apiDistanceKm := Some(km1)));
    var b2 := Fare(p, inp.(apiDistanceKm := Some(km2)));
    FareFieldsMono(p, inp, km1, km2);
    BreakdownMono(b1, b2, 1.0 + p.commissionRate);
  }

  /** Only the subtotal depends on the live distance, and it grows with it; the multiplier is positive. */
  lemma FareFieldsMono(p: Pricing, inp: FareInputs, km1: real, km2: real)
    requires PositiveTables(p) && p.perKm >= 0.0
    requires 0.0 < km1 <= km2
    ensures var b1 := Fare(p, inp.(apiDistanceKm := Some(km1)));
      var b2 := Fare(p, inp.(apiDistanceKm := Some(km2)));
      b1.subtotal <= b2.subtotal && b1.combinedMult == b2.combinedMult && b1.combinedMult > 0.0
  {
    FareAtKm(p, inp, km1);
    FareAtKm(p, inp, km2);
    SubtotalMono(p, inp.vehicle, km1, km2, inp.loading, inp.waitMin, inp.stops);
    MultipliersPositive(p, inp);
  }

  /** The breakdown for a positive live distance, in terms of the form's other fields. */
  lemma FareAtKm(p: Pricing, inp: FareInputs, km: real)
    requires km > 0.0
    ensures var b := Fare(p, inp.(apiDistanceKm := Some(km)));
      && b.subtotal == Subtotal(p, inp.vehicle, km, inp.loading, inp.waitMin, inp.stops)
      && b.combinedMult == Multiplier(p.traffic, inp.traffic) * Multiplier(p.vehicle, inp.vehicle)
                           * Multiplier(p.condition, inp.condition)
  {
  }

  lemma MultipliersPositive(p: Pricing, inp: FareInputs)
    requires PositiveTables(p)
    ensures Multiplier(p.traffic, inp.traffic) * Multiplier(p.vehicle, inp.vehicle)
            * Multiplier(p.condition, inp.condition) > 0.0
  {
    ProductPositive(Multiplier(p.traffic, inp.traffic), Multiplier(p.vehicle, inp.vehicle),
                    Multiplier(p.condition, inp.condition));
  }

  lemma ProductPositive(t: real, v: real, c: real)
    requires t > 0.0 && v > 0.0 && c > 0.0
    ensures t * v * c > 0.0
  {
    assert t * v > 0.0;
  }

  /** Two breakdowns with the same positive multiplier and commission keep the order of their subtotals. */
  lemma BreakdownMono(b1: Breakdown, b2: Breakdown, k: real)
    requires b1.subtotal <= b2.subtotal && b1.combinedMult == b2.combinedMult && b1.combinedMult > 0.0 && k >= 0.0
    requires b1.beforeCommission == b1.subtotal * b1.combinedMult && b2.beforeCommission == b2.subtotal * b2.combinedMult
    requires b1.finalFare == b1.beforeCommission * k && b2.finalFare == b2.beforeCommission * k
    ensures b1.finalFare <= b2.finalFare
  {
    MulMono(b1.subtotal, b2.subtotal, b1.combinedMult);
    MulMono(b1.beforeCommission, b2.beforeCommission, k);
  }

  /**
   * The page's handler for a route the map reports: the live distance and
   * duration replace the previous ones, and the traffic selection follows the
   * map unless the user has locked it.
   */
  function OnDistanceCalculated(inp: FareInputs, distanceKm: real, durationMin: real, level: Level, locked: bool)
    : (r: FareInputs)
    ensures r.apiDistanceKm == Some(distanceKm) && r.apiDurationMin == Some(durationMin)
    ensures locked ==> r.traffic == inp.traffic
    ensures !locked ==> r.traffic == LevelName(level)
    ensures r == inp.(apiDistanceKm := r.apiDistanceKm, apiDurationMin := r.apiDurationMin, traffic := r.traffic)
  {
    var r := inp.(apiDistanceKm := Some(distanceKm), apiDurationMin := Some(durationMin));
    if !locked then r.(traffic := LevelName(level)) else r
  }

  /**
   * After a positive live distance is reported, the fare is priced on that
   * distance and, unless locked, on the reported level's multiplier.
   */
  lemma LiveReportPrices(p: Pricing, inp: FareInputs, distanceKm: real, durationMin: real, level: Level, locked: bool)
    requires distanceKm > 0.0
    ensures var b := Fare(p, OnDistanceCalculated(inp, distanceKm, durationMin, level, locked));
      && b.effectiveKm == distanceKm
      && (!locked ==> b.combinedMult == Multiplier(p.traffic, LevelName(level)) * Multiplier(p.vehicle, inp.vehicle)
                                         * Multiplier(p.condition, inp.condition))
      && (locked ==> b.combinedMult == Fare(p, inp).combinedMult)
  {
  }
}
