/**
 * The large-vehicle trip calculator: the operating cost of a trip from the
 * selected vehicle (or the typed overrides of its daily rate and mileage),
 * the route distance, the fuel price and the trip's expenses, and the margin
 * on top.
 */
module LargeVehicle {
  import opened Wrappers
  import opened Constants
  import opened VehicleTypes

  /** The vehicle choice: the selected id and the typed overrides (`None` is the page's `null`). */
  datatype Selection = Selection(vehicleId: string, dailyRateOverride: Option<real>, mileageOverride: Option<real>)

  /** The rest of the form; a live distance of `None` is one the map has not reported. */
  datatype Trip = Trip(
    tripDays: real,
    fuelRate: real,
    additionalKm: real,
    roadExpense: real,
    tollCharge: real,
    loadingCost: real,
    marginPercent: real,
    apiDistanceKm: Option<real>)

  /** Every figure the page shows. */
  datatype Costs = Costs(
    dailyRate: real,
    mileage: real,
    totalDistance: real,
    vehicleCost: real,
    fuelConsumption: real,
    fuelCost: real,
    defCost: real,
    driverCost: real,
    otherExpenses: real,
    totalOperatingCost: real,
    marginAmount: real,
    finalAmount: real)

  /** The page's starting state: first vehicle, no overrides, one day, 96 per litre, 15% margin. */
  const INITIAL_SELECTION: Selection := Selection(LARGE_VEHICLE_TYPES[0].id, None, None)
  const INITIAL_TRIP: Trip := Trip(1.0, DEFAULT_FUEL_RATE, 0.0, 0.0, 0.0, 0.0, 15.0, None)

  /** The daily rate in force: the override when there is one, else the vehicle's. */
  function DailyRate(vehicle: Option<Vehicle>, sel: Selection): Option<real> {
    if sel.dailyRateOverride.Some? then sel.dailyRateOverride
    else if vehicle.Some? then Some(vehicle.value.dailyRate)
    else None
  }

  /** The mileage in force: the override when there is one, else the vehicle's. */
  function Mileage(vehicle: Option<Vehicle>, sel: Selection): Option<real> {
    if sel.mileageOverride.Some? then sel.mileageOverride
    else if vehicle.Some? then Some(vehicle.value.mileage)
    else None
  }

  /** The live distance, 0 when none was reported. */
  function MapDistance(api: Option<real>): real {
    if api.Some? then api.value else 0.0
  }

  /**
   * The derived costs.  There are none when the vehicle the page must read
   * does not exist (an empty catalogue without overrides), or when the
   * mileage is 0 and the fuel division has no finite value.
   */
  function Compute(vehicles: seq<Vehicle>, sel: Selection, trip: Trip): (r: Option<Costs>)
    ensures r.None? <==>
      DailyRate(GetVehicleById(vehicles, sel.vehicleId), sel).None?
      || Mileage(GetVehicleById(vehicles, sel.vehicleId), sel).None?
      || Mileage(GetVehicleById(vehicles, sel.vehicleId), sel).value == 0.0
    ensures r.Some? ==>
      && Some(r.value.dailyRate) == DailyRate(GetVehicleById(vehicles, sel.vehicleId), sel)
      && Some(r.value.mileage) == Mileage(GetVehicleById(vehicles, sel.vehicleId), sel)
      && CostsOf(r.value, trip)
  {
    var vehicle := GetVehicleById(vehicles, sel.vehicleId);
    var rate := DailyRate(vehicle, sel);
    var mileage := Mileage(vehicle, sel);
    if rate.None? || mileage.None? || mileage.value == 0.0 then None
    else Some(Derive(rate.value, mileage.value, trip))
  }

  /**
   * The relations the figures of a costing keep: the distance is the live
   * plus the extra kilometres; the fuel bought covers that distance at the
   * mileage, and costs the litres at the fuel rate; fluid is 6% of fuel; the
   * driver is paid 1000 a day; the margin is its percentage of the total, and
   * the amount is the total with the margin on top.
   */
  predicate CostsOf(c: Costs, trip: Trip) {
    && c.totalDistance == MapDistance(trip.apiDistanceKm) + trip.additionalKm
    && c.fuelConsumption * c.mileage == c.totalDistance
    && c.fuelCost == c.fuelConsumption * trip.fuelRate
    && c.fuelCost * c.mileage == c.totalDistance * trip.fuelRate
    && c.defCost == DEF_PERCENTAGE_OF_FUEL * c.fuelCost
    && c.driverCost == DRIVER_DAILY_BATA * trip.tripDays
    && c.vehicleCost == c.dailyRate * trip.tripDays
    && c.otherExpenses == trip.roadExpense + trip.tollCharge + trip.loadingCost
    && c.totalOperatingCost == c.vehicleCost + c.fuelCost * 1.06 + c.driverCost + c.otherExpenses
    && c.marginAmount == c.totalOperatingCost * (trip.marginPercent / 100.0)
    && c.finalAmount == c.totalOperatingCost + c.marginAmount
    && c.finalAmount == c.totalOperatingCost * (1.0 + trip.marginPercent / 100.0)
  }

  /** The costs for a given daily rate and a non-zero mileage. */
  function Derive(dailyRate: real, mileage: real, trip: Trip): (c: Costs)
    requires mileage != 0.0
    ensures c.dailyRate == dailyRate && c.mileage == mileage
    ensures CostsOf(c, trip)
  {
    var distance := MapDistance(trip.apiDistanceKm) + trip.additionalKm;
    var vehicleCost := dailyRate * trip.tripDays;
    var consumption := distance / mileage;
    var fuelCost := consumption * trip.fuelRate;
    var defCost := fuelCost * DEF_PERCENTAGE_OF_FUEL;
    var driverCost := DRIVER_DAILY_BATA * trip.tripDays;
    var other := trip.roadExpense + trip.tollCharge + trip.loadingCost;
    var total := vehicleCost + fuelCost + defCost + driverCost + other;
    var margin := total * (trip.marginPercent / 100.0);
    FuelCostScales(distance, mileage, trip.fuelRate);
    Costs(dailyRate, mileage, distance, vehicleCost, consumption, fuelCost, defCost, driverCost, other,
          total, margin, total + margin)
  }

  /** Litres times price, read back through the mileage. */
  lemma FuelCostScales(distance: real, mileage: real, fuelRate: real)
    ensures mileage != 0.0 ==> (distance / mileage) * fuelRate * mileage == distance * fuelRate
  {
    if mileage != 0.0 {
      var q := distance / mileage;
      assert q * mileage == distance;
      calc {
        q * fuelRate * mileage;
        (q * mileage) * fuelRate;
      }
    }
  }

  /**
   * An override replaces the vehicle's figure exactly when it is present: with
   * both overrides the selected vehicle, and even the catalogue, do not matter.
   */
  lemma OverridesDecide(vehicles: seq<Vehicle>, sel: Selection, trip: Trip, otherId: string)
    requires sel.dailyRateOverride.Some? && sel.mileageOverride.Some?
    ensures Compute(vehicles, sel, trip) == Compute(vehicles, sel.(vehicleId := otherId), trip)
    ensures Compute(vehicles, sel, trip) == Compute([], sel, trip)
    ensures Compute(vehicles, sel, trip).Some? ==>
      Compute(vehicles, sel, trip).value.dailyRate == sel.dailyRateOverride.value
      && Compute(vehicles, sel, trip).value.mileage == sel.mileageOverride.value
  {
  }

  /** Without overrides the selected catalogue vehicle's own figures are used. */
  lemma CatalogueFiguresUsed(k: nat, sel: Selection, trip: Trip)
    requires k < |LARGE_VEHICLE_TYPES|
    requires sel == Selection(LARGE_VEHICLE_TYPES[k].id, None, None)
    ensures Compute(LARGE_VEHICLE_TYPES, sel, trip).Some?
    ensures Compute(LARGE_VEHICLE_TYPES, sel, trip).value.dailyRate == LARGE_VEHICLE_TYPES[k].dailyRate
    ensures Compute(LARGE_VEHICLE_TYPES, sel, trip).value.mileage == LARGE_VEHICLE_TYPES[k].mileage
  {
    CatalogueWellFormed();
    LookupListed(LARGE_VEHICLE_TYPES, k);
  }

  /** With the shipped catalogue the costs always exist unless a zero mileage is typed in. */
  lemma CatalogueAlwaysPrices(sel: Selection, trip: Trip)
    requires sel.mileageOverride.None? || sel.mileageOverride.value != 0.0
    ensures Compute(LARGE_VEHICLE_TYPES, sel, trip).Some?
  {
    CatalogueLookupPositive(sel.vehicleId);
  }

  /** The page's starting state prices a one-day trip of the 12-ton truck with no distance yet. */
  lemma InitialTrip()
    ensures Compute(LARGE_VEHICLE_TYPES, INITIAL_SELECTION, INITIAL_TRIP).Some?
    ensures var c := Compute(LARGE_VEHICLE_TYPES, INITIAL_SELECTION, INITIAL_TRIP).value;
      && c.totalDistance == 0.0 && c.fuelCost == 0.0
      && c.totalOperatingCost == 4333.0
      && c.finalAmount == 4982.95
  {
    CatalogueFiguresUsed(0, INITIAL_SELECTION, INITIAL_TRIP);
    assert LARGE_VEHICLE_TYPES[0].dailyRate == 3333.0 && LARGE_VEHICLE_TYPES[0].mileage == 4.0;
    InitialCosts(Compute(LARGE_VEHICLE_TYPES, INITIAL_SELECTION, INITIAL_TRIP).value);
  }

  /** The arithmetic of the starting form: 3333 for the day, 1000 for the driver, no fuel, 15% on top. */
  lemma InitialCosts(c: Costs)
    requires CostsOf(c, INITIAL_TRIP) && c.dailyRate == 3333.0 && c.mileage == 4.0
    ensures c.totalDistance == 0.0 && c.fuelCost == 0.0
    ensures c.totalOperatingCost == 4333.0 && c.finalAmount == 4982.95
  {
    assert c.totalDistance == 0.0;
    assert c.fuelCost == 0.0 by {
      assert c.fuelCost * c.mileage == c.totalDistance * INITIAL_TRIP.fuelRate;
    }
    assert c.vehicleCost == 3333.0 && c.driverCost == 1000.0 && c.otherExpenses == 0.0;
  }

  lemma MulMono(a: real, b: real, c: real)
    requires a <= b && c >= 0.0
    ensures a * c <= b * c
  {
  }

  lemma DivMono(a: real, b: real, m: real)
    requires a <= b && m > 0.0
    ensures a / m <= b / m
  {
    assert a == (a / m) * m && b == (b / m) * m;
  }

  /** Over a positive mileage, a non-negative fuel price buys more fuel for a longer distance. */
  lemma FuelMono(c1: Costs, c2: Costs, trip1: Trip, trip2: Trip)
    requires CostsOf(c1, trip1) && CostsOf(c2, trip2)
    requires c1.mileage == c2.mileage > 0.0 && trip1.fuelRate == trip2.fuelRate >= 0.0
    requires c1.totalDistance <= c2.totalDistance
    ensures c1.fuelCost <= c2.fuelCost
  {
    ScaledOrder(c1.fuelCost, c2.fuelCost, c1.totalDistance, c2.totalDistance, c1.mileage, trip1.fuelRate);
  }

  /** `x1 = d1 * f / m` and `x2 = d2 * f / m` keep the order of `d1` and `d2`. */
  lemma ScaledOrder(x1: real, x2: real, d1: real, d2: real, m: real, f: real)
    requires x1 * m == d1 * f && x2 * m == d2 * f
    requires m > 0.0 && f >= 0.0 && d1 <= d2
    ensures x1 <= x2
  {
    MulMono(d1, d2, f);
    assert x1 == (d1 * f) / m && x2 == (d2 * f) / m;
    DivMono(d1 * f, d2 * f, m);
  }

  /**
   * With a positive mileage, a non-negative fuel price and a margin of at
   * least -100%, a longer extra distance never lowers the amount.
   */
  lemma {:induction false} AmountMonotoneInDistance(vehicles: seq<Vehicle>, sel: Selection, trip: Trip, km1: real, km2: real)
    requires km1 <= km2 && trip.fuelRate >= 0.0 && trip.marginPercent >= -100.0
    requires Compute(vehicles, sel, trip.(additionalKm := km1)).Some?
    requires Compute(vehicles, sel, trip.(additionalKm := km1)).value.mileage > 0.0
    ensures Compute(vehicles, sel, trip.(additionalKm := km2)).Some?
    ensures Compute(vehicles, sel, trip.(additionalKm := km1)).value.finalAmount
            <= Compute(vehicles, sel, trip.(additionalKm := km2)).value.finalAmount
  {
    var t1, t2 := trip.(additionalKm := km1), trip.(additionalKm := km2);
    assert Compute(vehicles, sel, t2).Some?;
    CostsMono(Compute(vehicles, sel, t1).value, Compute(vehicles, sel, t2).value, t1, t2);
  }

  /** Two costings of the same vehicle and trip but for the extra distance keep the order of that distance. */
  lemma CostsMono(c1: Costs, c2: Costs, t1: Trip, t2: Trip)
    requires CostsOf(c1, t1) && CostsOf(c2, t2)
    requires c1.mileage == c2.mileage > 0.0 && c1.dailyRate == c2.dailyRate
    requires t1 == t2.(additionalKm := t1.additionalKm) && t1.additionalKm <= t2.additionalKm
    requires t1.fuelRate >= 0.0 && t1.marginPercent >= -100.0
    ensures c1.finalAmount <= c2.finalAmount
  {
    TotalsMono(c1, c2, t1, t2);
    MarginMono(c1.totalOperatingCost, c2.totalOperatingCost, c1.finalAmount, c2.finalAmount,
               t1.marginPercent, t2.marginPercent);
  }

  lemma TotalsMono(c1: Costs, c2: Costs, t1: Trip, t2: Trip)
    requires CostsOf(c1, t1) && CostsOf(c2, t2)
    requires c1.mileage == c2.mileage > 0.0 && c1.dailyRate == c2.dailyRate
    requires t1 == t2.(additionalKm := t1.additionalKm) && t1.additionalKm <= t2.additionalKm
    requires t1.fuelRate >= 0.0
    ensures c1.totalOperatingCost <= c2.totalOperatingCost
  {
    FuelMono(c1, c2, t1, t2);
    MulMono(c1.fuelCost, c2.fuelCost, 1.06);
    SameProduct(c1.dailyRate, t1.tripDays, c2.dailyRate, t2.tripDays);
  }

  /** A margin of at least -100% keeps the order of the totals it is added to. */
  lemma MarginMono(total1: real, total2: real, amount1: real, amount2: real, margin1: real, margin2: real)
    requires total1 <= total2 && margin1 == margin2 >= -100.0
    requires amount1 == total1 * (1.0 + margin1 / 100.0) && amount2 == total2 * (1.0 + margin2 / 100.0)
    ensures amount1 <= amount2
  {
    MulMono(total1, total2, 1.0 + margin1 / 100.0);
  }

  lemma SameProduct(a: real, b: real, a': real, b': real)
    requires a == a' && b == b'
    ensures a * b == a' * b'
  {
  }
}
