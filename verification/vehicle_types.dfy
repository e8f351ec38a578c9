/**
 * The large-vehicle catalogue and the lookup of a vehicle by its id.
 */
module VehicleTypes {
  import opened Wrappers

  /** A freight vehicle: display title, daily hire rate in rupees and mileage in km per litre. */
  datatype Vehicle = Vehicle(id: string, title: string, dailyRate: real, mileage: real)

  const LARGE_VEHICLE_TYPES: seq<Vehicle> := [
    Vehicle("12ton", "12 Ton - 22 ft", 3333.0, 4.0),
    Vehicle("4ton", "4 Ton - 14 ft", 2500.0, 6.0)]

  /** The position of the first vehicle with the given id, if any. */
  function FindIndex(vs: seq<Vehicle>, id: string): (r: Option<nat>)
    ensures r.Some? ==> r.value < |vs| && vs[r.value].id == id
    ensures r.Some? ==> forall j :: 0 <= j < r.value ==> vs[j].id != id
    ensures r.None? ==> forall j :: 0 <= j < |vs| ==> vs[j].id != id
  {
    if vs == [] then None
    else if vs[0].id == id then Some(0)
    else match FindIndex(vs[1..], id)
      case None => None
      case Some(i) => Some(i + 1)
  }

  /**
   * `getVehicleById`: the first vehicle with the id, else the first vehicle
   * of the list, and nothing (`undefined`) for an empty list.
   */
  function GetVehicleById(vs: seq<Vehicle>, id: string): (r: Option<Vehicle>)
    ensures r.None? <==> vs == []
    ensures r.Some? ==> r.value in vs
    ensures (exists i :: 0 <= i < |vs| && vs[i].id == id) ==>
      exists i :: 0 <= i < |vs| && r == Some(vs[i]) && vs[i].id == id && forall j :: 0 <= j < i ==> vs[j].id != id
    ensures vs != [] && (forall i :: 0 <= i < |vs| ==> vs[i].id != id) ==> r == Some(vs[0])
  {
    match FindIndex(vs, id)
    case Some(i) => Some(vs[i])
    case None => if vs == [] then None else Some(vs[0])
  }

  /** No two catalogue entries share an id. */
  predicate DistinctIds(vs: seq<Vehicle>) {
    forall i, j :: 0 <= i < j < |vs| ==> vs[i].id != vs[j].id
  }

  /** With distinct ids, looking up a listed vehicle's id gives that vehicle back. */
  lemma LookupListed(vs: seq<Vehicle>, k: nat)
    requires DistinctIds(vs) && k < |vs|
    ensures GetVehicleById(vs, vs[k].id) == Some(vs[k])
  {
  }

  /**
   * The shipped catalogue has distinct ids and positive mileages, so the
   * fuel-consumption division never divides by zero for a catalogue vehicle.
   */
  lemma CatalogueWellFormed()
    ensures DistinctIds(LARGE_VEHICLE_TYPES)
    ensures forall v :: v in LARGE_VEHICLE_TYPES ==> v.mileage > 0.0 && v.dailyRate > 0.0
  {
  }

  /** Whatever the id, the shipped lookup yields a vehicle with positive mileage. */
  lemma CatalogueLookupPositive(id: string)
    ensures GetVehicleById(LARGE_VEHICLE_TYPES, id).Some?
    ensures GetVehicleById(LARGE_VEHICLE_TYPES, id).value.mileage > 0.0
  {
    CatalogueWellFormed();
  }
}
