/**
  The split-module fleet manager (fleet-management/src/FleetManager.h and
  FleetManager.cpp): it owns a copy of a vehicle list, caches three
  averages that only `ComputeAverages` refreshes, and reports threshold
  alerts in vehicle order.
*/
module FleetManagement {
  import opened Vehicles
  import opened Stats
  import opened Alerts

  /** Temperature above which a vehicle is overheating. */
  const CriticalTemp: real := 110.0

  /** Fuel level below which a vehicle is low on fuel. */
  const LowFuelThreshold: real := 15.0

  // The projections handed to the averaging helper, one per getter.
  function SpeedOf(v: Vehicle): real { v.GetSpeed() }
  function TemperatureOf(v: Vehicle): real { v.GetTemperature() }
  function FuelOf(v: Vehicle): real { v.GetFuel() }
  function IdOf(v: Vehicle): int { v.GetId() }

  /** The overheating test of the alert check: strictly above 110.0. */
  predicate IsOverheating(v: Vehicle) { v.GetTemperature() > CriticalTemp }

  /** The low-fuel test of the alert check: strictly below 15.0. */
  predicate HasLowFuel(v: Vehicle) { v.GetFuel() < LowFuelThreshold }

  /** The alerts the check emits for `vs`, in emission order. */
  function FleetAlerts(vs: seq<Vehicle>): seq<Alert>
  {
    AlertsOf(vs, IdOf, IsOverheating, HasLowFuel)
  }

  class FleetManager {
    /** The fleet, copied at construction. No member adds or removes a
        vehicle, so it is a constant of the object. */
    const vehicles: seq<Vehicle>
    var avgSpeed: real
    var avgTemp: real
    var avgFuel: real
    /** Whether `ComputeAverages` has run on this manager. */
    ghost var computed: bool

    /** The cache holds 0.0 until the first refresh and the means of the
        fleet after it. The fleet is constant, so a refresh never goes
        stale. */
    ghost predicate Valid()
      reads this
    {
      if computed then
        && avgSpeed == Mean(vehicles, SpeedOf)
        && avgTemp == Mean(vehicles, TemperatureOf)
        && avgFuel == Mean(vehicles, FuelOf)
      else
        avgSpeed == 0.0 && avgTemp == 0.0 && avgFuel == 0.0
    }

    /** Stores the given fleet, same vehicles in the same order; all three
        averages read 0.0 until `ComputeAverages` runs. */
    constructor (fleet: seq<Vehicle>)
      ensures Valid() && !computed
      ensures vehicles == fleet
      ensures AverageSpeed() == 0.0 && AverageTemperature() == 0.0 && AverageFuel() == 0.0
    {
      vehicles := fleet;
      avgSpeed, avgTemp, avgFuel := 0.0, 0.0, 0.0;
      computed := false;
    }

    /** Refreshes the cache: each accessor then reports the mean of its own
        reading over the current vehicles (0.0 for an empty fleet). */
    method ComputeAverages()
      modifies this
      ensures Valid() && computed
      ensures AverageSpeed() == Mean(vehicles, SpeedOf)
      ensures AverageTemperature() == Mean(vehicles, TemperatureOf)
      ensures AverageFuel() == Mean(vehicles, FuelOf)
    {
      avgSpeed := Mean(vehicles, SpeedOf);
      avgTemp := Mean(vehicles, TemperatureOf);
      avgFuel := Mean(vehicles, FuelOf);
      computed := true;
    }

    /** The cached mean speed: the fleet's mean once `ComputeAverages`
        has run, 0.0 before. */
    function AverageSpeed(): (r: real)
      reads this
      requires Valid()
      ensures r == if computed then Mean(vehicles, SpeedOf) else 0.0
    {
      avgSpeed
    }

    /** The cached mean temperature: the fleet's mean once `ComputeAverages`
        has run, 0.0 before. */
    function AverageTemperature(): (r: real)
      reads this
      requires Valid()
      ensures r == if computed then Mean(vehicles, TemperatureOf) else 0.0
    {
      avgTemp
    }

    /** The cached mean fuel level: the fleet's mean once `ComputeAverages`
        has run, 0.0 before. */
    function AverageFuel(): (r: real)
      reads this
      requires Valid()
      ensures r == if computed then Mean(vehicles, FuelOf) else 0.0
    {
      avgFuel
    }

    /** Walks the vehicles in order; for each, an overheating alert when
        its temperature is above 110.0, then a low-fuel alert when its fuel
        is below 15.0. Changes nothing. */
    method CheckAlerts() returns (alerts: seq<Alert>)
      ensures alerts == FleetAlerts(vehicles)
      ensures |alerts| == Count(vehicles, IsOverheating) + Count(vehicles, HasLowFuel)
    {
      alerts := [];
      for i := 0 to |vehicles|
        invariant alerts == FleetAlerts(vehicles[..i])
      {
        var vehicle := vehicles[i];
        assert vehicles[..i + 1][..i] == vehicles[..i];
        if vehicle.GetTemperature() > CriticalTemp {
          alerts := alerts + [Alert(vehicle.GetId(), Overheating)];
        }
        if vehicle.GetFuel() < LowFuelThreshold {
          alerts := alerts + [Alert(vehicle.GetId(), LowFuel)];
        }
      }
      assert vehicles[..|vehicles|] == vehicles;
      AlertCount(vehicles, IdOf, IsOverheating, HasLowFuel);
    }
  }

  /** An alert of a kind names a vehicle exactly when some vehicle with
      that id crosses that kind's threshold; the boundary values 110.0 and
      15.0 raise nothing. */
  lemma FleetAlertRaisedIff(vs: seq<Vehicle>, id: int, kind: AlertKind)
    ensures Alert(id, kind) in FleetAlerts(vs) <==>
      exists k :: 0 <= k < |vs| && vs[k].GetId() == id &&
        (if kind == Overheating then vs[k].GetTemperature() > 110.0 else vs[k].GetFuel() < 15.0)
  {
    AlertRaisedIff(vs, id, kind, IdOf, IsOverheating, HasLowFuel);
    var cond := Condition(kind, IsOverheating, HasLowFuel);
    forall k | 0 <= k < |vs|
      ensures cond(vs[k]) <==> (if kind == Overheating then vs[k].GetTemperature() > 110.0 else vs[k].GetFuel() < 15.0)
    {
    }
  }
}
