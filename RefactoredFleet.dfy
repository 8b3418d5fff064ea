/**
  The single-file refactor of the fleet manager
  (Refractor_code_Task2/task2.cpp). Unlike the split-module version, its
  vehicle constructor rejects out-of-range readings; its manager starts
  empty, grows by appending, reports alerts and the average speed; and the
  program's entry point ingests a list of raw tuples, skipping the invalid
  ones.
*/
module RefactoredFleet {
  import opened Stats
  import opened Alerts

  /** Temperature above which a vehicle is overheating. */
  const CriticalTemp: real := 110.0

  /** Fuel level below which a vehicle is low on fuel. */
  const LowFuelThreshold: real := 15.0

  datatype Vehicle = Vehicle(id: int, speed: real, temperature: real, fuel: real) {

    /** The readings the constructor admits: speed and temperature not
        negative, fuel a percentage from 0 to 100 inclusive. */
    predicate Valid() {
      0.0 <= speed && 0.0 <= temperature && 0.0 <= fuel <= 100.0
    }

    function GetId(): int { id }

    function GetSpeed(): real { speed }

    function GetTemperature(): real { temperature }

    function GetFuel(): real { fuel }

    /** Strictly above 110.0: a temperature of exactly 110.0 is not
        overheating. */
    predicate IsOverheating()
      ensures IsOverheating() <==> GetTemperature() > 110.0
    {
      temperature > CriticalTemp
    }

    /** Strictly below 15.0: a fuel level of exactly 15.0 is not low. */
    predicate HasLowFuel()
      ensures HasLowFuel() <==> GetFuel() < 15.0
    {
      fuel < LowFuelThreshold
    }
  }

  /** A vehicle that construction accepted. */
  type ValidVehicle = v: Vehicle | v.Valid() witness Vehicle(0, 0.0, 0.0, 0.0)

  datatype Error = InvalidArgument(what: string)

  datatype Result<+T> = Success(value: T) | Failure(error: Error)

  /** The validating constructor: fails with `InvalidArgument` when speed
      or temperature is negative or fuel lies outside 0..100. */
  function NewVehicle(id: int, speed: real, temperature: real, fuel: real): (r: Result<ValidVehicle>)
    ensures r.Success? <==> Vehicle(id, speed, temperature, fuel).Valid()
    ensures r.Success? ==>
      && r.value.GetId() == id
      && r.value.GetSpeed() == speed
      && r.value.GetTemperature() == temperature
      && r.value.GetFuel() == fuel
  {
    if speed < 0.0 || temperature < 0.0 || fuel < 0.0 || fuel > 100.0 then
      Failure(InvalidArgument("Invalid vehicle parameters"))
    else
      var v: ValidVehicle := Vehicle(id, speed, temperature, fuel);
      Success(v)
  }

  /** Every accepted vehicle can be rebuilt from its readings: construction
      accepts exactly the valid records and returns them unchanged. */
  lemma NewVehicleRoundTrip(v: Vehicle)
    ensures NewVehicle(v.GetId(), v.GetSpeed(), v.GetTemperature(), v.GetFuel())
         == if v.Valid() then Success(v) else Failure(InvalidArgument("Invalid vehicle parameters"))
  {
  }

  /** The boundary cases of construction: zero speed and fuel at 0 or 100
      are accepted; a negative reading or fuel above 100 is rejected. */
  lemma ConstructionBoundaries()
    ensures NewVehicle(1, 0.0, 85.0, 0.0).Success?
    ensures NewVehicle(1, 60.0, 90.0, 100.0).Success?
    ensures NewVehicle(1, -10.0, 90.0, 50.0).Failure?
    ensures NewVehicle(1, 60.0, -20.0, 50.0).Failure?
    ensures NewVehicle(1, 60.0, 90.0, -5.0).Failure?
    ensures NewVehicle(1, 60.0, 90.0, 101.0).Failure?
  {
  }

  /** The two status tests flip strictly past their thresholds. */
  lemma StatusThresholds()
    ensures !Vehicle(1, 60.0, 109.99, 50.0).IsOverheating()
    ensures !Vehicle(1, 60.0, 110.0, 50.0).IsOverheating()
    ensures Vehicle(1, 60.0, 110.01, 50.0).IsOverheating()
    ensures !Vehicle(1, 60.0, 90.0, 15.0).HasLowFuel()
    ensures Vehicle(1, 60.0, 90.0, 14.99).HasLowFuel()
  {
  }

  // Projections handed to the averaging and alert specifications.
  function SpeedOf(v: Vehicle): real { v.GetSpeed() }
  function IdOf(v: Vehicle): int { v.GetId() }
  function Overheats(v: Vehicle): bool { v.IsOverheating() }
  function LowOnFuel(v: Vehicle): bool { v.HasLowFuel() }

  /** The alerts the check raises for `vs`, in emission order. */
  function FleetAlerts(vs: seq<Vehicle>): seq<Alert>
  {
    AlertsOf(vs, IdOf, Overheats, LowOnFuel)
  }

  /** The manager raises an alert of a kind for an id exactly when some
      vehicle with that id passes that kind's status test. */
  lemma StatusAlertIff(vs: seq<Vehicle>, id: int, kind: AlertKind)
    ensures Alert(id, kind) in FleetAlerts(vs) <==>
      exists k :: 0 <= k < |vs| && vs[k].GetId() == id &&
        (if kind == Overheating then vs[k].IsOverheating() else vs[k].HasLowFuel())
  {
    AlertRaisedIff(vs, id, kind, IdOf, Overheats, LowOnFuel);
    var cond := Condition(kind, Overheats, LowOnFuel);
    forall k | 0 <= k < |vs|
      ensures cond(vs[k]) <==> (if kind == Overheating then vs[k].IsOverheating() else vs[k].HasLowFuel())
    {
    }
  }

  class FleetManager {
    /** The fleet, in insertion order. */
    var vehicles: seq<ValidVehicle>

    /** A new manager holds no vehicles. */
    constructor ()
      ensures vehicles == []
    {
      vehicles := [];
    }

    /** Appends one vehicle at the end; the earlier vehicles keep their
        order. */
    method AddVehicle(vehicle: ValidVehicle)
      modifies this
      ensures vehicles == old(vehicles) + [vehicle]
    {
      vehicles := vehicles + [vehicle];
    }

    /** Walks the vehicles in insertion order; for each, an overheating
        alert if it is overheating, then a low-fuel alert if it is low on
        fuel. Changes nothing. */
    method CheckAlerts() returns (alerts: seq<Alert>)
      ensures alerts == FleetAlerts(vehicles)
      ensures |alerts| == Count<Vehicle>(vehicles, Overheats) + Count<Vehicle>(vehicles, LowOnFuel)
    {
      alerts := [];
      for i := 0 to |vehicles|
        invariant alerts == FleetAlerts(vehicles[..i])
      {
        var vehicle := vehicles[i];
        assert vehicles[..i + 1][..i] == vehicles[..i];
        if vehicle.IsOverheating() {
          alerts := alerts + [Alert(vehicle.GetId(), Overheating)];
        }
        if vehicle.HasLowFuel() {
          alerts := alerts + [Alert(vehicle.GetId(), LowFuel)];
        }
      }
      assert vehicles[..|vehicles|] == vehicles;
      AlertCount<Vehicle>(vehicles, IdOf, Overheats, LowOnFuel);
    }

    /** 0.0 for an empty fleet, otherwise the total speed divided by the
        number of vehicles; never negative, since construction rejects
        negative speeds. */
    function GetAverageSpeed(): (r: real)
      reads this
      ensures |vehicles| == 0 ==> r == 0.0
      ensures |vehicles| > 0 ==> r * (|vehicles| as real) == Sum<Vehicle>(vehicles, SpeedOf)
      ensures 0.0 <= r
    {
      assert forall k :: 0 <= k < |vehicles| ==> vehicles[k].Valid();
      MeanNonNegative<Vehicle>(vehicles, SpeedOf);
      Mean<Vehicle>(vehicles, SpeedOf)
    }
  }

  /** One raw input record: id, speed, temperature, fuel. */
  type VehicleTuple = (int, real, real, real)

  function Construct(t: VehicleTuple): Result<ValidVehicle>
  {
    NewVehicle(t.0, t.1, t.2, t.3)
  }

  /** The vehicles the ingestion loop adds for `data`: one per tuple that
      construction accepts, in input order. */
  function Accepted(data: seq<VehicleTuple>): (r: seq<ValidVehicle>)
    ensures |r| + |RejectedIds(data)| == |data|
    decreases |data|
  {
    if |data| == 0 then []
    else
      var front := Accepted(data[..|data| - 1]);
      match Construct(data[|data| - 1])
      case Success(v) => front + [v]
      case Failure(_) => front
  }

  /** The ids the ingestion loop reports as invalid, in input order. */
  function RejectedIds(data: seq<VehicleTuple>): (r: seq<int>)
    ensures forall i :: i in r ==> exists k :: 0 <= k < |data| && data[k].0 == i && Construct(data[k]).Failure?
    decreases |data|
  {
    if |data| == 0 then []
    else
      var t := data[|data| - 1];
      RejectedIds(data[..|data| - 1]) + (if Construct(t).Failure? then [t.0] else [])
  }

  /** Every tuple that construction rejects has its id reported: together
      with the ensures of `RejectedIds`, an id is reported iff some input
      tuple with that id is rejected. */
  lemma {:induction false} RejectedComplete(data: seq<VehicleTuple>, k: nat)
    requires k < |data| && Construct(data[k]).Failure?
    ensures data[k].0 in RejectedIds(data)
    decreases |data|
  {
    var n := |data| - 1;
    if k < n {
      assert data[..n][k] == data[k];
      RejectedComplete(data[..n], k);
    }
  }

  /** The ingestion loop of the entry point: builds a vehicle from each
      tuple and appends it; a tuple that construction rejects is reported
      by its id and skipped, and the loop goes on. */
  method AddValidVehicles(fleet: FleetManager, data: seq<VehicleTuple>) returns (rejected: seq<int>)
    modifies fleet
    ensures fleet.vehicles == old(fleet.vehicles) + Accepted(data)
    ensures rejected == RejectedIds(data)
  {
    rejected := [];
    for i := 0 to |data|
      invariant fleet.vehicles == old(fleet.vehicles) + Accepted(data[..i])
      invariant rejected == RejectedIds(data[..i])
    {
      assert data[..i + 1][..i] == data[..i];
      var tuple := data[i];
      var result := NewVehicle(tuple.0, tuple.1, tuple.2, tuple.3);
      match result {
        case Success(vehicle) =>
          fleet.AddVehicle(vehicle);
        case Failure(_) =>
          rejected := rejected + [tuple.0];
      }
    }
    assert data[..|data|] == data;
  }

  /** A vehicle is added if and only if some input tuple carries exactly
      its readings and passes validation. */
  lemma {:induction false} AcceptedIff(data: seq<VehicleTuple>, v: Vehicle)
    ensures v in Accepted(data) <==>
      v.Valid() && exists k :: 0 <= k < |data| && data[k] == (v.id, v.speed, v.temperature, v.fuel)
    decreases |data|
  {
    if |data| > 0 {
      var n := |data| - 1;
      AcceptedIff(data[..n], v);
      if v.Valid() && data[n] == (v.id, v.speed, v.temperature, v.fuel) {
        assert Construct(data[n]) == Success(v);
      }
      if exists k :: 0 <= k < n && data[..n][k] == (v.id, v.speed, v.temperature, v.fuel) {
        var k :| 0 <= k < n && data[..n][k] == (v.id, v.speed, v.temperature, v.fuel);
        assert data[k] == data[..n][k];
      }
      if exists k :: 0 <= k < |data| && data[k] == (v.id, v.speed, v.temperature, v.fuel) {
        var k :| 0 <= k < |data| && data[k] == (v.id, v.speed, v.temperature, v.fuel);
        if k < n {
          assert data[..n][k] == data[k];
        }
      }
    }
  }

  /** Ingestion keeps input order: the vehicles added for `xs + ys` are
      those for `xs` followed by those for `ys`. */
  lemma {:induction false} AcceptedAppend(xs: seq<VehicleTuple>, ys: seq<VehicleTuple>)
    ensures Accepted(xs + ys) == Accepted(xs) + Accepted(ys)
    decreases |ys|
  {
    if |ys| == 0 {
      assert xs + ys == xs;
    } else {
      var n := |ys| - 1;
      assert (xs + ys)[..|xs + ys| - 1] == xs + ys[..n];
      assert (xs + ys)[|xs + ys| - 1] == ys[n];
      AcceptedAppend(xs, ys[..n]);
    }
  }

  /** When every tuple is valid, all of them are added, in order, and none
      is reported. */
  lemma {:induction false} AllValidAllAccepted(data: seq<VehicleTuple>)
    requires forall k :: 0 <= k < |data| ==> Construct(data[k]).Success?
    ensures |Accepted(data)| == |data|
    ensures forall k :: 0 <= k < |data| ==> Accepted(data)[k] == Construct(data[k]).value
    ensures RejectedIds(data) == []
    decreases |data|
  {
    if |data| > 0 {
      var n := |data| - 1;
      AllValidAllAccepted(data[..n]);
      forall k | 0 <= k < n
        ensures Accepted(data)[k] == Construct(data[k]).value
      {
        assert data[..n][k] == data[k];
      }
    }
  }

  /** The sample data hard-coded in the entry point. */
  const SampleData: seq<VehicleTuple> := [(1, 120.0, 130.0, 10.0), (2, 80.0, 90.0, 40.0), (3, 0.0, 85.0, 50.0)]

  /** The entry point's run over a list of tuples: ingest, then report the
      alerts and the average speed of the vehicles that were added. */
  method FleetReport(data: seq<VehicleTuple>) returns (rejected: seq<int>, alerts: seq<Alert>, averageSpeed: real)
    ensures rejected == RejectedIds(data)
    ensures alerts == FleetAlerts(Accepted(data))
    ensures averageSpeed == Mean<Vehicle>(Accepted(data), SpeedOf)
  {
    var fleet := new FleetManager();
    rejected := AddValidVehicles(fleet, data);
    assert fleet.vehicles == Accepted(data);
    alerts := fleet.CheckAlerts();
    averageSpeed := fleet.GetAverageSpeed();
  }

  /** All three sample tuples pass validation and are added in order. */
  lemma SampleDataAccepted()
    ensures Accepted(SampleData)
         == [Vehicle(1, 120.0, 130.0, 10.0), Vehicle(2, 80.0, 90.0, 40.0), Vehicle(3, 0.0, 85.0, 50.0)]
    ensures RejectedIds(SampleData) == []
  {
    AllValidAllAccepted(SampleData);
  }

  /** The alerts of three vehicles are theirs, one vehicle after another. */
  lemma ThreeVehicleAlerts(a: Vehicle, b: Vehicle, c: Vehicle)
    ensures FleetAlerts([a, b, c])
         == VehicleAlerts(a.id, a.IsOverheating(), a.HasLowFuel())
          + VehicleAlerts(b.id, b.IsOverheating(), b.HasLowFuel())
          + VehicleAlerts(c.id, c.IsOverheating(), c.HasLowFuel())
  {
    assert [a, b, c] == [a] + [b] + [c];
    AlertsOfAppend([a], [b], IdOf, Overheats, LowOnFuel);
    AlertsOfAppend([a] + [b], [c], IdOf, Overheats, LowOnFuel);
    AlertsOfSingleton(a, IdOf, Overheats, LowOnFuel);
    AlertsOfSingleton(b, IdOf, Overheats, LowOnFuel);
    AlertsOfSingleton(c, IdOf, Overheats, LowOnFuel);
  }

  /** The total speed of three vehicles. */
  lemma ThreeVehicleSpeeds(a: Vehicle, b: Vehicle, c: Vehicle)
    ensures Sum<Vehicle>([a, b, c], SpeedOf) == a.speed + b.speed + c.speed
  {
    assert [a, b, c] == [a] + [b] + [c];
    SumAppend<Vehicle>([a], [b], SpeedOf);
    SumAppend<Vehicle>([a] + [b], [c], SpeedOf);
    SumSingleton<Vehicle>(a, SpeedOf);
    SumSingleton<Vehicle>(b, SpeedOf);
    SumSingleton<Vehicle>(c, SpeedOf);
  }

  /** On the sample data all three vehicles are added; only vehicle 1
      alerts (both overheating and low fuel), and the average speed is
      (120 + 80 + 0) / 3. */
  method SampleFleetReport() returns (rejected: seq<int>, alerts: seq<Alert>, averageSpeed: real)
    ensures rejected == []
    ensures alerts == [Alert(1, Overheating), Alert(1, LowFuel)]
    ensures averageSpeed == 200.0 / 3.0
  {
    rejected, alerts, averageSpeed := FleetReport(SampleData);
    var a, b, c := Vehicle(1, 120.0, 130.0, 10.0), Vehicle(2, 80.0, 90.0, 40.0), Vehicle(3, 0.0, 85.0, 50.0);
    SampleDataAccepted();
    ThreeVehicleAlerts(a, b, c);
    ThreeVehicleSpeeds(a, b, c);
  }
}
