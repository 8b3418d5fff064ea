/**
  The scenarios of the split-module fleet manager's test suite
  (fleet-management/src/tests/FleetTests.cpp), each as a client of
  `FleetManager` whose postcondition is the expected outcome. The tests'
  approximate comparisons become exact, since readings are reals.
*/
module FleetScenarios {
  import opened Vehicles
  import opened Stats
  import opened Alerts
  import opened FleetManagement

  /** A manager that has not computed yet reports 0.0 for all three. */
  method AveragesBeforeCompute(fleet: seq<Vehicle>) returns (speed: real, temperature: real, fuel: real)
    ensures speed == 0.0 && temperature == 0.0 && fuel == 0.0
  {
    var fm := new FleetManager(fleet);
    speed, temperature, fuel := fm.AverageSpeed(), fm.AverageTemperature(), fm.AverageFuel();
  }

  /** The three averages of a fleet, as the tests read them back. */
  method Averages(fleet: seq<Vehicle>) returns (speed: real, temperature: real, fuel: real)
    ensures speed == Mean(fleet, SpeedOf)
    ensures temperature == Mean(fleet, TemperatureOf)
    ensures fuel == Mean(fleet, FuelOf)
  {
    var fm := new FleetManager(fleet);
    fm.ComputeAverages();
    speed, temperature, fuel := fm.AverageSpeed(), fm.AverageTemperature(), fm.AverageFuel();
  }

  /** A fleet whose vehicles all carry the same three readings averages
      to exactly those readings. */
  method UniformFleetAverages(fleet: seq<Vehicle>, s: real, t: real, f: real)
    returns (speed: real, temperature: real, fuel: real)
    requires |fleet| > 0
    requires forall k :: 0 <= k < |fleet| ==>
      fleet[k].GetSpeed() == s && fleet[k].GetTemperature() == t && fleet[k].GetFuel() == f
    ensures speed == s && temperature == t && fuel == f
  {
    speed, temperature, fuel := Averages(fleet);
    MeanConstant(fleet, SpeedOf, s);
    MeanConstant(fleet, TemperatureOf, t);
    MeanConstant(fleet, FuelOf, f);
  }

  method EmptyFleet() returns (speed: real, temperature: real, fuel: real)
    ensures speed == 0.0 && temperature == 0.0 && fuel == 0.0
  {
    speed, temperature, fuel := Averages([]);
  }

  method SingleVehicle() returns (speed: real, temperature: real, fuel: real)
    ensures speed == 77.0 && temperature == 88.0 && fuel == 99.0
  {
    speed, temperature, fuel := UniformFleetAverages([Vehicle(42, 77.0, 88.0, 99.0)], 77.0, 88.0, 99.0);
  }

  method TenThousandVehicles() returns (speed: real, temperature: real, fuel: real)
    ensures speed == 100.0 && temperature == 100.0 && fuel == 100.0
  {
    var fleet := seq(10000, i => Vehicle(i, 100.0, 100.0, 100.0));
    speed, temperature, fuel := UniformFleetAverages(fleet, 100.0, 100.0, 100.0);
  }

  method TenNegativeVehicles() returns (speed: real, temperature: real, fuel: real)
    ensures speed == -100.0 && temperature == -100.0 && fuel == -100.0
  {
    var fleet := seq(10, i => Vehicle(i, -100.0, -100.0, -100.0));
    speed, temperature, fuel := UniformFleetAverages(fleet, -100.0, -100.0, -100.0);
  }

  /** The average of two vehicles is the midpoint of each reading. */
  method TwoVehicles(a: Vehicle, b: Vehicle) returns (speed: real, temperature: real, fuel: real)
    ensures speed == (a.GetSpeed() + b.GetSpeed()) / 2.0
    ensures temperature == (a.GetTemperature() + b.GetTemperature()) / 2.0
    ensures fuel == (a.GetFuel() + b.GetFuel()) / 2.0
  {
    speed, temperature, fuel := Averages([a, b]);
    MeanOfTwo(a, b, SpeedOf);
    MeanOfTwo(a, b, TemperatureOf);
    MeanOfTwo(a, b, FuelOf);
  }

  method ZeroValues() returns (speed: real, temperature: real, fuel: real)
    ensures speed == 0.0 && temperature == 0.0 && fuel == 0.0
  {
    speed, temperature, fuel := TwoVehicles(Vehicle(1, 0.0, 0.0, 0.0), Vehicle(2, 0.0, 0.0, 0.0));
  }

  method MixedSigns() returns (speed: real, temperature: real, fuel: real)
    ensures speed == 0.0 && temperature == 0.0 && fuel == 0.0
  {
    speed, temperature, fuel := TwoVehicles(Vehicle(1, 100.0, 100.0, 100.0), Vehicle(2, -100.0, -100.0, -100.0));
  }

  method FractionalReadings() returns (speed: real, temperature: real, fuel: real)
    ensures speed == 61.0 && temperature == 91.0 && fuel == 51.0
  {
    speed, temperature, fuel := TwoVehicles(Vehicle(1, 60.5, 90.5, 50.5), Vehicle(2, 61.5, 91.5, 51.5));
  }

  method ZeroAndHundred() returns (speed: real, temperature: real, fuel: real)
    ensures speed == 50.0 && temperature == 50.0 && fuel == 50.0
  {
    speed, temperature, fuel := TwoVehicles(Vehicle(1, 0.0, 0.0, 0.0), Vehicle(2, 100.0, 100.0, 100.0));
  }

  /** The alerts of a fleet, as the check emits them. */
  method AlertsFor(fleet: seq<Vehicle>) returns (alerts: seq<Alert>)
    ensures alerts == FleetAlerts(fleet)
  {
    var fm := new FleetManager(fleet);
    alerts := fm.CheckAlerts();
  }

  /** Five vehicles at 120 degrees with 10 fuel: five overheating and five
      low-fuel alerts, ten in all. */
  method AllVehiclesAlert() returns (alerts: seq<Alert>)
    ensures |alerts| == 10
    ensures |KindFilter(alerts, Overheating)| == 5 && |KindFilter(alerts, LowFuel)| == 5
  {
    var fleet := seq(5, i => Vehicle(i, 60.0, 120.0, 10.0));
    alerts := AlertsFor(fleet);
    AllCounted(fleet, IsOverheating);
    AllCounted(fleet, HasLowFuel);
    AlertCount(fleet, IdOf, IsOverheating, HasLowFuel);
    AlertKindCount(fleet, Overheating, IdOf, IsOverheating, HasLowFuel);
    AlertKindCount(fleet, LowFuel, IdOf, IsOverheating, HasLowFuel);
  }

  method NoVehicleAlerts() returns (alerts: seq<Alert>)
    ensures alerts == []
  {
    var fleet := seq(5, i => Vehicle(i, 60.0, 90.0, 50.0));
    alerts := AlertsFor(fleet);
    NoAlertsWhenAllNominal(fleet, IdOf, IsOverheating, HasLowFuel);
  }

  /** The exact thresholds raise nothing; just past them raises both. */
  method ThresholdBoundaries() returns (atThreshold: seq<Alert>, pastThreshold: seq<Alert>)
    ensures atThreshold == []
    ensures pastThreshold == [Alert(2, Overheating), Alert(2, LowFuel)]
  {
    atThreshold := AlertsFor([Vehicle(1, 60.0, 110.0, 15.0), Vehicle(1, 60.0, 109.99, 15.01)]);
    NoAlertsWhenAllNominal([Vehicle(1, 60.0, 110.0, 15.0), Vehicle(1, 60.0, 109.99, 15.01)], IdOf, IsOverheating, HasLowFuel);
    pastThreshold := AlertsFor([Vehicle(2, 60.0, 110.01, 14.99)]);
  }

  method AlternatingAlerts() returns (alerts: seq<Alert>)
    ensures alerts == [Alert(1, Overheating), Alert(1, LowFuel), Alert(3, Overheating), Alert(3, LowFuel)]
  {
    var a, b := Vehicle(1, 60.0, 120.0, 10.0), Vehicle(2, 60.0, 90.0, 50.0);
    var c, d := Vehicle(3, 60.0, 120.0, 10.0), Vehicle(4, 60.0, 90.0, 50.0);
    alerts := AlertsFor([a, b, c, d]);
    FourVehicleAlerts(a, b, c, d);
    AlertsOfSingleton(a, IdOf, IsOverheating, HasLowFuel);
    AlertsOfSingleton(b, IdOf, IsOverheating, HasLowFuel);
    AlertsOfSingleton(c, IdOf, IsOverheating, HasLowFuel);
    AlertsOfSingleton(d, IdOf, IsOverheating, HasLowFuel);
  }

  /** The alerts of four vehicles are theirs, one vehicle after another. */
  lemma FourVehicleAlerts(a: Vehicle, b: Vehicle, c: Vehicle, d: Vehicle)
    ensures FleetAlerts([a, b, c, d])
         == FleetAlerts([a]) + FleetAlerts([b]) + FleetAlerts([c]) + FleetAlerts([d])
  {
    assert [a, b, c, d] == [a] + [b] + [c] + [d];
    AlertsOfAppend([a], [b], IdOf, IsOverheating, HasLowFuel);
    AlertsOfAppend([a] + [b], [c], IdOf, IsOverheating, HasLowFuel);
    AlertsOfAppend([a] + [b] + [c], [d], IdOf, IsOverheating, HasLowFuel);
  }

  /** One vehicle with both alerts, one with none, one overheating, one low
      on fuel: the alerts come out in vehicle order. */
  method MixedAlerts() returns (alerts: seq<Alert>)
    ensures alerts == [Alert(1, Overheating), Alert(1, LowFuel), Alert(3, Overheating), Alert(4, LowFuel)]
  {
    var a, b := Vehicle(1, 60.0, 120.0, 10.0), Vehicle(2, 60.0, 90.0, 50.0);
    var c, d := Vehicle(3, 60.0, 120.0, 50.0), Vehicle(4, 60.0, 90.0, 10.0);
    alerts := AlertsFor([a, b, c, d]);
    FourVehicleAlerts(a, b, c, d);
    AlertsOfSingleton(a, IdOf, IsOverheating, HasLowFuel);
    AlertsOfSingleton(b, IdOf, IsOverheating, HasLowFuel);
    AlertsOfSingleton(c, IdOf, IsOverheating, HasLowFuel);
    AlertsOfSingleton(d, IdOf, IsOverheating, HasLowFuel);
  }
}
