/**
  The vehicle record of the split-module fleet manager
  (fleet-management/src/Vehicle.h and Vehicle.cpp): an immutable snapshot
  of one vehicle's telemetry. Its constructor stores the four readings as
  given and never rejects any of them; negative speed, temperature or fuel
  are accepted.
*/
module Vehicles {

  /** Constructed as `Vehicle(id, speed, temperature, fuel)`, in the
      argument order of the C++ constructor. A datatype value has no
      setters, so a vehicle never changes after construction. */
  datatype Vehicle = Vehicle(id: int, speed: real, temperature: real, fuel: real) {

    function GetId(): int { id }

    function GetSpeed(): real { speed }

    function GetTemperature(): real { temperature }

    function GetFuel(): real { fuel }
  }

  /** Construction never fails and each getter returns the argument given
      to the constructor in its position. */
  lemma GettersReturnConstructorArguments(id: int, speed: real, temperature: real, fuel: real)
    ensures var v := Vehicle(id, speed, temperature, fuel);
      && v.GetId() == id
      && v.GetSpeed() == speed
      && v.GetTemperature() == temperature
      && v.GetFuel() == fuel
  {
  }

  /** A vehicle is exactly its id and three readings: rebuilding it from
      its getters gives the same vehicle. */
  lemma VehicleIsItsReadings(v: Vehicle)
    ensures v == Vehicle(v.GetId(), v.GetSpeed(), v.GetTemperature(), v.GetFuel())
  {
  }

  /** Values the C++ tests construct: negative and extreme
      readings, and ids 0 and -1, are stored unchanged. */
  lemma ConstructorAcceptsAnyReadings()
    ensures Vehicle(1, -10.0, 90.0, 50.0).GetSpeed() == -10.0
    ensures Vehicle(1, 60.0, -20.0, 50.0).GetTemperature() == -20.0
    ensures Vehicle(1, 60.0, 90.0, -5.0).GetFuel() == -5.0
    ensures Vehicle(1, 1000000.0, 90.0, 50.0).GetSpeed() == 1000000.0
    ensures Vehicle(1, -1000000.0, 90.0, 50.0).GetSpeed() == -1000000.0
    ensures Vehicle(0, 60.0, 90.0, 50.0).GetId() == 0
    ensures Vehicle(-1, 60.0, 90.0, 50.0).GetId() == -1
    ensures Vehicle(1, 60.0, 999.99, 50.0).GetTemperature() == 999.99
    ensures Vehicle(1, 60.0, -273.15, 50.0).GetTemperature() == -273.15
    ensures Vehicle(1, 60.0, 90.0, 0.0).GetFuel() == 0.0
    ensures Vehicle(1, 60.0, 90.0, 100.0).GetFuel() == 100.0
  {
  }
}
