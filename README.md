# Fleet telemetry: averages and threshold alerts

This project models the core of a small fleet-telemetry reporter in Dafny and proves properties of that model. The repository contains two versions of the same logic, and both are modelled side by side without reconciling them:

- **The split-module version** (`fleet-management/src/`). A `Vehicle` is a plain record of id, speed, temperature and fuel. Its constructor accepts any readings, negative ones included. A `FleetManager` copies a vehicle list and caches three averages, which start at 0.0. `computeAverages` refreshes those averages through one generic mean-of-a-projection helper. `checkAlerts` walks the vehicles in order. It reports overheating above 110.0 and low fuel below 15.0.
- **The single-file refactor** (`Refractor_code_Task2/task2.cpp`). Here `Vehicle` rejects a negative speed, a negative temperature, or fuel outside 0..100. The vehicle also has the `isOverheating` and `hasLowFuel` tests. This `FleetManager` starts empty and grows by `addVehicle`. It reports alerts and the average speed. The entry point adds every valid tuple of its sample data and skips the invalid ones.

Files and modules:

- `Stats.dfy` (`Stats`): the averaging helper. `Sum` is the left fold that `std::accumulate` performs. `Mean` takes a projection function in place of the member-function pointer. The module also proves lemmas about the mean: order independence, constant fleets, bounds and non-negativity.
- `Alerts.dfy` (`Alerts`): alert events, written `Alert(vehicleId, kind)`. `AlertsOf` is the specification of an in-order alert pass, generic over the vehicle type and its two tests. The module proves lemmas about alert counts, ordering and when an alert is raised.
- `Vehicles.dfy` (`Vehicles`): the non-validating vehicle of `Vehicle.h` and `Vehicle.cpp`.
- `FleetManagement.dfy` (`FleetManagement`): the `FleetManager` class of `FleetManager.h` and `FleetManager.cpp`.
- `FleetScenarios.dfy` (`FleetScenarios`): the scenarios of `fleet-management/src/tests/FleetTests.cpp`. Each is a client method of `FleetManager` whose postcondition is the expected outcome.
- `RefactoredFleet.dfy` (`RefactoredFleet`): everything in `task2.cpp`, including the ingestion loop of its entry point.

Readings are modelled as `real`. Construction failure is a `Result`. Console alerts become a returned `seq<Alert>` in emission order. A method with no `modifies` clause changes no state, and the cached averages are read by functions. So the C++ `const` members are `const` in the model too. In the split version the vehicle list is a `const` field, because no member adds or removes a vehicle after construction.

## Model

| member | source | states |
|---|---|---|
| `Stats.Mean` | fleet-management/src/FleetManager.cpp:29-35 | the mean of a projection is 0.0 on an empty list, and otherwise times the list length it gives back the accumulated total |
| `Stats.Sum` | fleet-management/src/FleetManager.cpp:32-33 | the left fold that `std::accumulate` performs equals the front-first reference total `Total` (f(v0) + (f(v1) + ...)), so the order of accumulation does not change the total |
| `Stats.SumAppend` | fleet-management/src/FleetManager.cpp:32-33 | the accumulated total over a concatenation is the sum of the two totals |
| `Stats.SumPermutation` | fleet-management/src/FleetManager.cpp:32-33 | any reordering of the vehicles gives the same accumulated total |
| `Stats.MeanPermutation` | fleet-management/src/FleetManager.cpp:29-35 | the average does not depend on the order of the vehicles |
| `Stats.SumConstant` | fleet-management/src/FleetManager.cpp:32-33 | when every vehicle projects to c, the total is the count times c |
| `Stats.MeanConstant` | fleet-management/src/tests/FleetTests.cpp:37-60 | n >= 1 vehicles that all share one value average to exactly that value |
| `Stats.SumBounds` | fleet-management/src/FleetManager.cpp:32-33 | per-vehicle bounds lo..hi bound the total by count*lo..count*hi |
| `Stats.MeanBounds` | fleet-management/src/FleetManager.cpp:29-35 | the average of a non-empty fleet lies between any lower and upper bound of its readings |
| `Stats.SumNonNegative` | Refractor_code_Task2/task2.cpp:157-158 | readings that are never negative accumulate to a total that is never negative |
| `Stats.MeanNonNegative` | Refractor_code_Task2/task2.cpp:155-160 | readings that are never negative average to a value that is never negative |
| `Stats.MeanOfTwo` | fleet-management/src/tests/FleetTests.cpp:75-86 | two vehicles average to half the sum of their readings |
| `Alerts.VehicleAlerts` | fleet-management/src/FleetManager.cpp:82-89 | a vehicle raises an overheating alert iff hot and a low-fuel alert iff low on fuel; both carry its id, and overheating comes first |
| `Alerts.AlertsOfAppend` | fleet-management/src/FleetManager.cpp:81-90 | alerts follow vehicle order: the alerts of xs + ys are those of xs followed by those of ys |
| `Alerts.AlertCount` | fleet-management/src/FleetManager.cpp:80-91 | the number of alerts is the number of overheating vehicles plus the number low on fuel |
| `Alerts.AlertKindCount` | fleet-management/src/FleetManager.cpp:80-91 | the alerts of one kind number exactly the vehicles that meet that kind's test |
| `Alerts.AlertRaisedIff` | fleet-management/src/FleetManager.cpp:80-91 | an alert (id, kind) is raised iff some vehicle with that id meets that kind's test |
| `Alerts.AlertsAreJustified` | fleet-management/src/FleetManager.cpp:80-91 | every alert names a vehicle of the fleet that meets the test of its kind |
| `Alerts.NoAlertsWhenAllNominal` | fleet-management/src/FleetManager.cpp:80-91 | a fleet where no vehicle crosses a threshold raises no alert |
| `Vehicles.GettersReturnConstructorArguments` | fleet-management/src/Vehicle.cpp:14-65 | construction never fails, and each getter returns the argument in its position (id, speed, temperature, fuel) |
| `Vehicles.VehicleIsItsReadings` | fleet-management/src/Vehicle.h:4-18 | a vehicle is exactly an integer id and three readings, and rebuilding it from its getters gives the same vehicle |
| `Vehicles.ConstructorAcceptsAnyReadings` | fleet-management/src/tests/FleetTests.cpp:11-35 | negative and extreme readings (±1e6, -273.15, 999.99, fuel 0 and 100) and ids 0 and -1 are stored unchanged |
| `FleetManagement.FleetManager.constructor` | fleet-management/src/FleetManager.h:9-14 | the manager holds the given vehicles in the same order, and all three averages read 0.0 |
| `FleetManagement.FleetManager.ComputeAverages` | fleet-management/src/FleetManager.cpp:52-56 | afterwards the speed, temperature and fuel accessors return the mean of speed, temperature and fuel respectively; only the cached averages change |
| `FleetManagement.FleetManager.AverageSpeed` | fleet-management/src/FleetManager.cpp:58 | returns the mean speed of the fleet once `ComputeAverages` has run, and 0.0 before |
| `FleetManagement.FleetManager.AverageTemperature` | fleet-management/src/FleetManager.cpp:68 | returns the mean temperature of the fleet once `ComputeAverages` has run, and 0.0 before |
| `FleetManagement.FleetManager.AverageFuel` | fleet-management/src/FleetManager.cpp:69 | returns the mean fuel level of the fleet once `ComputeAverages` has run, and 0.0 before |
| `FleetManagement.FleetManager.CheckAlerts` | fleet-management/src/FleetManager.cpp:80-91 | returns the in-order alert sequence (overheating above 110.0, then low fuel below 15.0, per vehicle); its length is the hot count plus the low count; it changes nothing |
| `FleetManagement.FleetAlertRaisedIff` | fleet-management/src/FleetManager.cpp:26-27 | an alert is raised for an id iff a vehicle with that id has temperature > 110.0 (overheating) or fuel < 15.0 (low fuel); the boundaries raise nothing |
| `FleetScenarios.AveragesBeforeCompute` | fleet-management/src/FleetManager.h:9-11 | a manager that has not computed reports 0.0 for all three averages |
| `FleetScenarios.Averages` | fleet-management/src/FleetManager.cpp:52-69 | constructing, computing and reading back gives the three means of the given fleet |
| `FleetScenarios.UniformFleetAverages` | fleet-management/src/tests/FleetTests.cpp:37-60 | a non-empty fleet with shared readings s, t, f averages to s, t, f |
| `FleetScenarios.EmptyFleet` | fleet-management/src/tests/FleetTests.cpp:99-108 | an empty fleet averages to 0.0 for all three readings |
| `FleetScenarios.SingleVehicle` | fleet-management/src/tests/FleetTests.cpp:50-60 | one vehicle {77, 88, 99} averages to 77, 88, 99 |
| `FleetScenarios.TenThousandVehicles` | fleet-management/src/tests/FleetTests.cpp:37-48 | 10000 vehicles {100, 100, 100} average to exactly 100 |
| `FleetScenarios.TenNegativeVehicles` | fleet-management/src/tests/FleetTests.cpp:175-185 | ten vehicles {-100, -100, -100} average to exactly -100 |
| `FleetScenarios.TwoVehicles` | fleet-management/src/FleetManager.cpp:52-55 | a two-vehicle fleet averages each reading to the midpoint of the two |
| `FleetScenarios.ZeroValues` | fleet-management/src/tests/FleetTests.cpp:62-73 | two all-zero vehicles average to 0 |
| `FleetScenarios.MixedSigns` | fleet-management/src/tests/FleetTests.cpp:75-86 | {100} and {-100} average to 0 |
| `FleetScenarios.FractionalReadings` | fleet-management/src/tests/FleetTests.cpp:153-173 | {60.5, 90.5, 50.5} and {61.5, 91.5, 51.5} average to exactly 61, 91, 51 |
| `FleetScenarios.ZeroAndHundred` | fleet-management/src/tests/FleetTests.cpp:228-238 | {0} and {100} average to 50 |
| `FleetScenarios.AlertsFor` | fleet-management/src/FleetManager.cpp:80-91 | a manager's check on a fleet returns the alert sequence of that fleet |
| `FleetScenarios.AllVehiclesAlert` | fleet-management/src/tests/FleetTests.cpp:110-118 | five vehicles at 120 degrees with fuel 10 give ten alerts, five of each kind |
| `FleetScenarios.NoVehicleAlerts` | fleet-management/src/tests/FleetTests.cpp:120-128 | five nominal vehicles give no alert |
| `FleetScenarios.ThresholdBoundaries` | fleet-management/src/FleetManager.cpp:82-86 | temperature 110.0 or 109.99 and fuel 15.0 or 15.01 raise nothing; 110.01 and 14.99 raise both alerts |
| `FleetScenarios.AlternatingAlerts` | fleet-management/src/tests/FleetTests.cpp:130-140 | vehicles 1 and 3 each raise overheating then low fuel, and 2 and 4 raise nothing |
| `FleetScenarios.MixedAlerts` | fleet-management/src/tests/FleetTests.cpp:216-226 | both alerts for 1, none for 2, overheating for 3, low fuel for 4, in that order |
| `RefactoredFleet.NewVehicle` | Refractor_code_Task2/task2.cpp:70-75 | construction succeeds iff speed >= 0, temperature >= 0 and 0 <= fuel <= 100, and then the getters return the supplied values |
| `RefactoredFleet.NewVehicleRoundTrip` | Refractor_code_Task2/task2.cpp:70-81 | rebuilding any vehicle from its getters gives it back when it is valid, and an invalid-argument failure otherwise |
| `RefactoredFleet.ConstructionBoundaries` | Refractor_code_Task2/task2.cpp:72-74 | speed 0 and fuel 0 or 100 are accepted; speed -10, temperature -20, fuel -5 and fuel 101 are rejected |
| `RefactoredFleet.StatusThresholds` | Refractor_code_Task2/task2.cpp:84-90 | isOverheating is false at 109.99 and 110.0 and true at 110.01; hasLowFuel is false at 15.0 and true at 14.99 |
| `RefactoredFleet.Vehicle.IsOverheating` | Refractor_code_Task2/task2.cpp:84-86 | true iff the temperature is strictly above 110.0 |
| `RefactoredFleet.Vehicle.HasLowFuel` | Refractor_code_Task2/task2.cpp:88-90 | true iff the fuel level is strictly below 15.0 |
| `RefactoredFleet.StatusAlertIff` | Refractor_code_Task2/task2.cpp:138-152 | the manager raises an alert of a kind for an id iff some vehicle with that id passes isOverheating (overheating) or hasLowFuel (low fuel) |
| `RefactoredFleet.FleetManager.constructor` | Refractor_code_Task2/task2.cpp:127-129 | a new manager holds no vehicles |
| `RefactoredFleet.FleetManager.AddVehicle` | Refractor_code_Task2/task2.cpp:133-135 | appends the vehicle at the end and keeps the earlier vehicles in order |
| `RefactoredFleet.FleetManager.CheckAlerts` | Refractor_code_Task2/task2.cpp:138-152 | returns the insertion-order alert sequence (isOverheating, then hasLowFuel, per vehicle); its length is the hot count plus the low count; it changes nothing |
| `RefactoredFleet.FleetManager.GetAverageSpeed` | Refractor_code_Task2/task2.cpp:155-160 | 0.0 on an empty fleet; otherwise times the count it gives back the total speed; never negative, because construction rejects negative speeds |
| `RefactoredFleet.AddValidVehicles` | Refractor_code_Task2/task2.cpp:191-204 | appends exactly the tuples that pass validation, in input order, and reports the ids of the rejected ones without stopping |
| `RefactoredFleet.Accepted` | Refractor_code_Task2/task2.cpp:191-204 | the added vehicles and the rejected ids together number exactly the input tuples; which tuple goes where is stated by `AcceptedIff` (added iff valid) and by `RejectedIds` with `RejectedComplete` (reported iff rejected) |
| `RefactoredFleet.RejectedIds` | Refractor_code_Task2/task2.cpp:191-204 | every reported id is the id of some input tuple that construction rejects |
| `RefactoredFleet.RejectedComplete` | Refractor_code_Task2/task2.cpp:200-202 | every tuple that construction rejects has its id reported; with `RejectedIds`, an id is reported iff some input tuple with that id is rejected |
| `RefactoredFleet.AcceptedIff` | Refractor_code_Task2/task2.cpp:191-204 | a vehicle is added iff it is valid and some input tuple carries exactly its readings |
| `RefactoredFleet.AcceptedAppend` | Refractor_code_Task2/task2.cpp:191-204 | ingestion keeps input order: the vehicles added for xs + ys are those for xs followed by those for ys |
| `RefactoredFleet.AllValidAllAccepted` | Refractor_code_Task2/task2.cpp:191-204 | when every tuple is valid, all are added in order and none is reported |
| `RefactoredFleet.SampleDataAccepted` | Refractor_code_Task2/task2.cpp:184-188 | all three sample tuples are valid and are added in order |
| `RefactoredFleet.FleetReport` | Refractor_code_Task2/task2.cpp:179-212 | the entry point's run reports the rejected ids, the alerts of the added vehicles and their mean speed |
| `RefactoredFleet.SampleFleetReport` | Refractor_code_Task2/task2.cpp:179-212 | on the sample data nothing is rejected, vehicle 1 alone raises both alerts, and the average speed is 200/3 |

## Left out

- Console output: the alert message texts, the per-vehicle status line of the refactor's `checkAlerts`, the report headers and the invalid-vehicle message. Alerts are abstract `(id, kind)` events, and a rejected tuple is reported by its id.
- `fleet-management/src/main.cpp` is not part of this model. It does file reading, header skipping, line tokenising and library number parsing, and it holds an entry point with exit codes.
- The outer `catch (const std::exception&)` handlers of both entry points report process-level failures, and they are not modelled.
- IEEE-754 double rounding and accumulation error. Readings are exact reals, so the tests' approximate comparisons become exact equalities.
- The 32-bit width of `int` ids: ids are unbounded integers. They are only stored and compared, never computed with.
- The member-function-pointer mechanism of `computeAverage`: it is replaced by a projection function argument.
- RefactoredFleet.NewVehicle: NaN and infinite readings cannot be written as reals. The C++ validation at `Refractor_code_Task2/task2.cpp:72` accepts a NaN reading, because every comparison with NaN is false. Such a vehicle would raise no alert in `checkAlerts`.
- RefactoredFleet.FleetManager.GetAverageSpeed: its `0.0 <= r` holds only because NaN readings are left out; one NaN speed admitted by the C++ constructor makes `getAverageSpeed` return NaN.
- Vehicles.Vehicle: the split version's vehicle stores NaN and infinite readings unchecked (`fleet-management/src/Vehicle.cpp:14-15`); readings here are finite exact reals.
- Stats.Mean: the C++ double accumulation can overflow (two speeds of 1e308 average to infinity at `fleet-management/src/FleetManager.cpp:32-34`) and propagates NaN; with exact reals, `Stats.MeanBounds` and the other mean lemmas hold only for finite readings whose total does not overflow.
