/**
  Alert events that both fleet managers emit while walking their vehicles.
  The C++ program prints each alert as a console line; here an alert is an
  abstract event holding the vehicle's id and the kind of alert, and a
  check returns the events in the order in which they are printed.
*/
module Alerts {

  datatype AlertKind = Overheating | LowFuel

  datatype Alert = Alert(vehicleId: int, kind: AlertKind)

  /** The alerts raised by one vehicle: overheating first, then low fuel. */
  function VehicleAlerts(id: int, overheating: bool, lowFuel: bool): (r: seq<Alert>)
    ensures |r| == (if overheating then 1 else 0) + (if lowFuel then 1 else 0)
    ensures forall a :: a in r ==> a.vehicleId == id
    ensures Alert(id, Overheating) in r <==> overheating
    ensures Alert(id, LowFuel) in r <==> lowFuel
    ensures overheating && lowFuel ==> r[0].kind == Overheating
  {
    (if overheating then [Alert(id, Overheating)] else [])
      + (if lowFuel then [Alert(id, LowFuel)] else [])
  }

  /** The alerts of a whole fleet, vehicle by vehicle in sequence order.
      `id`, `overheating` and `lowFuel` stand for the vehicle's getter and
      its two threshold tests. */
  function AlertsOf<V>(vs: seq<V>, id: V -> int, overheating: V -> bool, lowFuel: V -> bool): seq<Alert>
    decreases |vs|
  {
    if |vs| == 0 then []
    else
      var last := vs[|vs| - 1];
      AlertsOf(vs[..|vs| - 1], id, overheating, lowFuel)
        + VehicleAlerts(id(last), overheating(last), lowFuel(last))
  }

  /** Number of vehicles that satisfy `p`. */
  function Count<V>(vs: seq<V>, p: V -> bool): nat
    decreases |vs|
  {
    if |vs| == 0 then 0
    else Count(vs[..|vs| - 1], p) + (if p(vs[|vs| - 1]) then 1 else 0)
  }

  /** The test that raises an alert of the given kind. */
  function Condition<V>(kind: AlertKind, overheating: V -> bool, lowFuel: V -> bool): V -> bool
  {
    match kind
    case Overheating => overheating
    case LowFuel => lowFuel
  }

  /** Alerts follow vehicle order: the alerts of `xs + ys` are those of
      `xs` followed by those of `ys`. */
  lemma {:induction false} AlertsOfAppend<V>(xs: seq<V>, ys: seq<V>, id: V -> int, overheating: V -> bool, lowFuel: V -> bool)
    ensures AlertsOf(xs + ys, id, overheating, lowFuel)
         == AlertsOf(xs, id, overheating, lowFuel) + AlertsOf(ys, id, overheating, lowFuel)
    decreases |ys|
  {
    if |ys| == 0 {
      assert xs + ys == xs;
    } else {
      var n := |ys| - 1;
      assert (xs + ys)[..|xs + ys| - 1] == xs + ys[..n];
      assert (xs + ys)[|xs + ys| - 1] == ys[n];
      AlertsOfAppend(xs, ys[..n], id, overheating, lowFuel);
    }
  }

  /** A single vehicle raises its own alerts. */
  lemma AlertsOfSingleton<V>(v: V, id: V -> int, overheating: V -> bool, lowFuel: V -> bool)
    ensures AlertsOf([v], id, overheating, lowFuel) == VehicleAlerts(id(v), overheating(v), lowFuel(v))
  {
    assert [v][..0] == [];
  }

  /** There are exactly as many alerts as overheating vehicles plus
      vehicles low on fuel; a vehicle may count in both. */
  lemma {:induction false} AlertCount<V>(vs: seq<V>, id: V -> int, overheating: V -> bool, lowFuel: V -> bool)
    ensures |AlertsOf(vs, id, overheating, lowFuel)| == Count(vs, overheating) + Count(vs, lowFuel)
    decreases |vs|
  {
    if |vs| > 0 {
      AlertCount(vs[..|vs| - 1], id, overheating, lowFuel);
    }
  }

  /** Counting the alerts of one kind: one per vehicle that meets the
      matching condition. */
  lemma {:induction false} AlertKindCount<V>(vs: seq<V>, kind: AlertKind, id: V -> int, overheating: V -> bool, lowFuel: V -> bool)
    ensures |KindFilter(AlertsOf(vs, id, overheating, lowFuel), kind)|
         == Count(vs, Condition(kind, overheating, lowFuel))
    decreases |vs|
  {
    if |vs| > 0 {
      var n := |vs| - 1;
      var last := vs[n];
      AlertKindCount(vs[..n], kind, id, overheating, lowFuel);
      KindFilterAppend(AlertsOf(vs[..n], id, overheating, lowFuel),
                       VehicleAlerts(id(last), overheating(last), lowFuel(last)), kind);
      KindFilterVehicle(id(last), overheating(last), lowFuel(last), kind);
    }
  }

  lemma KindFilterVehicle(id: int, overheating: bool, lowFuel: bool, kind: AlertKind)
    ensures |KindFilter(VehicleAlerts(id, overheating, lowFuel), kind)|
         == if (if kind == Overheating then overheating else lowFuel) then 1 else 0
  {
    var hot, low := Alert(id, Overheating), Alert(id, LowFuel);
    if overheating && lowFuel {
      assert VehicleAlerts(id, overheating, lowFuel) == [hot, low];
      assert [hot, low][..1] == [hot];
      assert [hot][..0] == [];
      assert KindFilter([hot], kind) == if kind == Overheating then [hot] else [];
      assert KindFilter([hot, low], kind) == KindFilter([hot], kind) + (if kind == LowFuel then [low] else []);
    } else if overheating {
      assert VehicleAlerts(id, overheating, lowFuel) == [hot];
      assert [hot][..0] == [];
    } else if lowFuel {
      assert VehicleAlerts(id, overheating, lowFuel) == [low];
      assert [low][..0] == [];
    }
  }

  /** The alerts of one kind, in order. */
  function KindFilter(alerts: seq<Alert>, kind: AlertKind): seq<Alert>
    decreases |alerts|
  {
    if |alerts| == 0 then []
    else
      var last := alerts[|alerts| - 1];
      KindFilter(alerts[..|alerts| - 1], kind) + (if last.kind == kind then [last] else [])
  }

  lemma {:induction false} KindFilterAppend(xs: seq<Alert>, ys: seq<Alert>, kind: AlertKind)
    ensures KindFilter(xs + ys, kind) == KindFilter(xs, kind) + KindFilter(ys, kind)
    decreases |ys|
  {
    if |ys| == 0 {
      assert xs + ys == xs;
    } else {
      var n := |ys| - 1;
      assert (xs + ys)[..|xs + ys| - 1] == xs + ys[..n];
      assert (xs + ys)[|xs + ys| - 1] == ys[n];
      KindFilterAppend(xs, ys[..n], kind);
    }
  }

  /** Some vehicle of `vs` has id `i` and meets `cond`. */
  ghost predicate SomeVehicle<V>(vs: seq<V>, i: int, id: V -> int, cond: V -> bool)
  {
    exists k :: 0 <= k < |vs| && id(vs[k]) == i && cond(vs[k])
  }

  /** Some vehicle of a non-empty fleet qualifies iff one of all but the
      last does, or the last one does. */
  lemma SomeVehicleSnoc<V>(vs: seq<V>, i: int, id: V -> int, cond: V -> bool)
    requires |vs| > 0
    ensures SomeVehicle(vs, i, id, cond) <==>
      SomeVehicle(vs[..|vs| - 1], i, id, cond) || (id(vs[|vs| - 1]) == i && cond(vs[|vs| - 1]))
  {
    var n := |vs| - 1;
    if SomeVehicle(vs[..n], i, id, cond) {
      var k :| 0 <= k < n && id(vs[..n][k]) == i && cond(vs[..n][k]);
      assert vs[k] == vs[..n][k];
    }
    if SomeVehicle(vs, i, id, cond) {
      var k :| 0 <= k < |vs| && id(vs[k]) == i && cond(vs[k]);
      if k < n {
        assert vs[..n][k] == vs[k];
      }
    }
  }

  /** One vehicle's alerts hold (i, kind) iff that vehicle has id i and
      meets the test of that kind. */
  lemma VehicleAlertsHold(i: int, kind: AlertKind, id: int, overheating: bool, lowFuel: bool)
    ensures Alert(i, kind) in VehicleAlerts(id, overheating, lowFuel) <==>
      id == i && (if kind == Overheating then overheating else lowFuel)
  {
  }

  /** An alert of a given kind for a given id is raised if and only if
      some vehicle with that id meets the condition of that kind. */
  lemma {:induction false} AlertRaisedIff<V>(vs: seq<V>, i: int, kind: AlertKind, id: V -> int, overheating: V -> bool, lowFuel: V -> bool)
    ensures Alert(i, kind) in AlertsOf(vs, id, overheating, lowFuel)
        <==> SomeVehicle(vs, i, id, Condition(kind, overheating, lowFuel))
    decreases |vs|
  {
    if |vs| > 0 {
      var n := |vs| - 1;
      var last := vs[n];
      AlertRaisedIff(vs[..n], i, kind, id, overheating, lowFuel);
      VehicleAlertsHold(i, kind, id(last), overheating(last), lowFuel(last));
      SomeVehicleSnoc(vs, i, id, Condition(kind, overheating, lowFuel));
    }
  }

  /** Every alert names a vehicle of the fleet that meets the condition
      of its kind. */
  lemma AlertsAreJustified<V>(vs: seq<V>, a: Alert, id: V -> int, overheating: V -> bool, lowFuel: V -> bool)
    requires a in AlertsOf(vs, id, overheating, lowFuel)
    ensures exists k :: 0 <= k < |vs| && id(vs[k]) == a.vehicleId && Condition(a.kind, overheating, lowFuel)(vs[k])
  {
    AlertRaisedIff(vs, a.vehicleId, a.kind, id, overheating, lowFuel);
  }

  /** A fleet in which no vehicle crosses a threshold raises no alert. */
  lemma NoAlertsWhenAllNominal<V>(vs: seq<V>, id: V -> int, overheating: V -> bool, lowFuel: V -> bool)
    requires forall k :: 0 <= k < |vs| ==> !overheating(vs[k]) && !lowFuel(vs[k])
    ensures AlertsOf(vs, id, overheating, lowFuel) == []
  {
    AlertCount(vs, id, overheating, lowFuel);
    NoneCounted(vs, overheating);
    NoneCounted(vs, lowFuel);
  }

  lemma {:induction false} NoneCounted<V>(vs: seq<V>, p: V -> bool)
    requires forall k :: 0 <= k < |vs| ==> !p(vs[k])
    ensures Count(vs, p) == 0
    decreases |vs|
  {
    if |vs| > 0 {
      NoneCounted(vs[..|vs| - 1], p);
    }
  }

  lemma {:induction false} AllCounted<V>(vs: seq<V>, p: V -> bool)
    requires forall k :: 0 <= k < |vs| ==> p(vs[k])
    ensures Count(vs, p) == |vs|
    decreases |vs|
  {
    if |vs| > 0 {
      AllCounted(vs[..|vs| - 1], p);
    }
  }
}
