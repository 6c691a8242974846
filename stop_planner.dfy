/**
 The stop planner of the trip-planner view: from the geocoded waypoints and
 the route distance it lists the pickup stop, the dropoff stop and one fuel
 stop per full 1000 miles, every fuel stop pinned to the pickup position.
 */
module StopPlanner {
  import Decimal

  /** One geocoded waypoint, in the `[lng, lat]` order of the geocoder. */
  datatype Coord = Coord(lng: real, lat: real)

  datatype StopKind = Pickup | Dropoff | Fuel

  datatype Stop = Stop(kind: StopKind, name: string, lat: real, lng: real)

  const FuelIntervalMiles: real := 1000.0

  /** The label of the `n`-th fuel stop, counting from 1. */
  function FuelStopName(n: nat): string {
    "Fuel Stop " + Decimal.NatToString(n)
  }

  /**
   The number of fuel stops for a route of `distanceMiles`: one per full
   1000 miles, and none for a negative distance (a range over a negative
   count is empty).
   */
  function FuelStopCount(distanceMiles: real): (n: nat)
    ensures distanceMiles >= 0.0 ==>
      (n as real) * FuelIntervalMiles <= distanceMiles < (n as real + 1.0) * FuelIntervalMiles
    ensures distanceMiles < FuelIntervalMiles ==> n == 0
  {
    var whole := (distanceMiles / FuelIntervalMiles).Floor;
    if whole < 0 then 0 else whole
  }

  /**
   Lists the stops of a trip. `coords` holds the current location, the
   pickup and the dropoff, in that order.
   */
  method CalculateStops(coords: seq<Coord>, distanceMiles: real) returns (stops: seq<Stop>)
    requires |coords| >= 3
    ensures |stops| == 2 + FuelStopCount(distanceMiles)
    ensures stops[0] == Stop(Pickup, "Pickup Location", coords[1].lat, coords[1].lng)
    ensures stops[1] == Stop(Dropoff, "Dropoff Location", coords[2].lat, coords[2].lng)
    ensures forall i :: 2 <= i < |stops| ==>
      stops[i] == Stop(Fuel, FuelStopName(i - 1), coords[1].lat, coords[1].lng)
  {
    stops := [
      Stop(Pickup, "Pickup Location", coords[1].lat, coords[1].lng),
      Stop(Dropoff, "Dropoff Location", coords[2].lat, coords[2].lng)
    ];
    var numFuelStops := (distanceMiles / FuelIntervalMiles).Floor;
    var i := 0;
    while i < numFuelStops
      invariant 0 <= i && (i <= numFuelStops || i == 0)
      invariant |stops| == 2 + i
      invariant stops[0] == Stop(Pickup, "Pickup Location", coords[1].lat, coords[1].lng)
      invariant stops[1] == Stop(Dropoff, "Dropoff Location", coords[2].lat, coords[2].lng)
      invariant forall j :: 2 <= j < |stops| ==>
        stops[j] == Stop(Fuel, FuelStopName(j - 1), coords[1].lat, coords[1].lng)
    {
      stops := stops + [Stop(Fuel, FuelStopName(i + 1), coords[1].lat, coords[1].lng)];
      i := i + 1;
    }
  }

  /** No two fuel stops share a label. */
  lemma FuelStopNamesDistinct(m: nat, n: nat)
    requires m != n
    ensures FuelStopName(m) != FuelStopName(n)
  {
    if FuelStopName(m) == FuelStopName(n) {
      var prefix := "Fuel Stop ";
      assert FuelStopName(m)[|prefix|..] == Decimal.NatToString(m);
      assert FuelStopName(n)[|prefix|..] == Decimal.NatToString(n);
      Decimal.NatToStringInjective(m, n);
    }
  }
}
