/**
 * What a plan reports, in terms of its input and its reported stops alone: which inputs are refused and why, where
 * each order is picked up and dropped off, and what the loads, legs, distances and savings are.
 */
module PlanReports {
  import opened Prelude
  import opened Decimals
  import opened RoutePlan
  import opened RoutePlanner

  // ----- which inputs are accepted -----

  predicate OnMap(p: Point) {
    -90.0 <= p.latitude <= 90.0 && -180.0 <= p.longitude <= 180.0
  }

  predicate Whole(x: real) { x == x.Floor as real }

  /** The source's input checks as one condition. */
  ghost predicate Sensible(input: PlanInput) {
    && OnMap(input.origin)
    && Whole(input.vehicleCapacity) && input.vehicleCapacity >= 1.0
    && 1 <= |input.orders| <= 25
    && DistinctIds(input.orders)
    && forall o :: o in input.orders ==> !Blank(o.orderId) && OnMap(o.pickup) && OnMap(o.dropoff)
  }

  lemma {:induction false} NoOrderError(orders: seq<Order>, n: nat)
    requires n <= |orders|
    ensures OrdersError(orders, n) == None <==> forall k: nat :: k < n ==> OrderError(orders, k) == None
  {
    if n > 0 {
      NoOrderError(orders, n - 1);
    }
  }

  lemma GoodOrder(orders: seq<Order>, k: nat)
    requires k < |orders|
    ensures OrderError(orders, k) == None <==>
            && !Blank(orders[k].orderId) && OnMap(orders[k].pickup) && OnMap(orders[k].dropoff)
            && forall j :: 0 <= j < k ==> orders[j].orderId != orders[k].orderId
  {
    assert forall j :: 0 <= j < k ==> orders[..k][j] == orders[j];
  }

  /** A plan is refused exactly when its input is not sensible. */
  lemma AcceptedInput(input: PlanInput)
    ensures InputError(input) == None <==> Sensible(input)
  {
    var orders := input.orders;
    NoOrderError(orders, |orders|);
    forall k: nat | k < |orders|
      ensures OrderError(orders, k) == None <==>
              && !Blank(orders[k].orderId) && OnMap(orders[k].pickup) && OnMap(orders[k].dropoff)
              && forall j :: 0 <= j < k ==> orders[j].orderId != orders[k].orderId
    {
      GoodOrder(orders, k);
    }
  }

  /** The point of the input that an error message names. */
  ghost predicate Named(input: PlanInput, name: string, p: Point) {
    || (name == "origin" && p == input.origin)
    || exists o :: o in input.orders
                   && ((name == "pickup:" + o.orderId && p == o.pickup)
                       || (name == "dropoff:" + o.orderId && p == o.dropoff))
  }

  /** What an error says of the input. */
  ghost predicate True(input: PlanInput, e: PlanError) {
    match e
    case LatitudeOutOfRange(name) => exists p :: Named(input, name, p) && !(-90.0 <= p.latitude <= 90.0)
    case LongitudeOutOfRange(name) => exists p :: Named(input, name, p) && !(-180.0 <= p.longitude <= 180.0)
    case CapacityNotPositiveInteger => !(Whole(input.vehicleCapacity) && input.vehicleCapacity >= 1.0)
    case OrderCountOutOfRange => !(1 <= |input.orders| <= 25)
    case OrderIdRequired => exists o :: o in input.orders && Blank(o.orderId)
    case DuplicateOrderId(id) =>
      exists i, j :: 0 <= i < j < |input.orders| && input.orders[i].orderId == input.orders[j].orderId == id
  }

  lemma PointErrorTrue(input: PlanInput, p: Point, name: string)
    requires Named(input, name, p) && PointError(p, name).Some?
    ensures True(input, PointError(p, name).value)
  {
  }

  lemma OrderErrorTrue(input: PlanInput, k: nat)
    requires k < |input.orders| && OrderError(input.orders, k).Some?
    ensures True(input, OrderError(input.orders, k).value)
  {
    var orders, o := input.orders, input.orders[k];
    assert o in orders;
    assert Named(input, "pickup:" + o.orderId, o.pickup) && Named(input, "dropoff:" + o.orderId, o.dropoff);
    if Blank(o.orderId) {
    } else if Has(orders[..k], o.orderId) {
      var j :| 0 <= j < |orders[..k]| && orders[..k][j].orderId == o.orderId;
      assert orders[j].orderId == orders[k].orderId;
    } else if PointError(o.pickup, "pickup:" + o.orderId).Some? {
      PointErrorTrue(input, o.pickup, "pickup:" + o.orderId);
    } else {
      PointErrorTrue(input, o.dropoff, "dropoff:" + o.orderId);
    }
  }

  lemma {:induction false} FirstOrderError(orders: seq<Order>, n: nat) returns (k: nat)
    requires n <= |orders| && OrdersError(orders, n).Some?
    ensures k < n && OrderError(orders, k) == OrdersError(orders, n)
    ensures forall j: nat :: j < k ==> OrderError(orders, j) == None
  {
    if OrdersError(orders, n - 1).Some? {
      k := FirstOrderError(orders, n - 1);
    } else {
      k := n - 1;
      NoOrderError(orders, n - 1);
    }
  }

  /** Every refusal is right about what it says is wrong. */
  lemma RefusalTrue(input: PlanInput)
    requires InputError(input).Some?
    ensures True(input, InputError(input).value)
  {
    if !OnMap(input.origin) {
      PointErrorTrue(input, input.origin, "origin");
    } else if Whole(input.vehicleCapacity) && input.vehicleCapacity >= 1.0 && 1 <= |input.orders| <= 25 {
      var k := FirstOrderError(input.orders, |input.orders|);
      OrderErrorTrue(input, k);
    }
  }

  /** The first check that fails is reported: origin, capacity, number of orders, then the orders as they come. */
  lemma RefusalOrder(input: PlanInput)
    requires InputError(input).Some?
    ensures
      var e := InputError(input).value;
      && (!OnMap(input.origin) ==> e == LatitudeOutOfRange("origin") || e == LongitudeOutOfRange("origin"))
      && (OnMap(input.origin) ==>
            (e.CapacityNotPositiveInteger? <==> !(Whole(input.vehicleCapacity) && input.vehicleCapacity >= 1.0)))
      && (OnMap(input.origin) && Whole(input.vehicleCapacity) && input.vehicleCapacity >= 1.0 ==>
            (e.OrderCountOutOfRange? <==> !(1 <= |input.orders| <= 25)))
  {
    if OnMap(input.origin) && Whole(input.vehicleCapacity) && input.vehicleCapacity >= 1.0
      && 1 <= |input.orders| <= 25 {
      var k := FirstOrderError(input.orders, |input.orders|);
      assert OrderError(input.orders, k) == InputError(input);
    }
  }

  /** The orders before the one reported have nothing wrong with them; of that one, the id is looked at first. */
  lemma FirstBadOrder(orders: seq<Order>) returns (k: nat)
    requires OrdersError(orders, |orders|).Some?
    ensures k < |orders| && OrderError(orders, k) == OrdersError(orders, |orders|)
    ensures forall j :: 0 <= j < k ==> !Blank(orders[j].orderId) && OnMap(orders[j].pickup) && OnMap(orders[j].dropoff)
    ensures DistinctIds(orders[..k])
    ensures Blank(orders[k].orderId) <==> OrdersError(orders, |orders|) == Some(OrderIdRequired)
    ensures !Blank(orders[k].orderId) && Has(orders[..k], orders[k].orderId) ==>
              OrdersError(orders, |orders|) == Some(DuplicateOrderId(orders[k].orderId))
  {
    k := FirstOrderError(orders, |orders|);
    forall j: nat | j < k
      ensures !Blank(orders[j].orderId) && OnMap(orders[j].pickup) && OnMap(orders[j].dropoff)
    {
      GoodOrder(orders, j);
    }
    NoOrderError(orders, k);
    NoErrorDistinct(orders, k);
  }

  // ----- feasibility -----

  predicate LoadInBounds(stops: seq<Stop>, k: nat, capacity: real)
    requires k < |stops|
  {
    0.0 <= Load(stops, k + 1) <= capacity
  }

  predicate LoadsInBounds(stops: seq<Stop>, capacity: real) {
    forall k: nat :: k < |stops| ==> LoadInBounds(stops, k, capacity)
  }

  predicate PickedUpOnce(stops: seq<Stop>) {
    forall j, k :: 0 <= j < k < |stops| && stops[j].kind.Pickup? && stops[k].kind.Pickup? ==>
      stops[j].orderId != stops[k].orderId
  }

  predicate PickedUpFirst(stops: seq<Stop>) {
    forall k :: 0 <= k < |stops| && stops[k].kind.Dropoff? ==>
      exists j :: 0 <= j < k && stops[j].kind.Pickup? && stops[j].orderId == stops[k].orderId
  }

  /**
   * A route is feasible when nothing is picked up twice or dropped off first, every load is in bounds and none is left.
   */
  lemma FeasibleExactly(stops: seq<Stop>, capacity: real)
    ensures Feasible(stops, capacity) <==>
              && PickedUpOnce(stops) && PickedUpFirst(stops)
              && LoadsInBounds(stops, capacity) && Load(stops, |stops|) == 0.0
  {
    if Feasible(stops, capacity) {
      forall j, k | 0 <= j < k < |stops| && stops[j].kind.Pickup? && stops[k].kind.Pickup?
        ensures stops[j].orderId != stops[k].orderId
      {
        assert StopFits(stops, k, capacity);
      }
      forall k: nat | k < |stops|
        ensures LoadInBounds(stops, k, capacity)
        ensures stops[k].kind.Dropoff? ==> PickedBefore(stops, k, stops[k].orderId)
      {
        assert StopFits(stops, k, capacity);
      }
    }
    if PickedUpOnce(stops) && PickedUpFirst(stops) && LoadsInBounds(stops, capacity) {
      forall k: nat | k < |stops|
        ensures StopFits(stops, k, capacity)
      {
        assert LoadInBounds(stops, k, capacity);
      }
    }
  }

  // ----- what is reported -----

  /** The demand a vehicle of this capacity can take. */
  predicate Fits(o: Order, capacity: real) {
    Whole(o.demand) && 1.0 <= o.demand <= capacity
  }

  /**
   * Reported stop a is the pickup of o, at its pickup point, the later stop b its dropoff, at its dropoff point, both
   * with its demand; and no other reported stop is o's.
   */
  predicate ReportedAt(stops: seq<PlannedStop>, o: Order, a: nat, b: nat) {
    && a < b < |stops|
    && stops[a].stop == Stop(o.pickup, o.orderId, Pickup, o.demand)
    && stops[b].stop == Stop(o.dropoff, o.orderId, Dropoff, o.demand)
    && forall k :: 0 <= k < |stops| && stops[k].stop.orderId == o.orderId ==> k == a || k == b
  }

  ghost predicate Reported(stops: seq<PlannedStop>, o: Order) {
    exists a: nat, b: nat :: ReportedAt(stops, o, a, b)
  }

  lemma ReportedStop(d: Distance, input: PlanInput, routes: seq<seq<Stop>>, r: PlanResult, k: nat)
    requires Reports(d, input, routes, r) && k < |r.stops|
    ensures |routes[|routes| - 1]| == |r.stops| && r.stops[k].stop == routes[|routes| - 1][k]
    ensures r.stops[k].sequence == k + 1
  {
  }

  lemma ServedIsReported(d: Distance, input: PlanInput, routes: seq<seq<Stop>>, r: PlanResult, o: Order)
    requires Reports(d, input, routes, r) && |routes[|routes| - 1]| == |r.stops| && Served(routes[|routes| - 1], o)
    ensures Reported(r.stops, o)
  {
    var route := routes[|routes| - 1];
    var a: nat, b: nat :| ServedAt(route, o, a, b);
    forall k: nat | k < |r.stops|
      ensures r.stops[k].stop == route[k]
    {
      ReportedStop(d, input, routes, r, k);
    }
    assert ReportedAt(r.stops, o, a, b);
  }

  /**
   * Each order whose demand fits is picked up and later dropped off, once, at its own points and with its own demand;
   * the others are rejected; the stops are numbered from one, and there are no more than these.
   */
  lemma StopsReported(d: Distance, input: PlanInput, routes: seq<seq<Stop>>, r: PlanResult)
    requires Sensible(input) && Reports(d, input, routes, r)
    ensures forall o :: o in input.orders ==> (o.orderId in r.rejectedOrderIds <==> !Fits(o, input.vehicleCapacity))
    ensures forall o :: o in input.orders && Fits(o, input.vehicleCapacity) ==> Reported(r.stops, o)
    ensures |r.stops| == 2 * (|input.orders| - |r.rejectedOrderIds|)
    ensures forall k: nat :: k < |r.stops| ==> r.stops[k].sequence == k + 1
  {
    AcceptedInput(input);
    PlanServes(d, input, routes, r);
    var accepted := Accepted(input.orders, input.vehicleCapacity);
    AcceptedExactly(input.orders, input.vehicleCapacity);
    forall o | o in input.orders && Fits(o, input.vehicleCapacity)
      ensures Reported(r.stops, o)
    {
      assert o in accepted;
      var n :| 0 <= n < |accepted| && accepted[n] == o;
      assert Served(routes[|routes| - 1], accepted[n]);
      ServedIsReported(d, input, routes, r, o);
    }
  }

  /** The rejected ids are those of the orders that do not fit, in input order: `at` tells where each stands. */
  lemma {:induction false} RejectedInOrder(orders: seq<Order>, capacity: real) returns (at: seq<nat>)
    ensures |at| == |RejectedIds(orders, capacity)|
    ensures forall i :: 0 <= i < |at| ==>
              && at[i] < |orders| && !Fits(orders[at[i]], capacity)
              && RejectedIds(orders, capacity)[i] == orders[at[i]].orderId
    ensures forall i, j :: 0 <= i < j < |at| ==> at[i] < at[j]
  {
    if orders == [] {
      at := [];
    } else {
      var n := |orders| - 1;
      at := RejectedInOrder(orders[..n], capacity);
      if !DemandFits(orders[n], capacity) {
        at := at + [n];
      }
    }
  }

  /** The load after a stop is the load before it and the reported demand, up at a pickup and down at a dropoff. */
  lemma LoadsReported(d: Distance, input: PlanInput, routes: seq<seq<Stop>>, r: PlanResult, k: nat)
    requires Sensible(input) && Reports(d, input, routes, r) && k < |r.stops|
    ensures
      var before := if k == 0 then 0.0 else r.stops[k - 1].loadAfter;
      r.stops[k].loadAfter == match r.stops[k].stop.kind
                              case Pickup => before + r.stops[k].stop.demand
                              case Dropoff => before - r.stops[k].stop.demand
    ensures 0.0 <= r.stops[k].loadAfter <= input.vehicleCapacity
    ensures k == |r.stops| - 1 ==> r.stops[k].loadAfter == 0.0
  {
    AcceptedInput(input);
    PlanLoads(d, input, routes, r, k);
    ReportedStop(d, input, routes, r, k);
    ReportedLoad(d, input, routes, r, k);
    if k > 0 {
      ReportedLoad(d, input, routes, r, k - 1);
    }
  }

  /** Where the leg to a reported stop begins. */
  function Before(origin: Point, stops: seq<PlannedStop>, k: nat): Point
    requires k < |stops|
  {
    if k == 0 then origin else stops[k - 1].stop.point
  }

  /** Each leg is the distance from the reported stop before it, to the nearest metre. */
  lemma LegsReported(d: Distance, input: PlanInput, routes: seq<seq<Stop>>, r: PlanResult, k: nat)
    requires Reports(d, input, routes, r) && k < |r.stops|
    ensures -0.0005 <= r.stops[k].legDistanceKm - d(Before(input.origin, r.stops, k), r.stops[k].stop.point) <= 0.0005
  {
    ReportedStop(d, input, routes, r, k);
    if k > 0 {
      ReportedStop(d, input, routes, r, k - 1);
    }
    WithinHalfAMetre(d(Before(input.origin, r.stops, k), r.stops[k].stop.point));
  }

  lemma WithinHalfAMetre(x: real)
    ensures -0.0005 <= ToFixed(x, 1000) - x <= 0.0005
  {
    ToFixedError(x, 1000);
    assert Times(ToFixed(x, 1000) - x, 1000.0) == (ToFixed(x, 1000) - x) * 1000.0;
  }

  // ----- the distances -----

  /** The length of the path along the first n reported stops. */
  function Travelled(d: Distance, origin: Point, stops: seq<PlannedStop>, n: nat): real
    requires n <= |stops|
  {
    if n == 0 then 0.0
    else Travelled(d, origin, stops, n - 1) + d(Before(origin, stops, n - 1), stops[n - 1].stop.point)
  }

  lemma {:induction false} TravelledLength(d: Distance, origin: Point, stops: seq<PlannedStop>, route: seq<Stop>,
                                           n: nat)
    requires n <= |stops| == |route| && forall k :: 0 <= k < |stops| ==> stops[k].stop == route[k]
    ensures Travelled(d, origin, stops, n) == Length(d, origin, route[..n])
  {
    if n > 0 {
      TravelledLength(d, origin, stops, route, n - 1);
      LengthExtended(d, origin, route[..n]);
      assert route[..n][..n - 1] == route[..n - 1];
    }
  }

  /** The distance of serving the first n orders one after the other, each at once. */
  function OneByOne(d: Distance, origin: Point, orders: seq<Order>, n: nat): real
    requires n <= |orders|
  {
    if n == 0 then 0.0
    else
      OneByOne(d, origin, orders, n - 1)
      + d(if n == 1 then origin else orders[n - 2].dropoff, orders[n - 1].pickup)
      + d(orders[n - 1].pickup, orders[n - 1].dropoff)
  }

  lemma {:induction false} SequentialStops(orders: seq<Order>)
    ensures |Sequential(orders)| == 2 * |orders|
    ensures orders != [] ==> Sequential(orders)[|Sequential(orders)| - 1] == DropoffOf(orders[|orders| - 1])
  {
    if orders != [] {
      SequentialStops(orders[..|orders| - 1]);
    }
  }

  lemma PairLength(d: Distance, origin: Point, rest: seq<Stop>, o: Order)
    ensures
      var from := if rest == [] then origin else rest[|rest| - 1].point;
      Length(d, origin, rest + [PickupOf(o), DropoffOf(o)])
      == Length(d, origin, rest) + d(from, o.pickup) + d(o.pickup, o.dropoff)
  {
    var half, whole := rest + [PickupOf(o)], rest + [PickupOf(o), DropoffOf(o)];
    assert whole[..|whole| - 1] == half && half[..|half| - 1] == rest;
    LengthExtended(d, origin, half);
    LengthExtended(d, origin, whole);
  }

  /** The stops of one more order, at the end. */
  lemma SequentialNext(orders: seq<Order>, n: nat)
    requires 0 < n <= |orders|
    ensures Sequential(orders[..n]) == Sequential(orders[..n - 1]) + [PickupOf(orders[n - 1]), DropoffOf(orders[n - 1])]
    ensures
      var rest := Sequential(orders[..n - 1]);
      && (rest == [] <==> n == 1)
      && (n > 1 ==> rest[|rest| - 1].point == orders[n - 2].dropoff)
  {
    assert orders[..n][..n - 1] == orders[..n - 1];
    SequentialStops(orders[..n - 1]);
  }

  lemma {:induction false} OneByOneLength(d: Distance, origin: Point, orders: seq<Order>, n: nat)
    requires n <= |orders|
    ensures OneByOne(d, origin, orders, n) == Length(d, origin, Sequential(orders[..n]))
  {
    if n > 0 {
      OneByOneLength(d, origin, orders, n - 1);
      SequentialNext(orders, n);
      PairLength(d, origin, Sequential(orders[..n - 1]), orders[n - 1]);
    }
  }

  lemma ReportedLength(d: Distance, input: PlanInput, routes: seq<seq<Stop>>, r: PlanResult)
    requires Reports(d, input, routes, r)
    ensures Travelled(d, input.origin, r.stops, |r.stops|) == Length(d, input.origin, routes[|routes| - 1])
  {
    var route := routes[|routes| - 1];
    forall k: nat | k < |r.stops|
      ensures |r.stops| == |route| && r.stops[k].stop == route[k]
    {
      ReportedStop(d, input, routes, r, k);
    }
    TravelledLength(d, input.origin, r.stops, route, |r.stops|);
    assert route[..|route|] == route;
  }

  lemma SequentialLength(d: Distance, origin: Point, orders: seq<Order>)
    ensures OneByOne(d, origin, orders, |orders|) == Length(d, origin, Sequential(orders))
  {
    OneByOneLength(d, origin, orders, |orders|);
    assert orders[..|orders|] == orders;
  }

  /** The total is the length along the reported stops, the sequential distance that of the accepted orders in turn. */
  lemma DistancesReported(d: Distance, input: PlanInput, routes: seq<seq<Stop>>, r: PlanResult)
    requires Reports(d, input, routes, r)
    ensures -0.0005 <= r.totalDistanceKm - Travelled(d, input.origin, r.stops, |r.stops|) <= 0.0005
    ensures
      var accepted := Accepted(input.orders, input.vehicleCapacity);
      -0.0005 <= r.sequentialDistanceKm - OneByOne(d, input.origin, accepted, |accepted|) <= 0.0005
  {
    ReportedLength(d, input, routes, r);
    SequentialLength(d, input.origin, Accepted(input.orders, input.vehicleCapacity));
    WithinHalfAMetre(Length(d, input.origin, routes[|routes| - 1]));
    WithinHalfAMetre(Length(d, input.origin, Sequential(Accepted(input.orders, input.vehicleCapacity))));
  }

  /** The percentage of the sequential distance that the total does without, and nothing if it is no shorter. */
  predicate Saved(percentage: real, total: real, sequential: real) {
    if sequential > 0.0 && total <= sequential then Times(percentage, sequential) == 100.0 * (sequential - total)
    else percentage == 0.0
  }

  /** The reported savings are those of the reported stops over the accepted orders in turn, rounded. */
  lemma SavingsReported(d: Distance, input: PlanInput, routes: seq<seq<Stop>>, r: PlanResult) returns (exact: real)
    requires Reports(d, input, routes, r)
    ensures
      var accepted := Accepted(input.orders, input.vehicleCapacity);
      Saved(exact, Travelled(d, input.origin, r.stops, |r.stops|), OneByOne(d, input.origin, accepted, |accepted|))
    ensures -0.0005 <= r.estimatedDistanceSavingsPct - exact <= 0.0005
  {
    var total := Length(d, input.origin, routes[|routes| - 1]);
    var sequential := Length(d, input.origin, Sequential(Accepted(input.orders, input.vehicleCapacity)));
    exact := Savings(total, sequential);
    ReportedLength(d, input, routes, r);
    SequentialLength(d, input.origin, Accepted(input.orders, input.vehicleCapacity));
    SavingsMean(total, sequential);
    WithinHalfAMetre(exact);
  }

  lemma SavingsMean(total: real, sequential: real)
    ensures Saved(Savings(total, sequential), total, sequential)
  {
    if sequential > 0.0 {
      var share := total / sequential;
      assert share * sequential == total;
      assert total <= sequential ==> share <= 1.0;
      assert total > sequential ==> share > 1.0;
      assert Times((1.0 - share) * 100.0, sequential) == 100.0 * (sequential - total);
    }
  }

  // ----- where an order is inserted -----

  /**
   * An order is inserted, pickup before dropoff, where the feasible route is shortest, and of several such places at
   * the one with the smallest pickup index and then the smallest dropoff index.
   */
  lemma InsertedWhere(d: Distance, origin: Point, before: seq<Stop>, o: Order, capacity: real, after: seq<Stop>)
    requires Inserts(d, origin, before, o, capacity, after)
    ensures exists i: nat, j: nat ::
              && i < j <= |before| + 1 && after == InsertAt(InsertAt(before, i, PickupOf(o)), j, DropoffOf(o))
              && Feasible(after, capacity)
              && forall i': nat, j': nat {:trigger Candidate(before, o, i', j')} ::
                   i' < j' <= |before| + 1 && Feasible(Candidate(before, o, i', j'), capacity) ==>
                     var other := Length(d, origin, Candidate(before, o, i', j'));
                     || Length(d, origin, after) < other
                     || (Length(d, origin, after) == other && (i < i' || (i == i' && j <= j')))
  {
    var i: nat, j: nat :| FirstShortest(d, origin, before, o, capacity, i, j) && after == Candidate(before, o, i, j);
    forall i': nat, j': nat | i' < j' <= |before| + 1 && Feasible(Candidate(before, o, i', j'), capacity)
      ensures
        var other := Length(d, origin, Candidate(before, o, i', j'));
        || Length(d, origin, after) < other
        || (Length(d, origin, after) == other && (i < i' || (i == i' && j <= j')))
    {
      assert FeasiblePosition(before, o, capacity, i', j');
      assert Beats(d, origin, before, o, i, j, i', j');
    }
  }
}
