/**
 * The paired-insertion planner: input checks, the double insertion loop, the
 * greedy loop over the orders and the planned stops it returns.
 */
module RoutePlanner {
  import opened Prelude
  import opened Decimals
  import opened RoutePlan

  datatype PlanInput = PlanInput(origin: Point, vehicleCapacity: real, orders: seq<Order>)

  datatype PlannedStop = PlannedStop(stop: Stop, sequence: nat, loadAfter: real, legDistanceKm: real)

  datatype PlanResult = PlanResult(
    totalDistanceKm: real,
    sequentialDistanceKm: real,
    estimatedDistanceSavingsPct: real,
    stops: seq<PlannedStop>,
    rejectedOrderIds: seq<string>)

  datatype PlanError =
    | LatitudeOutOfRange(point: string)
    | LongitudeOutOfRange(point: string)
    | CapacityNotPositiveInteger
    | OrderCountOutOfRange
    | OrderIdRequired
    | DuplicateOrderId(id: string)

  // ----- input checks -----

  function PointError(p: Point, name: string): Option<PlanError> {
    if p.latitude < -90.0 || p.latitude > 90.0 then Some(LatitudeOutOfRange(name))
    else if p.longitude < -180.0 || p.longitude > 180.0 then Some(LongitudeOutOfRange(name))
    else None
  }

  function OrderError(orders: seq<Order>, k: nat): Option<PlanError>
    requires k < |orders|
  {
    var o := orders[k];
    var pickupError := PointError(o.pickup, "pickup:" + o.orderId);
    if Blank(o.orderId) then Some(OrderIdRequired)
    else if Has(orders[..k], o.orderId) then Some(DuplicateOrderId(o.orderId))
    else if pickupError.Some? then pickupError
    else PointError(o.dropoff, "dropoff:" + o.orderId)
  }

  /** The error of the first of the first n orders that has one. */
  function OrdersError(orders: seq<Order>, n: nat): Option<PlanError>
    requires n <= |orders|
  {
    if n == 0 then None
    else
      var earlier := OrdersError(orders, n - 1);
      if earlier.Some? then earlier else OrderError(orders, n - 1)
  }

  function InputError(input: PlanInput): Option<PlanError> {
    var originError := PointError(input.origin, "origin");
    if originError.Some? then originError
    else if input.vehicleCapacity != input.vehicleCapacity.Floor as real || input.vehicleCapacity < 1.0
      then Some(CapacityNotPositiveInteger)
    else if |input.orders| < 1 || |input.orders| > 25 then Some(OrderCountOutOfRange)
    else OrdersError(input.orders, |input.orders|)
  }

  lemma {:induction false} NoErrorDistinct(orders: seq<Order>, n: nat)
    requires n <= |orders| && OrdersError(orders, n) == None
    ensures DistinctIds(orders[..n])
  {
    if n > 0 {
      NoErrorDistinct(orders, n - 1);
      assert forall a :: 0 <= a < n - 1 ==> orders[..n][a] == orders[..n - 1][a];
    }
  }

  lemma {:induction false} FirstErrorStays(orders: seq<Order>, k: nat, n: nat)
    requires k <= n <= |orders| && OrdersError(orders, k).Some?
    ensures OrdersError(orders, n) == OrdersError(orders, k)
  {
    if k < n {
      FirstErrorStays(orders, k, n - 1);
    }
  }

  method CheckOrders(orders: seq<Order>) returns (error: Option<PlanError>)
    ensures error == OrdersError(orders, |orders|)
  {
    var seenOrderIds: set<string> := {};
    for k := 0 to |orders|
      invariant forall id :: id in seenOrderIds <==> Has(orders[..k], id)
      invariant OrdersError(orders, k) == None
    {
      var order := orders[k];
      if OrderError(orders, k).Some? {
        FirstErrorStays(orders, k + 1, |orders|);
      }
      if Blank(order.orderId) { return Some(OrderIdRequired); }
      if order.orderId in seenOrderIds { return Some(DuplicateOrderId(order.orderId)); }
      seenOrderIds := seenOrderIds + {order.orderId};
      var pickupError := PointError(order.pickup, "pickup:" + order.orderId);
      if pickupError.Some? { return pickupError; }
      var dropoffError := PointError(order.dropoff, "dropoff:" + order.orderId);
      if dropoffError.Some? { return dropoffError; }
      HasExtended(orders, k);
    }
    error := None;
  }

  lemma HasExtended(orders: seq<Order>, k: nat)
    requires k < |orders|
    ensures forall id :: Has(orders[..k + 1], id) <==> Has(orders[..k], id) || orders[k].orderId == id
  {
    forall id
      ensures Has(orders[..k + 1], id) <==> Has(orders[..k], id) || orders[k].orderId == id
    {
      var before, after := orders[..k], orders[..k + 1];
      assert after[k] == orders[k];
      if Has(before, id) {
        var m :| 0 <= m < k && before[m].orderId == id;
        assert after[m].orderId == id;
      }
    }
  }

  // ----- one route -----

  method DistanceOf(d: Distance, origin: Point, stops: seq<Stop>) returns (total: real)
    ensures total == Length(d, origin, stops)
  {
    var previous := origin;
    total := 0.0;
    for k := 0 to |stops|
      invariant total + Length(d, previous, stops[k..]) == Length(d, origin, stops)
    {
      assert stops[k..][1..] == stops[k + 1..];
      total := total + d(previous, stops[k].point);
      previous := stops[k].point;
    }
  }

  method IsCapacityFeasible(stops: seq<Stop>, capacity: real) returns (feasible: bool)
    ensures feasible <==> Feasible(stops, capacity)
  {
    var load := 0.0;
    var picked: set<string> := {};
    for k := 0 to |stops|
      invariant load == Load(stops, k)
      invariant forall id :: id in picked <==> PickedBefore(stops, k, id)
      invariant forall m :: 0 <= m < k ==> StopFits(stops, m, capacity)
    {
      var stop := stops[k];
      assert stop.orderId in picked <==> PickedBefore(stops, k, stop.orderId);
      assert StopFits(stops, k, capacity) ==> (stop.kind.Pickup? <==> stop.orderId !in picked);
      if stop.kind.Pickup? {
        if stop.orderId in picked { return false; }
        picked := picked + {stop.orderId};
        load := load + stop.demand;
      } else {
        if stop.orderId !in picked { return false; }
        load := load - stop.demand;
      }
      PickedExtended(stops, k);
      assert StopFits(stops, k, capacity) <==> 0.0 <= load <= capacity;
      if load < 0.0 || load > capacity { return false; }
    }
    feasible := load == 0.0;
  }

  lemma PickedExtended(stops: seq<Stop>, k: nat)
    requires k < |stops|
    ensures forall id :: PickedBefore(stops, k + 1, id) <==>
              PickedBefore(stops, k, id) || (stops[k].kind.Pickup? && stops[k].orderId == id)
  {
    forall id | PickedBefore(stops, k, id) || (stops[k].kind.Pickup? && stops[k].orderId == id)
      ensures PickedBefore(stops, k + 1, id)
    {
      var m :| 0 <= m < k + 1 && stops[m].kind.Pickup? && stops[m].orderId == id;
    }
  }

  // ----- insertion -----

  /** Every feasible position before (i, j) in index order has been met, and (bi, bj) beats them all. */
  ghost predicate BestSoFar(d: Distance, origin: Point, route: seq<Stop>, o: Order, capacity: real,
                            i: nat, j: nat, best: Option<seq<Stop>>, bi: nat, bj: nat) {
    && (best.Some? ==> FeasiblePosition(route, o, capacity, bi, bj) && best.value == Candidate(route, o, bi, bj)
                       && Earlier(bi, bj, i, j))
    && forall i': nat, j': nat :: FeasiblePosition(route, o, capacity, i', j') && Earlier(i', j', i, j) ==>
        best.Some? && Beats(d, origin, route, o, bi, bj, i', j')
  }

  lemma BestSoFarRow(d: Distance, origin: Point, route: seq<Stop>, o: Order, capacity: real,
                     i: nat, best: Option<seq<Stop>>, bi: nat, bj: nat)
    requires i <= |route| && BestSoFar(d, origin, route, o, capacity, i, |route| + 2, best, bi, bj)
    ensures BestSoFar(d, origin, route, o, capacity, i + 1, i + 2, best, bi, bj)
  {
    forall i': nat, j': nat | FeasiblePosition(route, o, capacity, i', j') && Earlier(i', j', i + 1, i + 2)
      ensures best.Some? && Beats(d, origin, route, o, bi, bj, i', j')
    {
      assert Earlier(i', j', i, |route| + 2);
    }
  }

  /** The examined position (i, j) is not feasible or not shorter, so the best position stays. */
  lemma BestKept(d: Distance, origin: Point, route: seq<Stop>, o: Order, capacity: real,
                 i: nat, j: nat, best: Option<seq<Stop>>, bi: nat, bj: nat)
    requires Position(route, i, j) && BestSoFar(d, origin, route, o, capacity, i, j, best, bi, bj)
    requires FeasiblePosition(route, o, capacity, i, j) ==>
               best.Some? && Length(d, origin, best.value) <= Length(d, origin, Candidate(route, o, i, j))
    ensures BestSoFar(d, origin, route, o, capacity, i, j + 1, best, bi, bj)
  {
    forall i': nat, j': nat | FeasiblePosition(route, o, capacity, i', j') && Earlier(i', j', i, j + 1)
      ensures best.Some? && Beats(d, origin, route, o, bi, bj, i', j')
    {
      assert Earlier(i', j', i, j) || (i' == i && j' == j);
    }
  }

  /** The examined position (i, j) is feasible and shorter than every earlier one. */
  lemma BestReplaced(d: Distance, origin: Point, route: seq<Stop>, o: Order, capacity: real,
                     i: nat, j: nat, best: Option<seq<Stop>>, bi: nat, bj: nat)
    requires BestSoFar(d, origin, route, o, capacity, i, j, best, bi, bj)
    requires FeasiblePosition(route, o, capacity, i, j)
    requires best.Some? ==> Length(d, origin, Candidate(route, o, i, j)) < Length(d, origin, best.value)
    ensures BestSoFar(d, origin, route, o, capacity, i, j + 1, Some(Candidate(route, o, i, j)), i, j)
  {
    forall i': nat, j': nat | FeasiblePosition(route, o, capacity, i', j') && Earlier(i', j', i, j + 1)
      ensures Beats(d, origin, route, o, i, j, i', j')
    {
      if i' != i || j' != j {
        assert Earlier(i', j', i, j);
        assert Beats(d, origin, route, o, bi, bj, i', j');
      }
    }
  }

  /**
   * The first of the shortest feasible insertions of the order's pair, if any insertion is feasible.
   * Over the whole double loop exactly (n + 1)(n + 2) / 2 candidates are examined.
   */
  method BestInsertion(d: Distance, origin: Point, route: seq<Stop>, order: Order, capacity: real)
      returns (best: Option<seq<Stop>>, ghost examined: nat)
    ensures best.Some? ==> Inserts(d, origin, route, order, capacity, best.value)
    ensures best.None? ==> forall i: nat, j: nat :: !FeasiblePosition(route, order, capacity, i, j)
    ensures 2 * examined == (|route| + 1) * (|route| + 2)
  {
    best := None;
    examined := 0;
    var bestDistance := 0.0;
    ghost var bi: nat, bj: nat := 0, 0;
    var n := |route|;
    var pickupIndex := 0;
    while pickupIndex <= n
      invariant pickupIndex <= n + 1
      invariant BestSoFar(d, origin, route, order, capacity, pickupIndex, pickupIndex + 1, best, bi, bj)
      invariant best.Some? ==> bestDistance == Length(d, origin, best.value)
      invariant examined == RowsExamined(n, pickupIndex)
    {
      var withPickup := route[..pickupIndex] + [PickupOf(order)] + route[pickupIndex..];
      var dropoffIndex := pickupIndex + 1;
      while dropoffIndex <= n + 1
        invariant pickupIndex < dropoffIndex <= n + 2
        invariant BestSoFar(d, origin, route, order, capacity, pickupIndex, dropoffIndex, best, bi, bj)
        invariant best.Some? ==> bestDistance == Length(d, origin, best.value)
        invariant examined == RowsExamined(n, pickupIndex) + (dropoffIndex - pickupIndex - 1)
      {
        var candidate := withPickup[..dropoffIndex] + [DropoffOf(order)] + withPickup[dropoffIndex..];
        assert candidate == Candidate(route, order, pickupIndex, dropoffIndex);
        examined := examined + 1;
        var feasible := IsCapacityFeasible(candidate, capacity);
        if feasible {
          var distance := DistanceOf(d, origin, candidate);
          if best.None? || distance < bestDistance {
            BestReplaced(d, origin, route, order, capacity, pickupIndex, dropoffIndex, best, bi, bj);
            best := Some(candidate);
            bestDistance := distance;
            bi, bj := pickupIndex, dropoffIndex;
          } else {
            BestKept(d, origin, route, order, capacity, pickupIndex, dropoffIndex, best, bi, bj);
          }
        } else {
          BestKept(d, origin, route, order, capacity, pickupIndex, dropoffIndex, best, bi, bj);
        }
        dropoffIndex := dropoffIndex + 1;
      }
      BestSoFarRow(d, origin, route, order, capacity, pickupIndex, best, bi, bj);
      pickupIndex := pickupIndex + 1;
    }
    BestOfAll(d, origin, route, order, capacity, best, bi, bj);
    AllRowsExamined(n, n + 1);
  }

  /** The candidates of the first i pickup positions in a route of n stops. */
  function RowsExamined(n: nat, i: nat): nat
    requires i <= n + 1
  {
    if i == 0 then 0 else RowsExamined(n, i - 1) + (n + 2 - i)
  }

  lemma {:induction false} AllRowsExamined(n: nat, i: nat)
    requires i <= n + 1
    ensures 2 * RowsExamined(n, i) == i * (2 * n + 3 - i)
  {
    if i > 0 {
      AllRowsExamined(n, i - 1);
    }
  }

  lemma BestOfAll(d: Distance, origin: Point, route: seq<Stop>, o: Order, capacity: real,
                  best: Option<seq<Stop>>, bi: nat, bj: nat)
    requires BestSoFar(d, origin, route, o, capacity, |route| + 1, |route| + 2, best, bi, bj)
    ensures best.Some? ==> Inserts(d, origin, route, o, capacity, best.value)
    ensures best.None? ==> forall i: nat, j: nat :: !FeasiblePosition(route, o, capacity, i, j)
  {
    forall i: nat, j: nat | FeasiblePosition(route, o, capacity, i, j)
      ensures best.Some? && Beats(d, origin, route, o, bi, bj, i, j)
    {
      assert Earlier(i, j, |route| + 1, |route| + 2);
    }
    if best.Some? {
      assert FirstShortest(d, origin, route, o, capacity, bi, bj);
    }
  }

  // ----- the plan -----

  function LegFrom(origin: Point, route: seq<Stop>, k: nat): Point
    requires k < |route|
  {
    if k == 0 then origin else route[k - 1].point
  }

  /** Stop k of a route as the plan reports it. */
  function Planned(d: Distance, origin: Point, route: seq<Stop>, k: nat): PlannedStop
    requires k < |route|
  {
    PlannedStop(route[k], k + 1, Load(route, k + 1), ToFixed(d(LegFrom(origin, route, k), route[k].point), 1000))
  }

  method Materialize(d: Distance, origin: Point, route: seq<Stop>) returns (stops: seq<PlannedStop>)
    ensures |stops| == |route|
    ensures forall k :: 0 <= k < |stops| ==> stops[k] == Planned(d, origin, route, k)
  {
    var previous := origin;
    var load := 0.0;
    stops := [];
    for k := 0 to |route|
      invariant |stops| == k && load == Load(route, k)
      invariant previous == if k == 0 then origin else route[k - 1].point
      invariant forall m :: 0 <= m < k ==> stops[m] == Planned(d, origin, route, m)
    {
      var stop := route[k];
      load := load + if stop.kind.Pickup? then stop.demand else -stop.demand;
      var legDistanceKm := d(previous, stop.point);
      previous := stop.point;
      stops := stops + [PlannedStop(stop, k + 1, load, ToFixed(legDistanceKm, 1000))];
    }
  }

  /** The orders one after the other, each picked up and dropped off at once. */
  function Sequential(orders: seq<Order>): seq<Stop> {
    if orders == [] then []
    else Sequential(orders[..|orders| - 1]) + [PickupOf(orders[|orders| - 1]), DropoffOf(orders[|orders| - 1])]
  }

  function Savings(total: real, sequential: real): real {
    if sequential <= 0.0 then 0.0
    else
      var pct := (1.0 - total / sequential) * 100.0;
      if pct > 0.0 then pct else 0.0
  }

  /** The result reports a greedy run over the orders whose demand fits. */
  ghost predicate Reports(d: Distance, input: PlanInput, routes: seq<seq<Stop>>, r: PlanResult) {
    var accepted := Accepted(input.orders, input.vehicleCapacity);
    && GreedyRun(d, input.origin, input.vehicleCapacity, accepted, routes)
    && r.rejectedOrderIds == RejectedIds(input.orders, input.vehicleCapacity)
    && var route := routes[|accepted|];
      var total := Length(d, input.origin, route);
      var sequential := Length(d, input.origin, Sequential(accepted));
      && |r.stops| == |route|
      && (forall k :: 0 <= k < |route| ==> r.stops[k] == Planned(d, input.origin, route, k))
      && r.totalDistanceKm == ToFixed(total, 1000)
      && r.sequentialDistanceKm == ToFixed(sequential, 1000)
      && r.estimatedDistanceSavingsPct == ToFixed(Savings(total, sequential), 1000)
  }

  method Plan(d: Distance, input: PlanInput) returns (r: Result<PlanResult, PlanError>, ghost routes: seq<seq<Stop>>)
    ensures r.Failure? <==> InputError(input).Some?
    ensures r.Failure? ==> InputError(input) == Some(r.error)
    ensures r.Success? ==> Reports(d, input, routes, r.value)
  {
    routes := [];
    var originError := PointError(input.origin, "origin");
    if originError.Some? { return Failure(originError.value), routes; }
    var capacity := input.vehicleCapacity;
    if capacity != capacity.Floor as real || capacity < 1.0 { return Failure(CapacityNotPositiveInteger), routes; }
    if |input.orders| < 1 || |input.orders| > 25 { return Failure(OrderCountOutOfRange), routes; }
    var orderError := CheckOrders(input.orders);
    if orderError.Some? { return Failure(orderError.value), routes; }
    NoErrorDistinct(input.orders, |input.orders|);
    assert input.orders[..|input.orders|] == input.orders;

    var route: seq<Stop> := [];
    var accepted: seq<Order> := [];
    var rejectedOrderIds: seq<string> := [];
    routes := [[]];
    for k := 0 to |input.orders|
      invariant accepted == Accepted(input.orders[..k], capacity)
      invariant rejectedOrderIds == RejectedIds(input.orders[..k], capacity)
      invariant GreedyRun(d, input.origin, capacity, accepted, routes) && route == routes[|accepted|]
    {
      var order := input.orders[k];
      assert input.orders[..k + 1][..k] == input.orders[..k];
      if order.demand != order.demand.Floor as real || order.demand < 1.0 || order.demand > capacity {
        rejectedOrderIds := rejectedOrderIds + [order.orderId];
      } else {
        var best, examined := BestInsertion(d, input.origin, route, order, capacity);
        AlwaysInsertable(d, input.origin, capacity, input.orders, k, routes);
        if best.None? {
          assert false;
          rejectedOrderIds := rejectedOrderIds + [order.orderId];
        } else {
          ghost var before := routes;
          routes := routes + [best.value];
          GreedyExtended(d, input.origin, capacity, accepted, before, order, best.value);
          route := best.value;
          accepted := accepted + [order];
        }
      }
    }
    assert input.orders[..|input.orders|] == input.orders;

    var totalDistanceKm := DistanceOf(d, input.origin, route);
    var sequentialDistanceKm := DistanceOf(d, input.origin, Sequential(accepted));
    var stops := Materialize(d, input.origin, route);
    r := Success(PlanResult(
      ToFixed(totalDistanceKm, 1000), ToFixed(sequentialDistanceKm, 1000),
      ToFixed(Savings(totalDistanceKm, sequentialDistanceKm), 1000), stops, rejectedOrderIds));
  }

  lemma GreedyExtended(d: Distance, origin: Point, capacity: real, orders: seq<Order>, routes: seq<seq<Stop>>,
                       o: Order, route: seq<Stop>)
    requires GreedyRun(d, origin, capacity, orders, routes)
    requires Inserts(d, origin, routes[|orders|], o, capacity, route)
    ensures GreedyRun(d, origin, capacity, orders + [o], routes + [route])
  {
    var all, runs := orders + [o], routes + [route];
    forall k | 0 <= k < |all|
      ensures Inserts(d, origin, runs[k], all[k], capacity, runs[k + 1])
    {
      if k < |orders| {
        assert Inserts(d, origin, routes[k], orders[k], capacity, routes[k + 1]);
      }
    }
  }

  /** The planner never fails to place an order it tries to place. */
  lemma AlwaysInsertable(d: Distance, origin: Point, capacity: real, orders: seq<Order>, k: nat, routes: seq<seq<Stop>>)
    requires k < |orders| && DistinctIds(orders) && DemandFits(orders[k], capacity)
    requires GreedyRun(d, origin, capacity, Accepted(orders[..k], capacity), routes)
    ensures FeasiblePosition(routes[|routes| - 1], orders[k], capacity, 0, 1)
  {
    var accepted := Accepted(orders[..k], capacity);
    AcceptedDistinct(orders[..k], capacity);
    AcceptedExactly(orders[..k], capacity);
    GreedyServes(d, origin, capacity, accepted, routes, |accepted|);
    assert accepted[..|accepted|] == accepted;
    assert forall n :: 0 <= n < |accepted| ==> accepted[n] in orders[..k];
    NewStops(routes[|accepted|], accepted, orders[k]);
    FrontFeasible(routes[|accepted|], orders[k], capacity);
  }

  // ----- what a plan promises -----

  function LegSum(stops: seq<PlannedStop>): real {
    if stops == [] then 0.0 else LegSum(stops[..|stops| - 1]) + stops[|stops| - 1].legDistanceKm
  }

  lemma {:induction false} LengthExtended(d: Distance, from: Point, s: seq<Stop>)
    requires s != []
    ensures Length(d, from, s) == Length(d, from, s[..|s| - 1]) + d(LegFrom(from, s, |s| - 1), s[|s| - 1].point)
    decreases |s|
  {
    if |s| > 1 {
      LengthExtended(d, s[0].point, s[1..]);
      assert s[1..][..|s| - 2] == s[..|s| - 1][1..];
    }
  }

  /** Rounding each leg drifts from the exact length by at most half a metre a leg. */
  lemma {:induction false} LegDrift(d: Distance, origin: Point, route: seq<Stop>, stops: seq<PlannedStop>)
    requires |stops| == |route| && forall k :: 0 <= k < |route| ==> stops[k] == Planned(d, origin, route, k)
    ensures -0.0005 * |route| as real <= LegSum(stops) - Length(d, origin, route) <= 0.0005 * |route| as real
    decreases |route|
  {
    if route != [] {
      var n := |route| - 1;
      forall k | 0 <= k < n
        ensures stops[..n][k] == Planned(d, origin, route[..n], k)
      {
        LoadPrefix(route[..n], route[n..], k + 1);
        assert route[..n] + route[n..] == route;
      }
      LegDrift(d, origin, route[..n], stops[..n]);
      LengthExtended(d, origin, route);
      var leg := d(LegFrom(origin, route, n), route[n].point);
      ToFixedError(leg, 1000);
      assert Times(ToFixed(leg, 1000) - leg, 1000.0) == (ToFixed(leg, 1000) - leg) * 1000.0;
    }
  }

  /** The sum of the reported legs and the reported total differ by at most (n + 1) half metres. */
  lemma RoundingDrift(d: Distance, input: PlanInput, routes: seq<seq<Stop>>, r: PlanResult)
    requires Reports(d, input, routes, r)
    ensures -0.0005 * (|r.stops| + 1) as real <= LegSum(r.stops) - r.totalDistanceKm <= 0.0005 * (|r.stops| + 1) as real
  {
    var route := routes[|routes| - 1];
    LegDrift(d, input.origin, route, r.stops);
    var total := Length(d, input.origin, route);
    ToFixedError(total, 1000);
    assert Times(r.totalDistanceKm - total, 1000.0) == (r.totalDistanceKm - total) * 1000.0;
  }

  /** Estimated savings are a percentage. */
  lemma SavingsPercentage(d: Distance, input: PlanInput, routes: seq<seq<Stop>>, r: PlanResult)
    requires Reports(d, input, routes, r) && Metric(d)
    ensures 0.0 <= r.estimatedDistanceSavingsPct <= 100.0
  {
    var accepted := Accepted(input.orders, input.vehicleCapacity);
    var total := Length(d, input.origin, routes[|accepted|]);
    var sequential := Length(d, input.origin, Sequential(accepted));
    LengthNonNegative(d, input.origin, routes[|accepted|]);
    SavingsBounds(total, sequential);
    ToFixedMonotone(0.0, Savings(total, sequential), 1000);
    ToFixedMonotone(Savings(total, sequential), 100.0, 1000);
    RoundUpInteger(0, 1000);
    RoundUpInteger(100, 1000);
  }

  lemma SavingsBounds(total: real, sequential: real)
    requires total >= 0.0
    ensures 0.0 <= Savings(total, sequential) <= 100.0
  {
    if sequential > 0.0 {
      assert total / sequential >= 0.0;
    }
  }

  lemma PlannedOrders(d: Distance, input: PlanInput, routes: seq<seq<Stop>>, r: PlanResult)
    requires InputError(input) == None && Reports(d, input, routes, r)
    ensures DistinctIds(input.orders)
    ensures DistinctIds(Accepted(input.orders, input.vehicleCapacity))
    ensures forall o :: o in Accepted(input.orders, input.vehicleCapacity) ==> DemandFits(o, input.vehicleCapacity)
    ensures |Accepted(input.orders, input.vehicleCapacity)| + |r.rejectedOrderIds| == |input.orders|
  {
    NoErrorDistinct(input.orders, |input.orders|);
    assert input.orders[..|input.orders|] == input.orders;
    AcceptedDistinct(input.orders, input.vehicleCapacity);
    AcceptedExactly(input.orders, input.vehicleCapacity);
  }

  /**
   * The route serves exactly the orders whose demand fits, each with one pickup and one later
   * dropoff; the others, and only they, are rejected.
   */
  lemma PlanServes(d: Distance, input: PlanInput, routes: seq<seq<Stop>>, r: PlanResult)
    requires InputError(input) == None && Reports(d, input, routes, r)
    ensures Serves(routes[|routes| - 1], Accepted(input.orders, input.vehicleCapacity))
    ensures Feasible(routes[|routes| - 1], input.vehicleCapacity)
    ensures forall o :: o in input.orders ==>
              (o.orderId in r.rejectedOrderIds <==> !DemandFits(o, input.vehicleCapacity))
    ensures |routes[|routes| - 1]| == 2 * (|input.orders| - |r.rejectedOrderIds|)
  {
    PlannedOrders(d, input, routes, r);
    PlannedRoute(d, input, routes, r, routes[|routes| - 1], Accepted(input.orders, input.vehicleCapacity));
    forall o | o in input.orders
      ensures o.orderId in r.rejectedOrderIds <==> !DemandFits(o, input.vehicleCapacity)
    {
      RejectedExactly(input.orders, input.vehicleCapacity, o);
    }
  }

  /** What a plan reports at stop k is the load of its route there. */
  lemma ReportedLoad(d: Distance, input: PlanInput, routes: seq<seq<Stop>>, r: PlanResult, k: nat)
    requires Reports(d, input, routes, r) && k < |r.stops|
    ensures |routes[|routes| - 1]| == |r.stops| && r.stops[k].loadAfter == Load(routes[|routes| - 1], k + 1)
  {
  }

  lemma LoadBounds(route: seq<Stop>, k: nat, capacity: real)
    requires Feasible(route, capacity) && k < |route|
    ensures 0.0 <= Load(route, k + 1) <= capacity
    ensures k == |route| - 1 ==> Load(route, k + 1) == 0.0
  {
    assert StopFits(route, k, capacity);
  }

  /** Each reported load is the demand on board, never above the capacity, and zero at the end. */
  lemma PlanLoads(d: Distance, input: PlanInput, routes: seq<seq<Stop>>, r: PlanResult, k: nat)
    requires InputError(input) == None && Reports(d, input, routes, r) && k < |r.stops|
    ensures r.stops[k].loadAfter ==
            AboardSum(routes[|routes| - 1], k + 1, Accepted(input.orders, input.vehicleCapacity))
    ensures 0.0 <= r.stops[k].loadAfter <= input.vehicleCapacity
    ensures k == |r.stops| - 1 ==> r.stops[k].loadAfter == 0.0
  {
    var route, accepted := routes[|routes| - 1], Accepted(input.orders, input.vehicleCapacity);
    ReportedLoad(d, input, routes, r, k);
    PlannedRoute(d, input, routes, r, route, accepted);
    LoadBounds(route, k, input.vehicleCapacity);
    LoadIsAboard(route, accepted, k + 1);
  }

  /** The route of a plan serves its accepted orders, which are distinct, within the capacity. */
  lemma PlannedRoute(d: Distance, input: PlanInput, routes: seq<seq<Stop>>, r: PlanResult, route: seq<Stop>,
                     accepted: seq<Order>)
    requires InputError(input) == None && Reports(d, input, routes, r)
    requires route == routes[|routes| - 1] && accepted == Accepted(input.orders, input.vehicleCapacity)
    ensures Serves(route, accepted) && Feasible(route, input.vehicleCapacity) && DistinctIds(accepted)
  {
    PlannedOrders(d, input, routes, r);
    GreedyServes(d, input.origin, input.vehicleCapacity, accepted, routes, |accepted|);
    assert accepted[..|accepted|] == accepted;
  }

  /** The length of a greedy run's last route against the trips of its orders. */
  lemma GreedyBounds(d: Distance, origin: Point, capacity: real, accepted: seq<Order>, routes: seq<seq<Stop>>)
    requires GreedyRun(d, origin, capacity, accepted, routes) && DistinctIds(accepted) && Metric(d)
    requires Serves(routes[|accepted|], accepted) && forall o :: o in accepted ==> DemandFits(o, capacity)
    ensures Length(d, origin, routes[|accepted|]) <= 2.0 * TripSum(d, origin, accepted)
    ensures forall o :: o in accepted ==> Trip(d, origin, o) <= Length(d, origin, routes[|accepted|])
  {
    assert forall k :: 0 <= k < |accepted| ==> accepted[k] in accepted;
    GreedyUpperBound(d, origin, capacity, accepted, routes, |accepted|);
    assert accepted[..|accepted|] == accepted;
    GreedyLowerBound(d, origin, routes[|accepted|], accepted);
  }

  /** For a metric, the planned route lies between the longest trip and twice the sum of the trips. */
  lemma PlanBounds(d: Distance, input: PlanInput, routes: seq<seq<Stop>>, r: PlanResult)
    requires InputError(input) == None && Reports(d, input, routes, r) && Metric(d)
    ensures Length(d, input.origin, routes[|routes| - 1]) <=
            2.0 * TripSum(d, input.origin, Accepted(input.orders, input.vehicleCapacity))
    ensures forall o :: o in Accepted(input.orders, input.vehicleCapacity) ==>
              Trip(d, input.origin, o) <= Length(d, input.origin, routes[|routes| - 1])
  {
    var route, accepted := routes[|routes| - 1], Accepted(input.orders, input.vehicleCapacity);
    PlannedOrders(d, input, routes, r);
    PlannedRoute(d, input, routes, r, route, accepted);
    GreedyBounds(d, input.origin, input.vehicleCapacity, accepted, routes);
  }

  /** Inserting one more order never shortens the route. */
  lemma RouteNeverShrinks(d: Distance, input: PlanInput, routes: seq<seq<Stop>>, r: PlanResult, n: nat)
    requires InputError(input) == None && Reports(d, input, routes, r) && Metric(d)
    requires n + 1 < |routes|
    ensures Length(d, input.origin, routes[n]) <= Length(d, input.origin, routes[n + 1])
  {
    var accepted := Accepted(input.orders, input.vehicleCapacity);
    PlannedOrders(d, input, routes, r);
    assert accepted[n] in accepted;
    GreedyStepCost(d, input.origin, input.vehicleCapacity, accepted, routes, n);
  }
}
