/**
 * Pickup-and-delivery routes and what the paired-insertion heuristic promises
 * about them: meaning of a route, of a cheapest insertion and of a greedy run.
 */
module RoutePlan {
  datatype Point = Point(latitude: real, longitude: real)
  datatype StopType = Pickup | Dropoff
  datatype Order = Order(orderId: string, demand: real, pickup: Point, dropoff: Point)
  datatype Stop = Stop(point: Point, orderId: string, kind: StopType, demand: real)

  type Distance = (Point, Point) -> real

  /** What the bounds need of a distance; the planner itself needs nothing of it. */
  ghost predicate Metric(d: Distance) {
    && (forall a, b :: d(a, b) >= 0.0)
    && (forall a, b :: d(a, b) == d(b, a))
    && (forall a, b, c :: Triangle(d, a, b, c))
  }

  predicate Triangle(d: Distance, a: Point, b: Point, c: Point) {
    d(a, c) <= d(a, b) + d(b, c)
  }

  function PickupOf(o: Order): Stop { Stop(o.pickup, o.orderId, Pickup, o.demand) }

  function DropoffOf(o: Order): Stop { Stop(o.dropoff, o.orderId, Dropoff, o.demand) }

  function InsertAt<T>(s: seq<T>, i: nat, x: T): (r: seq<T>)
    requires i <= |s|
    ensures |r| == |s| + 1
    ensures r[i] == x
    ensures forall k :: 0 <= k < i ==> r[k] == s[k]
    ensures forall k :: i < k < |r| ==> r[k] == s[k - 1]
  {
    s[..i] + [x] + s[i..]
  }

  function RemoveAt<T>(s: seq<T>, i: nat): seq<T>
    requires i < |s|
  {
    s[..i] + s[i + 1..]
  }

  // ----- length and load -----

  /** Length of the open path that starts at `from` and visits the stops in order. */
  function Length(d: Distance, from: Point, stops: seq<Stop>): real
    decreases |stops|
  {
    if stops == [] then 0.0
    else d(from, stops[0].point) + Length(d, stops[0].point, stops[1..])
  }

  function Delta(stop: Stop): real {
    if stop.kind.Pickup? then stop.demand else -stop.demand
  }

  /** Load on board after the first k stops. */
  function Load(stops: seq<Stop>, k: nat): real
    requires k <= |stops|
  {
    if k == 0 then 0.0 else Load(stops, k - 1) + Delta(stops[k - 1])
  }

  lemma {:induction false} LoadPrefix(a: seq<Stop>, b: seq<Stop>, k: nat)
    requires k <= |a|
    ensures Load(a + b, k) == Load(a, k)
  {
    if k > 0 {
      LoadPrefix(a, b, k - 1);
    }
  }

  lemma {:induction false} LoadConcat(a: seq<Stop>, b: seq<Stop>, k: nat)
    requires k <= |b|
    ensures Load(a + b, |a| + k) == Load(a, |a|) + Load(b, k)
  {
    if k == 0 {
      LoadPrefix(a, b, |a|);
    } else {
      LoadConcat(a, b, k - 1);
    }
  }

  // ----- feasibility -----

  /** Order `id` is picked up at one of the first k stops. */
  predicate PickedBefore(stops: seq<Stop>, k: nat, id: string)
    requires k <= |stops|
  {
    exists m :: 0 <= m < k && stops[m].kind.Pickup? && stops[m].orderId == id
  }

  /** Stop k keeps precedence, picks nothing up twice and leaves the load within capacity. */
  predicate StopFits(stops: seq<Stop>, k: nat, capacity: real)
    requires k < |stops|
  {
    && (stops[k].kind.Pickup? <==> !PickedBefore(stops, k, stops[k].orderId))
    && 0.0 <= Load(stops, k + 1) <= capacity
  }

  ghost predicate Feasible(stops: seq<Stop>, capacity: real) {
    && (forall k :: 0 <= k < |stops| ==> StopFits(stops, k, capacity))
    && Load(stops, |stops|) == 0.0
  }

  // ----- insertion of a pair -----

  /** The route with the order's pickup inserted at i and then its dropoff at j. */
  function Candidate(route: seq<Stop>, o: Order, i: nat, j: nat): (r: seq<Stop>)
    requires i < j <= |route| + 1
    ensures |r| == |route| + 2 && r[i] == PickupOf(o) && r[j] == DropoffOf(o)
  {
    InsertAt(InsertAt(route, i, PickupOf(o)), j, DropoffOf(o))
  }

  predicate Position(route: seq<Stop>, i: nat, j: nat) {
    i < j <= |route| + 1
  }

  predicate Earlier(i: nat, j: nat, i': nat, j': nat) {
    i < i' || (i == i' && j < j')
  }

  ghost predicate FeasiblePosition(route: seq<Stop>, o: Order, capacity: real, i: nat, j: nat) {
    Position(route, i, j) && Feasible(Candidate(route, o, i, j), capacity)
  }

  /** (i, j) is a feasible position no longer than (i', j'), and the earlier of the two when equally long. */
  ghost predicate Beats(d: Distance, origin: Point, route: seq<Stop>, o: Order, i: nat, j: nat, i': nat, j': nat)
    requires Position(route, i, j) && Position(route, i', j')
  {
    var best := Length(d, origin, Candidate(route, o, i, j));
    var other := Length(d, origin, Candidate(route, o, i', j'));
    best < other || (best == other && !Earlier(i', j', i, j))
  }

  /** The first of the shortest feasible positions in index order. */
  ghost predicate FirstShortest(d: Distance, origin: Point, route: seq<Stop>, o: Order, capacity: real, i: nat,
                                j: nat) {
    && FeasiblePosition(route, o, capacity, i, j)
    && forall i': nat, j': nat :: FeasiblePosition(route, o, capacity, i', j') ==>
        Beats(d, origin, route, o, i, j, i', j')
  }

  /** Only one position can be the first of the shortest, so the choice is determined. */
  lemma FirstShortestUnique(d: Distance, origin: Point, route: seq<Stop>, o: Order, capacity: real,
                            i: nat, j: nat, i': nat, j': nat)
    requires FirstShortest(d, origin, route, o, capacity, i, j)
    requires FirstShortest(d, origin, route, o, capacity, i', j')
    ensures i == i' && j == j'
  {
    assert Beats(d, origin, route, o, i, j, i', j');
    assert Beats(d, origin, route, o, i', j', i, j);
  }

  /** Taking the inserted pair out again gives the old route back, so the old order of stops is kept. */
  lemma CandidateKeepsRoute(route: seq<Stop>, o: Order, i: nat, j: nat)
    requires Position(route, i, j)
    ensures RemoveAt(RemoveAt(Candidate(route, o, i, j), j), i) == route
  {
    var withPickup := InsertAt(route, i, PickupOf(o));
    assert RemoveAt(Candidate(route, o, i, j), j) == withPickup;
  }

  // ----- the orders a route serves -----

  /** Position a holds the pickup and the later position b the dropoff of o, and no other stop is o's. */
  predicate ServedAt(route: seq<Stop>, o: Order, a: nat, b: nat) {
    && a < b < |route|
    && route[a] == PickupOf(o) && route[b] == DropoffOf(o)
    && forall k :: 0 <= k < |route| && route[k].orderId == o.orderId ==> k == a || k == b
  }

  ghost predicate Served(route: seq<Stop>, o: Order) {
    exists a: nat, b: nat :: ServedAt(route, o, a, b)
  }

  predicate Has(orders: seq<Order>, id: string) {
    exists k :: 0 <= k < |orders| && orders[k].orderId == id
  }

  /** The route serves exactly these orders, each once, pickup first. */
  ghost predicate Serves(route: seq<Stop>, orders: seq<Order>) {
    && |route| == 2 * |orders|
    && (forall k {:trigger Served(route, orders[k])} :: 0 <= k < |orders| ==> Served(route, orders[k]))
    && (forall k {:trigger Has(orders, route[k].orderId)} :: 0 <= k < |route| ==> Has(orders, route[k].orderId))
  }

  function Shift(k: nat, i: nat): nat { if k < i then k else k + 1 }

  lemma InsertKeepsServed(route: seq<Stop>, i: nat, x: Stop, o: Order)
    requires i <= |route| && Served(route, o) && x.orderId != o.orderId
    ensures Served(InsertAt(route, i, x), o)
  {
    var a: nat, b: nat :| ServedAt(route, o, a, b);
    assert ServedAt(InsertAt(route, i, x), o, Shift(a, i), Shift(b, i));
  }

  lemma CandidateServesOld(route: seq<Stop>, prior: Order, o: Order, i: nat, j: nat)
    requires Served(route, prior) && prior.orderId != o.orderId && Position(route, i, j)
    ensures Served(Candidate(route, o, i, j), prior)
  {
    InsertKeepsServed(route, i, PickupOf(o), prior);
    InsertKeepsServed(InsertAt(route, i, PickupOf(o)), j, DropoffOf(o), prior);
  }

  lemma CandidateServesNew(route: seq<Stop>, o: Order, i: nat, j: nat)
    requires Position(route, i, j) && forall k :: 0 <= k < |route| ==> route[k].orderId != o.orderId
    ensures Served(Candidate(route, o, i, j), o)
  {
    var withPickup := InsertAt(route, i, PickupOf(o));
    assert forall m :: 0 <= m < |withPickup| && m != i ==> withPickup[m].orderId != o.orderId;
    assert ServedAt(Candidate(route, o, i, j), o, i, j);
  }

  lemma CandidateStop(route: seq<Stop>, orders: seq<Order>, o: Order, i: nat, j: nat, k: nat)
    requires Position(route, i, j) && k < |route| + 2 && Serves(route, orders)
    ensures Has(orders + [o], Candidate(route, o, i, j)[k].orderId)
  {
    var r, all := Candidate(route, o, i, j), orders + [o];
    if k == i || k == j {
      assert all[|orders|] == o;
    } else {
      var m := if k < j then k else k - 1;
      var l := if m < i then m else m - 1;
      assert r[k] == InsertAt(route, i, PickupOf(o))[m] == route[l];
      assert Has(orders, route[l].orderId);
      var n :| 0 <= n < |orders| && orders[n].orderId == route[l].orderId;
      assert all[n] == orders[n];
    }
  }

  /** Inserting a new order's pair makes the route serve that order too, and the old ones as before. */
  lemma CandidateServes(route: seq<Stop>, orders: seq<Order>, o: Order, i: nat, j: nat)
    requires Serves(route, orders) && !Has(orders, o.orderId) && Position(route, i, j)
    ensures Serves(Candidate(route, o, i, j), orders + [o])
  {
    var r, all := Candidate(route, o, i, j), orders + [o];
    forall k | 0 <= k < |all|
      ensures Served(r, all[k])
    {
      if k < |orders| {
        assert Served(route, orders[k]);
        CandidateServesOld(route, orders[k], o, i, j);
      } else {
        NewStops(route, orders, o);
        CandidateServesNew(route, o, i, j);
      }
    }
    forall k | 0 <= k < |r|
      ensures Has(all, r[k].orderId)
    {
      CandidateStop(route, orders, o, i, j, k);
    }
  }

  // ----- no needless rejection -----

  /** The condition `plan` checks before it looks for a position. */
  predicate DemandFits(o: Order, capacity: real) {
    o.demand == o.demand.Floor as real && 1.0 <= o.demand <= capacity
  }

  /** A stop that fits still fits when another order's whole trip is driven first. */
  lemma PairFirstFits(pair: seq<Stop>, route: seq<Stop>, k: nat, capacity: real)
    requires k < |route| && StopFits(route, k, capacity) && Load(pair, |pair|) == 0.0
    requires forall m :: 0 <= m < |pair| ==> pair[m].orderId != route[k].orderId
    ensures StopFits(pair + route, |pair| + k, capacity)
  {
    LoadConcat(pair, route, k + 1);
    PickedShift(pair, route, k, route[k].orderId);
  }

  lemma PairFits(route: seq<Stop>, o: Order, capacity: real)
    requires 0.0 <= o.demand <= capacity
    ensures Load([PickupOf(o), DropoffOf(o)], 2) == 0.0
    ensures StopFits([PickupOf(o), DropoffOf(o)] + route, 0, capacity)
    ensures StopFits([PickupOf(o), DropoffOf(o)] + route, 1, capacity)
  {
    var pair := [PickupOf(o), DropoffOf(o)];
    assert Load(pair, 2) == Load(pair, 1) + Delta(pair[1]);
    LoadPrefix(pair, route, 1);
    LoadPrefix(pair, route, 2);
    assert (pair + route)[0].kind.Pickup?;
  }

  /** Visiting a new order's two stops first is always feasible. */
  lemma FrontFeasible(route: seq<Stop>, o: Order, capacity: real)
    requires Feasible(route, capacity) && 0.0 <= o.demand <= capacity
    requires forall k :: 0 <= k < |route| ==> route[k].orderId != o.orderId
    ensures FeasiblePosition(route, o, capacity, 0, 1)
  {
    var pair := [PickupOf(o), DropoffOf(o)];
    PairFits(route, o, capacity);
    LoadConcat(pair, route, |route|);
    assert Candidate(route, o, 0, 1) == pair + route;
    forall k | 0 <= k < |pair + route|
      ensures StopFits(pair + route, k, capacity)
    {
      if k >= 2 {
        PairFirstFits(pair, route, k - 2, capacity);
      }
    }
  }

  lemma PickedShift(pair: seq<Stop>, route: seq<Stop>, k: nat, id: string)
    requires k <= |route| && forall m :: 0 <= m < |pair| ==> pair[m].orderId != id
    ensures PickedBefore(pair + route, |pair| + k, id) <==> PickedBefore(route, k, id)
  {
    if PickedBefore(route, k, id) {
      var m :| 0 <= m < k && route[m].kind.Pickup? && route[m].orderId == id;
      assert (pair + route)[|pair| + m] == route[m];
    }
    if PickedBefore(pair + route, |pair| + k, id) {
      var m :| 0 <= m < |pair| + k && (pair + route)[m].kind.Pickup? && (pair + route)[m].orderId == id;
      assert m >= |pair| && (pair + route)[m] == route[m - |pair|];
    }
  }

  // ----- greedy runs -----

  /** The orders `plan` can take, in input order. */
  function Accepted(orders: seq<Order>, capacity: real): seq<Order> {
    if orders == [] then []
    else
      var rest := Accepted(orders[..|orders| - 1], capacity);
      var last := orders[|orders| - 1];
      if DemandFits(last, capacity) then rest + [last] else rest
  }

  function RejectedIds(orders: seq<Order>, capacity: real): seq<string> {
    if orders == [] then []
    else
      var rest := RejectedIds(orders[..|orders| - 1], capacity);
      var last := orders[|orders| - 1];
      if DemandFits(last, capacity) then rest else rest + [last.orderId]
  }

  predicate DistinctIds(orders: seq<Order>) {
    forall a, b :: 0 <= a < b < |orders| ==> orders[a].orderId != orders[b].orderId
  }

  ghost predicate Inserts(d: Distance, origin: Point, before: seq<Stop>, o: Order, capacity: real, after: seq<Stop>) {
    exists i: nat, j: nat ::
      FirstShortest(d, origin, before, o, capacity, i, j) && after == Candidate(before, o, i, j)
  }

  /** routes[k] is the route after the first k accepted orders, each inserted where it is first shortest. */
  ghost predicate GreedyRun(d: Distance, origin: Point, capacity: real, orders: seq<Order>, routes: seq<seq<Stop>>) {
    && |routes| == |orders| + 1
    && routes[0] == []
    && forall k :: 0 <= k < |orders| ==> Inserts(d, origin, routes[k], orders[k], capacity, routes[k + 1])
  }

  /** Exactly the input orders whose demand fits are accepted, and no order is counted twice or dropped. */
  lemma {:induction false} AcceptedExactly(orders: seq<Order>, capacity: real)
    ensures forall o :: o in Accepted(orders, capacity) <==> o in orders && DemandFits(o, capacity)
    ensures |Accepted(orders, capacity)| + |RejectedIds(orders, capacity)| == |orders|
  {
    if orders != [] {
      AcceptedExactly(orders[..|orders| - 1], capacity);
      assert orders == orders[..|orders| - 1] + [orders[|orders| - 1]];
    }
  }

  /** An order is rejected exactly when its demand is not an integer between 1 and the capacity. */
  lemma {:induction false} RejectedExactly(orders: seq<Order>, capacity: real, o: Order)
    requires o in orders && DistinctIds(orders)
    ensures o.orderId in RejectedIds(orders, capacity) <==> !DemandFits(o, capacity)
  {
    var rest, last := orders[..|orders| - 1], orders[|orders| - 1];
    assert orders == rest + [last];
    if o in rest {
      RejectedExactly(rest, capacity, o);
    } else {
      RejectedFromInput(rest, capacity, o.orderId);
    }
  }

  lemma {:induction false} RejectedFromInput(orders: seq<Order>, capacity: real, id: string)
    requires !Has(orders, id)
    ensures id !in RejectedIds(orders, capacity)
  {
    if orders != [] {
      assert orders[|orders| - 1].orderId != id;
      RejectedFromInput(orders[..|orders| - 1], capacity, id);
    }
  }

  lemma {:induction false} AcceptedDistinct(orders: seq<Order>, capacity: real)
    requires DistinctIds(orders)
    ensures DistinctIds(Accepted(orders, capacity))
  {
    if orders != [] {
      var rest, last := orders[..|orders| - 1], orders[|orders| - 1];
      AcceptedDistinct(rest, capacity);
      AcceptedExactly(rest, capacity);
      var acc := Accepted(rest, capacity);
      forall a | 0 <= a < |acc|
        ensures acc[a].orderId != last.orderId
      {
        assert acc[a] in rest;
      }
    }
  }

  lemma InsertsServes(d: Distance, origin: Point, before: seq<Stop>, orders: seq<Order>, o: Order, capacity: real,
                      after: seq<Stop>)
    requires Inserts(d, origin, before, o, capacity, after) && Serves(before, orders) && !Has(orders, o.orderId)
    ensures Serves(after, orders + [o]) && Feasible(after, capacity)
  {
    var i: nat, j: nat :| FirstShortest(d, origin, before, o, capacity, i, j) && after == Candidate(before, o, i, j);
    CandidateServes(before, orders, o, i, j);
  }

  lemma PrefixGrows(orders: seq<Order>, n: nat)
    requires 0 < n <= |orders| && DistinctIds(orders)
    ensures orders[..n] == orders[..n - 1] + [orders[n - 1]]
    ensures !Has(orders[..n - 1], orders[n - 1].orderId)
  {
  }

  lemma NewStops(route: seq<Stop>, orders: seq<Order>, o: Order)
    requires Serves(route, orders) && !Has(orders, o.orderId)
    ensures forall k :: 0 <= k < |route| ==> route[k].orderId != o.orderId
  {
    forall k | 0 <= k < |route|
      ensures route[k].orderId != o.orderId
    {
      assert Has(orders, route[k].orderId);
    }
  }

  /** Conservation over the whole loop: the final route serves exactly the accepted orders and is feasible. */
  lemma {:induction false} GreedyServes(d: Distance, origin: Point, capacity: real, orders: seq<Order>,
                                        routes: seq<seq<Stop>>, n: nat)
    requires GreedyRun(d, origin, capacity, orders, routes) && DistinctIds(orders)
    requires n <= |orders| && capacity >= 0.0
    ensures Serves(routes[n], orders[..n]) && Feasible(routes[n], capacity)
  {
    if n > 0 {
      GreedyServes(d, origin, capacity, orders, routes, n - 1);
      PrefixGrows(orders, n);
      assert Inserts(d, origin, routes[n - 1], orders[n - 1], capacity, routes[n]);
      InsertsServes(d, origin, routes[n - 1], orders[..n - 1], orders[n - 1], capacity, routes[n]);
    }
  }

  // ----- distance bounds -----

  /** From the origin to the pickup and on to the dropoff. */
  function Trip(d: Distance, origin: Point, o: Order): real {
    d(origin, o.pickup) + d(o.pickup, o.dropoff)
  }

  function TripSum(d: Distance, origin: Point, orders: seq<Order>): real {
    if orders == [] then 0.0
    else TripSum(d, origin, orders[..|orders| - 1]) + Trip(d, origin, orders[|orders| - 1])
  }

  /** A detour through one more stop never shortens a route. */
  lemma {:induction false} InsertNotShorter(d: Distance, from: Point, s: seq<Stop>, i: nat, x: Stop)
    requires Metric(d) && i <= |s|
    ensures Length(d, from, s) <= Length(d, from, InsertAt(s, i, x))
    decreases i
  {
    var r := InsertAt(s, i, x);
    if i == 0 {
      assert r[1..] == s;
      if s != [] {
        assert Triangle(d, from, x.point, s[0].point);
      }
    } else {
      assert r[1..] == InsertAt(s[1..], i - 1, x);
      InsertNotShorter(d, s[0].point, s[1..], i - 1, x);
    }
  }

  /** Reaching a stop along the route is no shorter than going there directly. */
  lemma {:induction false} ReachBound(d: Distance, from: Point, s: seq<Stop>, j: nat)
    requires Metric(d) && j < |s|
    ensures d(from, s[j].point) <= Length(d, from, s)
    decreases j
  {
    LengthNonNegative(d, s[0].point, s[1..]);
    if j > 0 {
      ReachBound(d, s[0].point, s[1..], j - 1);
      assert Triangle(d, from, s[0].point, s[j].point);
    }
  }

  lemma {:induction false} LengthNonNegative(d: Distance, from: Point, s: seq<Stop>)
    requires Metric(d)
    ensures Length(d, from, s) >= 0.0
    decreases |s|
  {
    if s != [] {
      LengthNonNegative(d, s[0].point, s[1..]);
    }
  }

  lemma {:induction false} VisitBound(d: Distance, from: Point, s: seq<Stop>, a: nat, b: nat)
    requires Metric(d) && a < b < |s|
    ensures d(from, s[a].point) + d(s[a].point, s[b].point) <= Length(d, from, s)
    decreases a
  {
    if a == 0 {
      ReachBound(d, s[0].point, s[1..], b - 1);
    } else {
      VisitBound(d, s[0].point, s[1..], a - 1, b - 1);
      assert Triangle(d, from, s[0].point, s[a].point);
    }
  }

  /** Serving an order first, before the old route, adds at most twice its trip. */
  lemma FrontCost(d: Distance, origin: Point, route: seq<Stop>, o: Order)
    requires Metric(d)
    ensures Length(d, origin, Candidate(route, o, 0, 1)) <= Length(d, origin, route) + 2.0 * Trip(d, origin, o)
  {
    var r := Candidate(route, o, 0, 1);
    assert r[1..][1..] == route;
    assert Length(d, origin, r) == d(origin, o.pickup) + (d(o.pickup, o.dropoff) + Length(d, o.dropoff, route));
    if route != [] {
      var first := route[0].point;
      assert Triangle(d, o.dropoff, origin, first) && Triangle(d, o.dropoff, o.pickup, origin);
      assert d(o.dropoff, o.pickup) == d(o.pickup, o.dropoff) && d(o.pickup, origin) == d(origin, o.pickup);
    } else {
      assert d(origin, o.pickup) >= 0.0 && d(o.pickup, o.dropoff) >= 0.0;
    }
  }

  /** One step of the greedy run: the route gets no shorter, and longer by at most twice the order's trip. */
  lemma GreedyStepCost(d: Distance, origin: Point, capacity: real, orders: seq<Order>, routes: seq<seq<Stop>>, n: nat)
    requires Metric(d) && GreedyRun(d, origin, capacity, orders, routes) && DistinctIds(orders)
    requires n < |orders| && DemandFits(orders[n], capacity)
    ensures Length(d, origin, routes[n]) <= Length(d, origin, routes[n + 1])
    ensures Length(d, origin, routes[n + 1]) <= Length(d, origin, routes[n]) + 2.0 * Trip(d, origin, orders[n])
  {
    var o, route := orders[n], routes[n];
    assert Inserts(d, origin, route, o, capacity, routes[n + 1]);
    var i: nat, j: nat :| FirstShortest(d, origin, route, o, capacity, i, j)
      && routes[n + 1] == Candidate(route, o, i, j);
    InsertNotShorter(d, origin, route, i, PickupOf(o));
    InsertNotShorter(d, origin, InsertAt(route, i, PickupOf(o)), j, DropoffOf(o));
    GreedyServes(d, origin, capacity, orders, routes, n);
    NewStops(route, orders[..n], o);
    FrontFeasible(route, o, capacity);
    assert Beats(d, origin, route, o, i, j, 0, 1);
    FrontCost(d, origin, route, o);
  }

  lemma TripSumStep(d: Distance, origin: Point, orders: seq<Order>, n: nat)
    requires n < |orders|
    ensures TripSum(d, origin, orders[..n + 1]) == TripSum(d, origin, orders[..n]) + Trip(d, origin, orders[n])
  {
    assert orders[..n + 1][..n] == orders[..n];
  }

  /** A route that serves an order is at least as long as the order's trip. */
  lemma ServedBound(d: Distance, origin: Point, route: seq<Stop>, o: Order)
    requires Metric(d) && Served(route, o)
    ensures Trip(d, origin, o) <= Length(d, origin, route)
  {
    var a: nat, b: nat :| ServedAt(route, o, a, b);
    VisitBound(d, origin, route, a, b);
  }

  /** The greedy route is at most twice as long as all the trips together. */
  lemma {:induction false} GreedyUpperBound(d: Distance, origin: Point, capacity: real, orders: seq<Order>,
                                            routes: seq<seq<Stop>>, n: nat)
    requires Metric(d) && GreedyRun(d, origin, capacity, orders, routes) && DistinctIds(orders)
    requires n <= |orders| && forall k :: 0 <= k < |orders| ==> DemandFits(orders[k], capacity)
    ensures Length(d, origin, routes[n]) <= 2.0 * TripSum(d, origin, orders[..n])
  {
    if n > 0 {
      GreedyUpperBound(d, origin, capacity, orders, routes, n - 1);
      GreedyStepCost(d, origin, capacity, orders, routes, n - 1);
      TripSumStep(d, origin, orders, n - 1);
    }
  }

  /** The greedy route is at least as long as the longest trip. */
  lemma GreedyLowerBound(d: Distance, origin: Point, route: seq<Stop>, orders: seq<Order>)
    requires Metric(d) && Serves(route, orders)
    ensures forall k :: 0 <= k < |orders| ==> Trip(d, origin, orders[k]) <= Length(d, origin, route)
  {
    forall k | 0 <= k < |orders|
      ensures Trip(d, origin, orders[k]) <= Length(d, origin, route)
    {
      assert Served(route, orders[k]);
      ServedBound(d, origin, route, orders[k]);
    }
  }

  // ----- loads on board -----

  /** Demand of o while it is on board after the first k stops. */
  ghost function Aboard(route: seq<Stop>, k: nat, o: Order): real
    requires k <= |route|
  {
    if PickedBefore(route, k, o.orderId) && !DroppedBefore(route, k, o.orderId) then o.demand else 0.0
  }

  predicate DroppedBefore(stops: seq<Stop>, k: nat, id: string)
    requires k <= |stops|
  {
    exists m :: 0 <= m < k && stops[m].kind.Dropoff? && stops[m].orderId == id
  }

  ghost function AboardSum(route: seq<Stop>, k: nat, orders: seq<Order>): real
    requires k <= |route|
  {
    if orders == [] then 0.0
    else AboardSum(route, k, orders[..|orders| - 1]) + Aboard(route, k, orders[|orders| - 1])
  }

  lemma AboardStep(route: seq<Stop>, k: nat, o: Order)
    requires k < |route| && Served(route, o)
    ensures Aboard(route, k + 1, o)
            == Aboard(route, k, o) + if route[k].orderId == o.orderId then Delta(route[k]) else 0.0
  {
    var a: nat, b: nat :| ServedAt(route, o, a, b);
    assert PickedBefore(route, k, o.orderId) <==> a < k;
    assert PickedBefore(route, k + 1, o.orderId) <==> a < k + 1;
    assert DroppedBefore(route, k, o.orderId) <==> b < k;
    assert DroppedBefore(route, k + 1, o.orderId) <==> b < k + 1;
  }

  lemma {:induction false} AboardSumStep(route: seq<Stop>, k: nat, orders: seq<Order>)
    requires k < |route| && DistinctIds(orders)
    requires forall n {:trigger Served(route, orders[n])} :: 0 <= n < |orders| ==> Served(route, orders[n])
    ensures AboardSum(route, k + 1, orders) ==
            AboardSum(route, k, orders) + if Has(orders, route[k].orderId) then Delta(route[k]) else 0.0
  {
    if orders != [] {
      var rest, last := orders[..|orders| - 1], orders[|orders| - 1];
      AboardSumStep(route, k, rest);
      AboardStep(route, k, last);
      assert forall n :: 0 <= n < |rest| ==> rest[n] == orders[n];
      assert Has(orders, route[k].orderId) <==> Has(rest, route[k].orderId) || last.orderId == route[k].orderId;
    }
  }

  lemma {:induction false} AboardSumStart(route: seq<Stop>, orders: seq<Order>)
    ensures AboardSum(route, 0, orders) == 0.0
  {
    if orders != [] {
      AboardSumStart(route, orders[..|orders| - 1]);
    }
  }

  /** The running load is the total demand of the orders picked up and not yet dropped off. */
  lemma {:induction false} LoadIsAboard(route: seq<Stop>, orders: seq<Order>, k: nat)
    requires Serves(route, orders) && DistinctIds(orders) && k <= |route|
    ensures Load(route, k) == AboardSum(route, k, orders)
  {
    if k == 0 {
      AboardSumStart(route, orders);
    } else {
      LoadIsAboard(route, orders, k - 1);
      AboardSumStep(route, k - 1, orders);
      assert Has(orders, route[k - 1].orderId);
    }
  }
}
