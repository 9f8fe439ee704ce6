/**
 * The tables of the three services and what handling one message, or one command from outside, does to them.
 * The invariant ties the rows of the three services and the messages between them together.
 */
module SagaTables {
  import opened Prelude
  import opened Messages
  import opened Drivers
  import opened Reservations
  import opened Dispatches
  import Orders

  datatype Tables = Tables(orders: Orders.OrderTable, db: DriverDb, dispatches: DispatchTable)

  const EMPTY_TABLES := Tables(map[], DriverDb(map[], map[]), map[])

  /** The tables a committed transaction leaves and the messages in its outbox. */
  datatype Change = Change(tables: Tables, out: seq<Message>)

  /** What the environment decides during a handler: new ids, the ranked candidates, the driver row locked. */
  datatype Choice = Choice(
    dispatchId: DispatchId, first: EventId, second: EventId, candidates: Option<seq<DriverId>>, pick: Option<DriverId>)

  predicate ChoiceAllowed(t: Tables, m: Message, c: Choice) {
    && (m.OrderReady? ==> c.dispatchId !in t.dispatches)
    && (m.ReservationRequested? ==> PickAllowed(t.db, m, c.pick))
  }

  function WithDispatches(t: Tables, w: Workflow): Change {
    Change(t.(dispatches := w.table), w.out)
  }

  /** One run of the consumer's handler for a message; nothing when it throws and is rolled back. */
  function Handled(t: Tables, m: Message, c: Choice): Option<Change>
    requires ChoiceAllowed(t, m, c)
  {
    match m
    case OrderReady(_, o) =>
      Some(WithDispatches(t, StartEffect(t.dispatches, o, c.dispatchId, c.candidates, c.first, c.second)))
    case DriverReserved(_, _, id, d) =>
      Some(WithDispatches(t, CompleteReservationEffect(t.dispatches, id, Some(d), None, c.first)))
    case ReservationFailed(_, _, id, why) =>
      Some(WithDispatches(t, CompleteReservationEffect(t.dispatches, id, None, Some(why), c.first)))
    case DriverReleased(_, _, id, _) => Some(WithDispatches(t, CompleteCompensationEffect(t.dispatches, id, c.first)))
    case ReservationRequested(_, _, _, _) => OnRequest(t, m, c.pick)
    case ReleaseRequested(_, _, _, _) =>
      Some(Change(t.(db := ReleaseEffect(t.db, m).db), [ReleaseEffect(t.db, m).reply]))
    case DispatchStarted(_, _, _) => OnOrder(t, m)
    case DispatchAssigned(_, _, _, _) => OnOrder(t, m)
    case DispatchFailed(_, _, _, _) => OnOrder(t, m)
    case DispatchCancelled(_, _, _) => OnOrder(t, m)
  }

  function OnRequest(t: Tables, m: Message, pick: Option<DriverId>): Option<Change>
    requires m.ReservationRequested? && PickAllowed(t.db, m, pick)
  {
    match ReserveEffect(t.db, m, pick)
    case Aborted => None
    case Committed(db, reply) => Some(Change(t.(db := db), [reply]))
  }

  function OnOrder(t: Tables, m: Message): Option<Change>
    requires Orders.ForOrders(m)
  {
    match Orders.OrdersAfter(t.orders, m)
    case Failure(_) => None
    case Success(orders) => Some(Change(t.(orders := orders), []))
  }

  /** Commands from customers, operators and the timeout job; a refused command changes nothing and is not listed. */
  datatype Command =
    | CreateOrder(orderId: OrderId, event: EventId)
    | CancelOrder(orderId: OrderId)
    | RegisterDriver(driverId: DriverId, capacity: int, now: int)
    | SwitchAvailability(driverId: DriverId, status: DriverStatus)
    | CancelDispatch(dispatchId: DispatchId, reason: FailureReason, event: EventId)
    | Timeout(dispatchId: DispatchId, event: EventId)

  predicate CommandAccepted(t: Tables, c: Command) {
    match c
    case CreateOrder(o, _) => o !in t.orders
    case CancelOrder(o) => o in t.orders && Orders.CancelledRow(t.orders[o]).Success?
    case RegisterDriver(d, capacity, _) => d !in t.db.drivers && capacity >= 1
    case SwitchAvailability(d, status) =>
      d in t.db.drivers && !status.Reserved? && SwitchedRow(t.db.drivers[d], status).Success?
    case CancelDispatch(id, _, _) =>
      id in t.dispatches && t.dispatches[id].status.Assigned? && t.dispatches[id].driverId.Some?
    case Timeout(id, _) => id in t.dispatches && t.dispatches[id].status.SearchingDriver?
  }

  function Commanded(t: Tables, c: Command): Change
    requires CommandAccepted(t, c)
  {
    match c
    case CreateOrder(o, e) => Change(t.(orders := t.orders[o := Orders.CREATED_ROW]), [OrderReady(e, o)])
    case CancelOrder(o) => Change(t.(orders := t.orders[o := Orders.CancelledRow(t.orders[o]).value]), [])
    case RegisterDriver(d, capacity, now) =>
      Change(t.(db := t.db.(drivers := t.db.drivers[d := DriverRow(capacity, [], Available, now)])), [])
    case SwitchAvailability(d, status) =>
      Change(t.(db := t.db.(drivers := t.db.drivers[d := SwitchedRow(t.db.drivers[d], status).value])), [])
    case CancelDispatch(id, reason, e) => WithDispatches(t, StartCompensationEffect(t.dispatches, id, reason, e).value)
    case Timeout(id, e) => WithDispatches(t, TimeoutEffect(t.dispatches, id, e))
  }

  // ----- the invariant -----

  predicate Known(t: Tables, id: DispatchId, o: OrderId) {
    id in t.dispatches && t.dispatches[id].orderId == o
  }

  /** The reservation row of an order, whatever its status, is for this dispatch and on this driver. */
  predicate ReservedFor(db: DriverDb, o: OrderId, id: DispatchId, d: DriverId) {
    o in db.reservations && db.reservations[o].dispatchId == id && db.reservations[o].driverId == d
  }

  predicate ReleasedIn(db: DriverDb, o: OrderId) {
    o in db.reservations && db.reservations[o].status.Released?
  }

  /** A dispatch that will not be, or is no longer, assigned. */
  predicate Ended(s: DispatchStatus) { s.Compensating? || s.Cancelled? || s.Failed? }

  /** What a message says is and stays true, from the moment it is sent. */
  predicate MessageOk(t: Tables, m: Message) {
    match m
    case OrderReady(_, o) => o in t.orders
    case DispatchStarted(_, o, id) => Known(t, id, o)
    case DispatchFailed(_, o, id, _) => Known(t, id, o)
    case ReservationRequested(_, o, id, _) => Known(t, id, o)
    case ReservationFailed(_, o, id, _) => Known(t, id, o)
    case DispatchAssigned(_, o, id, d) => Known(t, id, o) && t.dispatches[id].driverId == Some(d)
    case DispatchCancelled(_, o, id) => Known(t, id, o) && t.dispatches[id].status.Cancelled?
    case DriverReserved(_, o, id, d) => Known(t, id, o) && ReservedFor(t.db, o, id, d)
    case ReleaseRequested(_, o, id, d) =>
      Known(t, id, o) && ReservedFor(t.db, o, id, d) && Ended(t.dispatches[id].status)
    case DriverReleased(_, o, id, d) => Known(t, id, o) && ReservedFor(t.db, o, id, d) && ReleasedIn(t.db, o)
  }

  /** A reservation belongs to the order's dispatch and is released only for a dispatch that has ended. */
  predicate ReservationOk(t: Tables, o: OrderId)
    requires o in t.db.reservations
  {
    var r := t.db.reservations[o];
    Known(t, r.dispatchId, o) && (r.status.Released? ==> Ended(t.dispatches[r.dispatchId].status))
  }

  /**
   * A dispatch is for an existing order; with a driver it has its reservation there, released once the dispatch is
   * CANCELLED.
   */
  predicate DispatchOk(t: Tables, id: DispatchId)
    requires id in t.dispatches
  {
    var r := t.dispatches[id];
    && r.orderId in t.orders
    && (r.driverId.Some? ==> ReservedFor(t.db, r.orderId, id, r.driverId.value))
    && (r.status.Cancelled? ==> ReleasedIn(t.db, r.orderId))
  }

  /**
   * An order with a driver has a reservation whose dispatch is assigned to that driver, and is CANCELLED only after it.
   */
  predicate OrderOk(t: Tables, o: OrderId)
    requires o in t.orders
  {
    var r := t.orders[o];
    && Orders.ValidOrder(r)
    && (r.driverId.Some? ==>
          && o in t.db.reservations
          && t.db.reservations[o].dispatchId in t.dispatches
          && t.dispatches[t.db.reservations[o].dispatchId].driverId == r.driverId
          && (r.status.Cancelled? ==> t.dispatches[t.db.reservations[o].dispatchId].status.Cancelled?))
  }

  ghost predicate TablesOk(t: Tables) {
    && Consistent(t.db)
    && ValidTable(t.dispatches)
    && (forall o :: o in t.db.reservations ==> ReservationOk(t, o))
    && (forall id :: id in t.dispatches ==> DispatchOk(t, id))
    && (forall o :: o in t.orders ==> OrderOk(t, o))
  }

  ghost predicate OrdersEvolve(a: Orders.OrderTable, b: Orders.OrderTable) {
    forall o :: o in a ==> o in b && Orders.OrderEvolves(a[o], b[o])
  }

  /** What no step undoes. */
  ghost predicate Progress(a: Tables, b: Tables) {
    Evolves(a.db, b.db) && TableEvolves(a.dispatches, b.dispatches) && OrdersEvolve(a.orders, b.orders)
  }

  lemma ProgressTransitive(a: Tables, b: Tables, c: Tables)
    requires Progress(a, b) && Progress(b, c)
    ensures Progress(a, c)
  {
    EvolvesTransitive(a.db, b.db, c.db);
  }

  /** What a message says stays true. */
  lemma MessageStable(a: Tables, b: Tables, m: Message)
    requires Progress(a, b) && MessageOk(a, m)
    ensures MessageOk(b, m)
  {
  }

  // ----- one table changes at a time -----

  lemma DbChange(t: Tables, db: DriverDb)
    requires TablesOk(t) && Consistent(db) && Evolves(t.db, db)
    requires forall o :: o in db.reservations ==> ReservationOk(t.(db := db), o)
    ensures TablesOk(t.(db := db)) && Progress(t, t.(db := db))
  {
    var t' := t.(db := db);
    forall id | id in t.dispatches
      ensures DispatchOk(t', id)
    {
      assert DispatchOk(t, id);
    }
    forall o | o in t.orders
      ensures OrderOk(t', o)
    {
      assert OrderOk(t, o);
    }
  }

  lemma DispatchesChange(t: Tables, table: DispatchTable)
    requires TablesOk(t) && ValidTable(table) && TableEvolves(t.dispatches, table)
    requires forall id :: id in table ==> DispatchOk(t.(dispatches := table), id)
    ensures TablesOk(t.(dispatches := table)) && Progress(t, t.(dispatches := table))
  {
    var t' := t.(dispatches := table);
    forall o | o in t.db.reservations
      ensures ReservationOk(t', o)
    {
      assert ReservationOk(t, o);
    }
    forall o | o in t.orders
      ensures OrderOk(t', o)
    {
      assert OrderOk(t, o);
    }
  }

  lemma Unchanged(t: Tables)
    ensures Progress(t, t)
  {
  }

  /** One dispatch moves on. */
  lemma DispatchUpdated(t: Tables, id: DispatchId, row: DispatchRow)
    requires TablesOk(t) && id in t.dispatches && RowEvolves(t.dispatches[id], row) && ValidDispatch(row)
    requires DispatchOk(t.(dispatches := t.dispatches[id := row]), id)
    ensures TablesOk(t.(dispatches := t.dispatches[id := row]))
    ensures Progress(t, t.(dispatches := t.dispatches[id := row]))
  {
    var t' := t.(dispatches := t.dispatches[id := row]);
    UpdatedTable(t.dispatches, id, row);
    forall x | x in t'.dispatches
      ensures DispatchOk(t', x)
    {
      assert x != id ==> DispatchOk(t, x);
    }
    DispatchesChange(t, t'.dispatches);
  }

  lemma OrdersChange(t: Tables, o: OrderId, row: Orders.OrderRow)
    requires TablesOk(t)
    requires o in t.orders ==> Orders.OrderEvolves(t.orders[o], row)
    requires OrderOk(t.(orders := t.orders[o := row]), o)
    ensures TablesOk(t.(orders := t.orders[o := row])) && Progress(t, t.(orders := t.orders[o := row]))
  {
    var t' := t.(orders := t.orders[o := row]);
    forall p | p in t'.orders
      ensures OrderOk(t', p)
    {
      assert p != o ==> OrderOk(t, p);
    }
    forall p | p in t.db.reservations
      ensures ReservationOk(t', p)
    {
      assert ReservationOk(t, p);
    }
    forall id | id in t.dispatches
      ensures DispatchOk(t', id)
    {
      assert DispatchOk(t, id);
    }
  }

  // ----- every handler keeps the invariant -----

  /** The tables stay right, nothing is undone, and what is sent is true. */
  ghost predicate Sound(t: Tables, c: Change) {
    TablesOk(c.tables) && Progress(t, c.tables) && forall m :: m in c.out ==> MessageOk(c.tables, m)
  }

  lemma ReadyKeeps(t: Tables, m: Message, c: Choice)
    requires TablesOk(t) && m.OrderReady? && MessageOk(t, m) && ChoiceAllowed(t, m, c)
    ensures Sound(t, Handled(t, m, c).value)
  {
    var w := StartEffect(t.dispatches, m.orderId, c.dispatchId, c.candidates, c.first, c.second);
    StartKeeps(t.dispatches, m.orderId, c.dispatchId, c.candidates, c.first, c.second);
    forall id | id in w.table
      ensures DispatchOk(t.(dispatches := w.table), id)
    {
      assert id in t.dispatches ==> DispatchOk(t, id);
    }
    DispatchesChange(t, w.table);
  }

  lemma ResultTables(t: Tables, id: DispatchId, driver: Option<DriverId>, reason: Option<FailureReason>, e: EventId)
    requires TablesOk(t) && id in t.dispatches
    requires driver.Some? ==> ReservedFor(t.db, t.dispatches[id].orderId, id, driver.value)
    ensures var c := WithDispatches(t, CompleteReservationEffect(t.dispatches, id, driver, reason, e));
            TablesOk(c.tables) && Progress(t, c.tables)
  {
    var row := t.dispatches[id];
    assert DispatchOk(t, id);
    if row.status.SearchingDriver? {
      var why := if reason.Some? then reason.value else DriverReservationFailed;
      var after := if driver.Some? then AssignedRow(row, driver.value) else FailedRow(row, why);
      RowSteps(row, if driver.Some? then driver.value else 0, why);
      DispatchUpdated(t, id, after);
    } else {
      Unchanged(t);
    }
  }

  lemma ResultMessages(t: Tables, id: DispatchId, driver: Option<DriverId>, reason: Option<FailureReason>, e: EventId)
    requires id in t.dispatches
    requires driver.Some? ==> ReservedFor(t.db, t.dispatches[id].orderId, id, driver.value)
    ensures var c := WithDispatches(t, CompleteReservationEffect(t.dispatches, id, driver, reason, e));
            forall m :: m in c.out ==> MessageOk(c.tables, m)
  {
  }

  lemma ResultKeeps(t: Tables, id: DispatchId, driver: Option<DriverId>, reason: Option<FailureReason>, e: EventId)
    requires TablesOk(t) && id in t.dispatches
    requires driver.Some? ==> ReservedFor(t.db, t.dispatches[id].orderId, id, driver.value)
    ensures Sound(t, WithDispatches(t, CompleteReservationEffect(t.dispatches, id, driver, reason, e)))
  {
    ResultTables(t, id, driver, reason, e);
    ResultMessages(t, id, driver, reason, e);
  }

  lemma ReleasedTables(t: Tables, m: Message, e: EventId)
    requires TablesOk(t) && m.DriverReleased? && MessageOk(t, m)
    ensures var t' := t.(dispatches := CompleteCompensationEffect(t.dispatches, m.dispatchId, e).table);
            TablesOk(t') && Progress(t, t')
  {
    var row := t.dispatches[m.dispatchId];
    assert DispatchOk(t, m.dispatchId);
    if row.status.Compensating? {
      RowSteps(row, 0, AssignmentTimeout);
      DispatchUpdated(t, m.dispatchId, CompensatedRow(row));
    } else {
      Unchanged(t);
    }
  }

  lemma ReleasedKeeps(t: Tables, m: Message, e: EventId)
    requires TablesOk(t) && m.DriverReleased? && MessageOk(t, m)
    ensures Sound(t, WithDispatches(t, CompleteCompensationEffect(t.dispatches, m.dispatchId, e)))
  {
    ReleasedTables(t, m, e);
  }

  lemma CancelDispatchTables(t: Tables, id: DispatchId, reason: FailureReason, e: EventId)
    requires TablesOk(t) && CommandAccepted(t, CancelDispatch(id, reason, e))
    ensures TablesOk(Commanded(t, CancelDispatch(id, reason, e)).tables)
    ensures Progress(t, Commanded(t, CancelDispatch(id, reason, e)).tables)
  {
    var row := t.dispatches[id];
    assert DispatchOk(t, id);
    RowSteps(row, 0, reason);
    DispatchUpdated(t, id, CompensatingRow(row, reason).value);
  }

  lemma CancelDispatchKeeps(t: Tables, id: DispatchId, reason: FailureReason, e: EventId)
    requires TablesOk(t) && CommandAccepted(t, CancelDispatch(id, reason, e))
    ensures Sound(t, Commanded(t, CancelDispatch(id, reason, e)))
  {
    CancelDispatchTables(t, id, reason, e);
    assert DispatchOk(t, id);
  }

  lemma TimeoutKeeps(t: Tables, id: DispatchId, e: EventId)
    requires TablesOk(t) && CommandAccepted(t, Timeout(id, e))
    ensures Sound(t, Commanded(t, Timeout(id, e)))
  {
    var row := t.dispatches[id];
    assert DispatchOk(t, id);
    RowSteps(row, 0, AssignmentTimeout);
    DispatchUpdated(t, id, FailedRow(row, AssignmentTimeout));
  }

  lemma RequestTables(t: Tables, m: Message, pick: Option<DriverId>)
    requires TablesOk(t) && m.ReservationRequested? && MessageOk(t, m)
    requires PickAllowed(t.db, m, pick) && ReserveEffect(t.db, m, pick).Committed?
    ensures var t' := t.(db := ReserveEffect(t.db, m, pick).db); TablesOk(t') && Progress(t, t')
  {
    var db := ReserveEffect(t.db, m, pick).db;
    ReserveKeepsConsistent(t.db, m, pick);
    forall o | o in db.reservations
      ensures ReservationOk(t.(db := db), o)
    {
      assert o in t.db.reservations ==> ReservationOk(t, o);
    }
    DbChange(t, db);
  }

  lemma RequestReply(t: Tables, m: Message, pick: Option<DriverId>)
    requires m.ReservationRequested? && MessageOk(t, m) && ValidTable(t.dispatches)
    requires m.orderId in t.db.reservations ==> ReservationOk(t, m.orderId)
    requires PickAllowed(t.db, m, pick) && ReserveEffect(t.db, m, pick).Committed?
    ensures MessageOk(t.(db := ReserveEffect(t.db, m, pick).db), ReserveEffect(t.db, m, pick).reply)
  {
  }

  lemma RequestKeeps(t: Tables, m: Message, pick: Option<DriverId>)
    requires TablesOk(t) && m.ReservationRequested? && MessageOk(t, m)
    requires PickAllowed(t.db, m, pick) && OnRequest(t, m, pick).Some?
    ensures Sound(t, OnRequest(t, m, pick).value)
  {
    RequestTables(t, m, pick);
    RequestReply(t, m, pick);
  }

  lemma ReleaseTables(t: Tables, m: Message)
    requires TablesOk(t) && m.ReleaseRequested? && MessageOk(t, m)
    ensures var t' := t.(db := ReleaseEffect(t.db, m).db); TablesOk(t') && Progress(t, t')
  {
    var db := ReleaseEffect(t.db, m).db;
    ReleaseKeepsConsistent(t.db, m);
    forall o | o in db.reservations
      ensures ReservationOk(t.(db := db), o)
    {
      assert ReservationOk(t, o);
    }
    DbChange(t, db);
  }

  lemma ReleaseReply(t: Tables, m: Message)
    requires m.ReleaseRequested? && MessageOk(t, m)
    ensures MessageOk(t.(db := ReleaseEffect(t.db, m).db), ReleaseEffect(t.db, m).reply)
  {
  }

  lemma ReleaseKeeps(t: Tables, m: Message)
    requires TablesOk(t) && m.ReleaseRequested? && MessageOk(t, m)
    ensures Sound(t, Change(t.(db := ReleaseEffect(t.db, m).db), [ReleaseEffect(t.db, m).reply]))
  {
    ReleaseTables(t, m);
    ReleaseReply(t, m);
  }

  lemma OrderEventKeeps(t: Tables, m: Message)
    requires TablesOk(t) && Orders.ForOrders(m) && MessageOk(t, m) && OnOrder(t, m).Some?
    ensures Sound(t, OnOrder(t, m).value)
  {
    var o := m.orderId;
    if o in t.orders {
      var row := Orders.RowAfter(t.orders[o], m).value;
      assert OrderOk(t, o) && DispatchOk(t, m.dispatchId);
      Orders.RowAfterKeeps(t.orders[o], m);
      assert OrderOk(t.(orders := t.orders[o := row]), o);
      OrdersChange(t, o, row);
    }
  }

  lemma HandledKeeps(t: Tables, m: Message, c: Choice)
    requires TablesOk(t) && MessageOk(t, m) && ChoiceAllowed(t, m, c) && Handled(t, m, c).Some?
    ensures Sound(t, Handled(t, m, c).value)
  {
    match m
    case OrderReady(_, _) => ReadyKeeps(t, m, c);
    case DriverReserved(_, _, id, d) => ResultKeeps(t, id, Some(d), None, c.first);
    case ReservationFailed(_, _, id, why) => ResultKeeps(t, id, None, Some(why), c.first);
    case DriverReleased(_, _, _, _) => ReleasedKeeps(t, m, c.first);
    case ReservationRequested(_, _, _, _) => RequestKeeps(t, m, c.pick);
    case ReleaseRequested(_, _, _, _) => ReleaseKeeps(t, m);
    case DispatchStarted(_, _, _) => OrderEventKeeps(t, m);
    case DispatchAssigned(_, _, _, _) => OrderEventKeeps(t, m);
    case DispatchFailed(_, _, _, _) => OrderEventKeeps(t, m);
    case DispatchCancelled(_, _, _) => OrderEventKeeps(t, m);
  }

  lemma DriversChangeKeeps(t: Tables, drivers: map<DriverId, DriverRow>)
    requires TablesOk(t) && Consistent(t.db.(drivers := drivers)) && t.db.drivers.Keys <= drivers.Keys
    ensures Sound(t, Change(t.(db := t.db.(drivers := drivers)), []))
  {
    var db := t.db.(drivers := drivers);
    forall o | o in db.reservations
      ensures ReservationOk(t.(db := db), o)
    {
      assert ReservationOk(t, o);
    }
    DbChange(t, db);
  }

  lemma RegisterKeepsConsistent(db: DriverDb, d: DriverId, row: DriverRow)
    requires Consistent(db) && d !in db.drivers && ValidRow(row) && row.reservedOrderIds == []
    ensures Consistent(db.(drivers := db.drivers[d := row]))
  {
    var after := db.(drivers := db.drivers[d := row]);
    assert forall o :: ActiveOn(after, o) <==> ActiveOn(db, o);
  }

  /** A command on a driver does what it asks for, to that driver alone, and sends nothing. */
  lemma DriverCommanded(t: Tables, c: Command)
    requires TablesOk(t) && CommandAccepted(t, c) && (c.RegisterDriver? || c.SwitchAvailability?)
    ensures
      var after := Commanded(t, c);
      && after.out == [] && after.tables.orders == t.orders && after.tables.dispatches == t.dispatches
      && after.tables.db.reservations == t.db.reservations
      && after.tables.db.drivers.Keys == t.db.drivers.Keys + {c.driverId}
      && (forall d :: d in t.db.drivers && d != c.driverId ==> after.tables.db.drivers[d] == t.db.drivers[d])
      && after.tables.db.drivers[c.driverId].reservedOrderIds == []
      && (c.RegisterDriver? ==> after.tables.db.drivers[c.driverId] == DriverRow(c.capacity, [], Available, c.now))
      && (c.SwitchAvailability? ==>
            after.tables.db.drivers[c.driverId] == t.db.drivers[c.driverId].(status := c.status))
  {
  }

  lemma CommandedKeeps(t: Tables, c: Command)
    requires TablesOk(t) && CommandAccepted(t, c)
    ensures Sound(t, Commanded(t, c))
  {
    match c
    case CreateOrder(o, _) => OrdersChange(t, o, Orders.CREATED_ROW);
    case CancelOrder(o) =>
      var row := Orders.CancelledRow(t.orders[o]).value;
      assert OrderOk(t, o);
      Orders.CancelKeeps(t.orders[o]);
      OrdersChange(t, o, row);
    case RegisterDriver(d, capacity, now) =>
      var row := DriverRow(capacity, [], Available, now);
      RegisterKeepsConsistent(t.db, d, row);
      DriversChangeKeeps(t, t.db.drivers[d := row]);
    case SwitchAvailability(d, status) =>
      SwitchKeepsConsistent(t.db, d, status);
      DriversChangeKeeps(t, t.db.drivers[d := SwitchedRow(t.db.drivers[d], status).value]);
    case CancelDispatch(id, reason, e) => CancelDispatchKeeps(t, id, reason, e);
    case Timeout(id, e) => TimeoutKeeps(t, id, e);
  }
}
