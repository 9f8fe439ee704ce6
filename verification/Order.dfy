/** The order aggregate and the order service's handlers of dispatch events. */
module Orders {
  import opened Prelude
  import opened Messages

  datatype OrderStatus = PendingDispatch | Dispatching | Assigned | InTransit | Delivered | Cancelled

  datatype OrderRow = OrderRow(status: OrderStatus, driverId: Option<DriverId>, failureReason: Option<FailureReason>)

  datatype OrderError =
    | CannotAssign(from: OrderStatus)
    | CannotCompleteCancellation(from: OrderStatus)
    | CannotCancel(from: OrderStatus)

  datatype DomainEvent = OrderCreated | OrderCancelled

  type OrderTable = map<OrderId, OrderRow>

  const CREATED_ROW := OrderRow(PendingDispatch, None, None)

  function DispatchingRow(r: OrderRow): OrderRow {
    if r.status.PendingDispatch? then r.(status := Dispatching, failureReason := None) else r
  }

  function AssignedRow(r: OrderRow, d: DriverId): Result<OrderRow, OrderError> {
    if r.status.Assigned? && r.driverId == Some(d) then Success(r)
    else if !r.status.Dispatching? then Failure(CannotAssign(r.status))
    else Success(r.(driverId := Some(d), status := Assigned))
  }

  function DispatchFailedRow(r: OrderRow, reason: FailureReason): OrderRow {
    if r.status.Dispatching? then r.(status := PendingDispatch, failureReason := Some(reason)) else r
  }

  function CancelledAfterDispatchRow(r: OrderRow): Result<OrderRow, OrderError> {
    if r.status.Cancelled? then Success(r)
    else if !r.status.Assigned? && !r.status.Dispatching? then Failure(CannotCompleteCancellation(r.status))
    else Success(r.(status := Cancelled))
  }

  function CancelledRow(r: OrderRow): Result<OrderRow, OrderError> {
    if r.status.PendingDispatch? then Success(r.(status := Cancelled)) else Failure(CannotCancel(r.status))
  }

  class Order {
    var status: OrderStatus
    var driverId: Option<DriverId>
    var failureReason: Option<FailureReason>
    var domainEvents: seq<DomainEvent>

    ghost function View(): OrderRow
      reads this
    {
      OrderRow(status, driverId, failureReason)
    }

    constructor Create()
      ensures View() == CREATED_ROW && domainEvents == [OrderCreated]
    {
      status, driverId, failureReason := PendingDispatch, None, None;
      domainEvents := [OrderCreated];
    }

    constructor Rehydrate(row: OrderRow)
      ensures View() == row && domainEvents == []
    {
      status, driverId, failureReason := row.status, row.driverId, row.failureReason;
      domainEvents := [];
    }

    method ToRow() returns (row: OrderRow)
      ensures row == View()
    {
      row := OrderRow(status, driverId, failureReason);
    }

    method BeginDispatch()
      modifies this
      ensures View() == DispatchingRow(old(View())) && domainEvents == old(domainEvents)
    {
      if status != PendingDispatch { return; }
      status := Dispatching;
      failureReason := None;
    }

    method AssignDriver(d: DriverId) returns (error: Option<OrderError>)
      modifies this
      ensures AssignedRow(old(View()), d) == if error.Some? then Failure(error.value) else Success(View())
      ensures (error.Some? ==> View() == old(View())) && domainEvents == old(domainEvents)
    {
      if status == Assigned && driverId == Some(d) { return None; }
      if status != Dispatching { return Some(CannotAssign(status)); }
      driverId := Some(d);
      status := Assigned;
      error := None;
    }

    method DispatchFailed(reason: FailureReason)
      modifies this
      ensures View() == DispatchFailedRow(old(View()), reason) && domainEvents == old(domainEvents)
    {
      if status != Dispatching { return; }
      status := PendingDispatch;
      failureReason := Some(reason);
    }

    method CancelAfterDispatch() returns (error: Option<OrderError>)
      modifies this
      ensures CancelledAfterDispatchRow(old(View())) == if error.Some? then Failure(error.value) else Success(View())
      ensures (error.Some? ==> View() == old(View())) && domainEvents == old(domainEvents)
    {
      if status == Cancelled { return None; }
      if status != Assigned && status != Dispatching { return Some(CannotCompleteCancellation(status)); }
      status := Cancelled;
      error := None;
    }

    method Cancel() returns (error: Option<OrderError>)
      modifies this
      ensures CancelledRow(old(View())) == if error.Some? then Failure(error.value) else Success(View())
      ensures error.Some? ==> View() == old(View()) && domainEvents == old(domainEvents)
      ensures error.None? ==> domainEvents == old(domainEvents) + [OrderCancelled]
    {
      if status != PendingDispatch { return Some(CannotCancel(status)); }
      status := Cancelled;
      domainEvents := domainEvents + [OrderCancelled];
      error := None;
    }

    method PullDomainEvents() returns (events: seq<DomainEvent>)
      modifies this`domainEvents
      ensures events == old(domainEvents) && domainEvents == []
    {
      events := domainEvents;
      domainEvents := [];
    }
  }

  // ----- the handlers -----

  predicate ForOrders(m: Message) {
    m.DispatchStarted? || m.DispatchAssigned? || m.DispatchFailed? || m.DispatchCancelled?
  }

  /** The row a dispatch event makes of an order's row. */
  function RowAfter(r: OrderRow, m: Message): Result<OrderRow, OrderError>
    requires ForOrders(m)
  {
    if m.DispatchStarted? then Success(DispatchingRow(r))
    else if m.DispatchAssigned? then AssignedRow(r, m.driverId)
    else if m.DispatchFailed? then Success(DispatchFailedRow(r, m.reason))
    else CancelledAfterDispatchRow(r)
  }

  /** The orders after a dispatch event; an unknown order is ignored. */
  function OrdersAfter(orders: OrderTable, m: Message): Result<OrderTable, OrderError>
    requires ForOrders(m)
  {
    if m.orderId !in orders then Success(orders)
    else
      match RowAfter(orders[m.orderId], m)
      case Success(row) => Success(orders[m.orderId := row])
      case Failure(e) => Failure(e)
  }

  class OrderRepository {
    var orders: OrderTable

    constructor ()
      ensures orders == map[]
    {
      orders := map[];
    }

    /** Loads the order, lets the event act on it and saves it, unless the order refuses. */
    method On(m: Message) returns (error: Option<OrderError>)
      requires ForOrders(m)
      modifies this
      ensures match OrdersAfter(old(orders), m)
              case Success(after) => error == None && orders == after
              case Failure(e) => error == Some(e) && orders == old(orders)
    {
      if m.orderId !in orders { return None; }
      var order := new Order.Rehydrate(orders[m.orderId]);
      error := None;
      if m.DispatchStarted? {
        order.BeginDispatch();
      } else if m.DispatchAssigned? {
        error := order.AssignDriver(m.driverId);
      } else if m.DispatchFailed? {
        order.DispatchFailed(m.reason);
      } else {
        error := order.CancelAfterDispatch();
      }
      if error.Some? { return; }
      var row := order.ToRow();
      orders := orders[m.orderId := row];
    }
  }

  // ----- what no event undoes -----

  /** An assigned order has a driver, only assigned and cancelled orders have one, and none is under way yet. */
  predicate ValidOrder(r: OrderRow) {
    && !r.status.InTransit? && !r.status.Delivered?
    && (r.status.Assigned? ==> r.driverId.Some?)
    && (r.driverId.Some? ==> r.status.Assigned? || r.status.Cancelled?)
  }

  /** Dispatching has begun for the order, whatever became of it. */
  predicate Begun(r: OrderRow) { r.status.PendingDispatch? ==> r.failureReason.Some? }

  /**
   * CANCELLED is final, a driver once set stays, ASSIGNED is left only for CANCELLED, and a beginning is not undone.
   */
  predicate OrderEvolves(a: OrderRow, b: OrderRow) {
    && (a.status.Cancelled? ==> b == a)
    && (a.driverId.Some? ==> b.driverId == a.driverId)
    && (a.status.Assigned? ==> b.status.Assigned? || b.status.Cancelled?)
    && (Begun(a) ==> Begun(b))
  }

  /** What an order becomes on a dispatch event it accepts. */
  predicate Becomes(r: OrderRow, m: Message, after: OrderRow)
    requires ForOrders(m)
  {
    match m
    case DispatchStarted(_, _, _) =>
      after == if r.status.PendingDispatch? then OrderRow(Dispatching, r.driverId, None) else r
    case DispatchAssigned(_, _, _, d) =>
      after == if r.status.Dispatching? then OrderRow(Assigned, Some(d), r.failureReason) else r
    case DispatchFailed(_, _, _, why) =>
      after == if r.status.Dispatching? then OrderRow(PendingDispatch, r.driverId, Some(why)) else r
    case DispatchCancelled(_, _, _) => after == OrderRow(Cancelled, r.driverId, r.failureReason)
  }

  /**
   * Which events an order accepts, and what it becomes: the reports of a start and of a failure always; an
   * assignment while dispatching, or again for the same driver; a cancellation when dispatching, assigned or
   * cancelled. A refusal names the status it was refused in.
   */
  lemma RowAfterExactly(r: OrderRow, m: Message)
    requires ValidOrder(r) && ForOrders(m)
    ensures m.DispatchStarted? || m.DispatchFailed? ==> RowAfter(r, m).Success?
    ensures m.DispatchAssigned? ==>
              (RowAfter(r, m).Success? <==>
                 r.status.Dispatching? || (r.status.Assigned? && r.driverId == Some(m.driverId)))
    ensures m.DispatchCancelled? ==>
              (RowAfter(r, m).Success? <==> r.status.Dispatching? || r.status.Assigned? || r.status.Cancelled?)
    ensures RowAfter(r, m).Success? ==> Becomes(r, m, RowAfter(r, m).value)
    ensures RowAfter(r, m).Failure? ==>
              RowAfter(r, m).error
              == if m.DispatchAssigned? then CannotAssign(r.status) else CannotCompleteCancellation(r.status)
  {
  }

  lemma RowAfterKeeps(r: OrderRow, m: Message)
    requires ValidOrder(r) && ForOrders(m) && RowAfter(r, m).Success?
    ensures ValidOrder(RowAfter(r, m).value) && OrderEvolves(r, RowAfter(r, m).value)
  {
  }

  /** An order can be cancelled by hand exactly while it is pending. */
  lemma CancelExactly(r: OrderRow)
    ensures CancelledRow(r).Success? <==> r.status.PendingDispatch?
    ensures CancelledRow(r).Failure? ==> CancelledRow(r).error == CannotCancel(r.status)
  {
  }

  lemma CancelKeeps(r: OrderRow)
    requires ValidOrder(r) && CancelledRow(r).Success?
    ensures CancelledRow(r).value == OrderRow(Cancelled, None, r.failureReason)
    ensures ValidOrder(CancelledRow(r).value) && OrderEvolves(r, CancelledRow(r).value)
    ensures CancelledRow(r).value.driverId.None?
  {
  }

  /** A repeated event changes nothing more, and is accepted again: redelivery is harmless to a single order. */
  lemma RowAfterTwice(r: OrderRow, m: Message)
    requires ForOrders(m) && RowAfter(r, m).Success?
    ensures RowAfter(RowAfter(r, m).value, m) == RowAfter(r, m)
  {
  }
}
