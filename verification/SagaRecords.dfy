/**
 * What a run has decided and the tables and messages must still say: the candidates ranked when a dispatch was
 * started, why dispatches and orders failed, and that an order was told of the start before it got a driver.
 */
module SagaRecords {
  import opened Prelude
  import opened Messages
  import opened Reservations
  import opened Dispatches
  import Orders
  import opened SagaTables
  import opened Sagas
  import opened SagaDelivery

  /**
   * `rankings` holds the candidates ranked by the run that started each dispatch, `reasons` and `orderReasons` why
   * each dispatch and each order last failed; none of this is read off a row or a message being written.
   */
  datatype Record = Record(
    rankings: map<DispatchId, Option<seq<DriverId>>>,
    reasons: map<DispatchId, FailureReason>,
    orderReasons: map<OrderId, FailureReason>)

  const NOTHING := Record(map[], map[], map[])

  function Lookup<K, V>(m: map<K, V>, k: K): Option<V> {
    if k in m then Some(m[k]) else None
  }

  function CommandRecorded(r: Record, c: Command): Record {
    match c
    case Timeout(id, _) => r.(reasons := r.reasons[id := AssignmentTimeout])
    case CancelDispatch(id, reason, _) => r.(reasons := r.reasons[id := reason])
    case CreateOrder(_, _) => r
    case CancelOrder(_) => r
    case RegisterDriver(_, _, _) => r
    case SwitchAvailability(_, _) => r
  }

  function RunRecorded(r: Record, t: Tables, m: Message, c: Choice): Record {
    match m
    case OrderReady(_, o) =>
      if HasDispatch(t.dispatches, o) then r else r.(rankings := r.rankings[c.dispatchId := c.candidates])
    case ReservationFailed(_, _, id, why) =>
      if id in t.dispatches && t.dispatches[id].status.SearchingDriver? then r.(reasons := r.reasons[id := why]) else r
    case DispatchStarted(_, o, _) =>
      if o in t.orders && t.orders[o].status.PendingDispatch? then r.(orderReasons := r.orderReasons - {o}) else r
    case DispatchFailed(_, o, _, why) =>
      if o in t.orders && t.orders[o].status.Dispatching? then r.(orderReasons := r.orderReasons[o := why]) else r
    case DriverReserved(_, _, _, _) => r
    case DriverReleased(_, _, _, _) => r
    case ReservationRequested(_, _, _, _) => r
    case ReleaseRequested(_, _, _, _) => r
    case DispatchAssigned(_, _, _, _) => r
    case DispatchCancelled(_, _, _) => r
  }

  function StepRecorded(r: Record, s: State, step: Step): Record {
    if step.Execute? then CommandRecorded(r, step.command)
    else if step.Handle? && step.at < |s.pool| then RunRecorded(r, s.tables, s.pool[step.at], step.choice)
    else r
  }

  /** The record at the end of a run. */
  function Recorded(r: Record, s: State, steps: seq<Step>): Record
    requires Legal(s, steps)
    decreases |steps|
  {
    if steps == [] then r else Recorded(StepRecorded(r, s, steps[0]), Apply(s, steps[0]), steps[1..])
  }

  // ----- the invariant -----

  /** A request carries the ranking of its dispatch, and a refusal says whether that ranking was empty. */
  predicate MessageFaithful(r: Record, m: Message) {
    && (m.ReservationRequested? ==> Lookup(r.rankings, m.dispatchId) == Some(m.candidates))
    && (m.ReservationFailed? ==>
          && m.dispatchId in r.rankings
          && m.reason == if r.rankings[m.dispatchId] == Some([]) then NoGeoEligibleDriver else NoAvailableDriver)
  }

  /** A reserved driver is one of the candidates ranked for the dispatch, if any were. */
  predicate ReservationFaithful(r: Record, row: Reservation) {
    && row.dispatchId in r.rankings
    && (r.rankings[row.dispatchId].Some? ==> row.driverId in r.rankings[row.dispatchId].value)
  }

  ghost predicate RowsFaithful(r: Record, t: Tables) {
    && (forall o :: o in t.db.reservations ==> ReservationFaithful(r, t.db.reservations[o]))
    && (forall id :: id in t.dispatches ==> id in r.rankings && t.dispatches[id].failureReason == Lookup(r.reasons, id))
    && (forall o :: o in t.orders ==> t.orders[o].failureReason == Lookup(r.orderReasons, o))
    && r.rankings.Keys <= t.dispatches.Keys && r.reasons.Keys <= t.dispatches.Keys
      && r.orderReasons.Keys <= t.orders.Keys
  }

  ghost predicate MessagesFaithful(r: Record, sent: set<Message>) {
    forall m :: m in sent ==> MessageFaithful(r, m)
  }

  ghost predicate Faithful(r: Record, s: State) {
    RowsFaithful(r, s.tables) && MessagesFaithful(r, s.sent)
  }

  // ----- every step keeps it -----

  lemma DispatchCommandFaithful(r: Record, t: Tables, c: Command)
    requires RowsFaithful(r, t) && CommandAccepted(t, c) && (c.Timeout? || c.CancelDispatch?)
    ensures RowsFaithful(CommandRecorded(r, c), Commanded(t, c).tables)
  {
  }

  lemma OtherCommandFaithful(r: Record, t: Tables, c: Command)
    requires RowsFaithful(r, t) && CommandAccepted(t, c) && !c.Timeout? && !c.CancelDispatch?
    ensures RowsFaithful(r, Commanded(t, c).tables)
  {
  }

  lemma CommandFaithful(r: Record, t: Tables, c: Command)
    requires RowsFaithful(r, t) && CommandAccepted(t, c)
    ensures RowsFaithful(CommandRecorded(r, c), Commanded(t, c).tables)
    ensures CommandRecorded(r, c).rankings == r.rankings
    ensures forall m :: m in Commanded(t, c).out ==> !m.ReservationRequested? && !m.ReservationFailed?
  {
    if c.Timeout? || c.CancelDispatch? {
      DispatchCommandFaithful(r, t, c);
    } else {
      OtherCommandFaithful(r, t, c);
    }
  }

  lemma ReadyFaithful(r: Record, t: Tables, m: Message, c: Choice)
    requires RowsFaithful(r, t) && m.OrderReady? && ChoiceAllowed(t, m, c)
    ensures
      var after, r' := Handled(t, m, c).value, RunRecorded(r, t, m, c);
      && RowsFaithful(r', after.tables)
      && (forall x :: x in after.out ==> MessageFaithful(r', x))
      && (forall id :: id in r.rankings ==> id in r'.rankings && r'.rankings[id] == r.rankings[id])
  {
  }

  lemma RequestFaithful(r: Record, t: Tables, m: Message, pick: Option<DriverId>)
    requires RowsFaithful(r, t) && m.ReservationRequested? && MessageFaithful(r, m)
    requires PickAllowed(t.db, m, pick) && ReserveEffect(t.db, m, pick).Committed?
    ensures
      var effect := ReserveEffect(t.db, m, pick);
      RowsFaithful(r, t.(db := effect.db)) && MessageFaithful(r, effect.reply)
  {
  }

  lemma ResultFaithful(r: Record, t: Tables, m: Message, c: Choice)
    requires RowsFaithful(r, t) && (m.DriverReserved? || m.ReservationFailed? || m.DriverReleased?)
    ensures
      var after := Handled(t, m, c).value;
      && RowsFaithful(RunRecorded(r, t, m, c), after.tables)
      && forall x :: x in after.out ==> !x.ReservationRequested? && !x.ReservationFailed?
  {
  }

  lemma OrderFaithful(r: Record, t: Tables, m: Message)
    requires RowsFaithful(r, t) && Orders.ForOrders(m) && OnOrder(t, m).Some?
    ensures RowsFaithful(RunRecorded(r, t, m, Choice(0, 0, 0, None, None)), OnOrder(t, m).value.tables)
  {
  }

  lemma RunFaithful(r: Record, t: Tables, m: Message, c: Choice)
    requires RowsFaithful(r, t) && MessageFaithful(r, m) && ChoiceAllowed(t, m, c) && Handled(t, m, c).Some?
    ensures
      var after, r' := Handled(t, m, c).value, RunRecorded(r, t, m, c);
      && RowsFaithful(r', after.tables)
      && (forall x :: x in after.out ==> MessageFaithful(r', x))
      && (forall id :: id in r.rankings ==> id in r'.rankings && r'.rankings[id] == r.rankings[id])
  {
    if m.OrderReady? {
      ReadyFaithful(r, t, m, c);
    } else if m.ReservationRequested? {
      RequestFaithful(r, t, m, c.pick);
    } else if m.DriverReserved? || m.ReservationFailed? || m.DriverReleased? {
      ResultFaithful(r, t, m, c);
    } else if Orders.ForOrders(m) {
      OrderFaithful(r, t, m);
    } else {
      ReleaseFaithful(r, t, m);
    }
  }

  lemma ReleaseFaithful(r: Record, t: Tables, m: Message)
    requires RowsFaithful(r, t) && m.ReleaseRequested?
    ensures RowsFaithful(r, t.(db := ReleaseEffect(t.db, m).db))
  {
  }

  lemma SentFaithful(r: Record, r': Record, sent: set<Message>)
    requires MessagesFaithful(r, sent)
    requires forall id :: id in r.rankings ==> id in r'.rankings && r'.rankings[id] == r.rankings[id]
    ensures MessagesFaithful(r', sent)
  {
    forall m | m in sent
      ensures MessageFaithful(r', m)
    {
      assert MessageFaithful(r, m);
    }
  }

  lemma StepFaithful(r: Record, s: State, step: Step)
    requires Inv(s) && Faithful(r, s) && Enabled(s, step)
    ensures Faithful(StepRecorded(r, s, step), Apply(s, step))
  {
    var r' := StepRecorded(r, s, step);
    match step
    case Execute(c) =>
      CommandFaithful(r, s.tables, c);
      SentFaithful(r, r', s.sent);
    case Handle(i, c, _, _) =>
      RunFaithful(r, s.tables, s.pool[i], c);
      SentFaithful(r, r', s.sent);
    case Settle(_, _, _) =>
    case Fail(_, _) =>
    case Drop(_) =>
    case DeadLetter(_) =>
    case Redeliver(_) =>
  }

  lemma {:induction false} RunsFaithful(r: Record, s: State, steps: seq<Step>)
    requires Inv(s) && Faithful(r, s) && Legal(s, steps)
    ensures Faithful(Recorded(r, s, steps), Run(s, steps))
    decreases |steps|
  {
    if steps != [] {
      StepKeepsInv(s, steps[0]);
      StepFaithful(r, s, steps[0]);
      RunsFaithful(StepRecorded(r, s, steps[0]), Apply(s, steps[0]), steps[1..]);
    }
  }

  // ----- what follows for every run -----

  /** A reservation request carries the candidates ranked when its dispatch was started, in their order. */
  lemma RequestCarriesRanking(steps: seq<Step>, m: Message)
    requires Legal(INITIAL, steps) && m in Run(INITIAL, steps).sent && m.ReservationRequested?
    ensures Lookup(Recorded(NOTHING, INITIAL, steps).rankings, m.dispatchId) == Some(m.candidates)
  {
    InitialInv();
    RunsFaithful(NOTHING, INITIAL, steps);
    assert MessageFaithful(Recorded(NOTHING, INITIAL, steps), m);
  }

  /** A driver is reserved, and assigned, only if it was ranked for the dispatch, whenever a ranking was drawn. */
  lemma DriverWasRanked(steps: seq<Step>, id: DispatchId)
    requires Legal(INITIAL, steps) && id in Run(INITIAL, steps).tables.dispatches
    ensures
      var t := Run(INITIAL, steps).tables;
      var ranking := Lookup(Recorded(NOTHING, INITIAL, steps).rankings, id);
      var r := t.dispatches[id];
      && ranking.Some?
      && (ranking.value.Some? && r.driverId.Some? ==> r.driverId.value in ranking.value.value)
      && (ranking.value.Some? && r.orderId in t.db.reservations ==>
            t.db.reservations[r.orderId].driverId in ranking.value.value)
  {
    InitialInv();
    RunKeepsInv(INITIAL, steps);
    RunsFaithful(NOTHING, INITIAL, steps);
    var t := Run(INITIAL, steps).tables;
    var o := t.dispatches[id].orderId;
    assert DispatchOk(t, id);
    if o in t.db.reservations {
      assert ReservationOk(t, o) && ReservationFaithful(Recorded(NOTHING, INITIAL, steps), t.db.reservations[o]);
    }
  }

  /** The driver service refuses for want of a candidate exactly when the ranking was empty. */
  lemma RefusalReason(steps: seq<Step>, m: Message)
    requires Legal(INITIAL, steps) && m in Run(INITIAL, steps).sent && m.ReservationFailed?
    ensures
      var ranking := Lookup(Recorded(NOTHING, INITIAL, steps).rankings, m.dispatchId);
      m.reason == if ranking == Some(Some([])) then NoGeoEligibleDriver else NoAvailableDriver
  {
    InitialInv();
    RunsFaithful(NOTHING, INITIAL, steps);
    assert MessageFaithful(Recorded(NOTHING, INITIAL, steps), m);
  }

  /** A dispatch carries the reason for which it was last failed or cancelled, and none before. */
  lemma DispatchReason(steps: seq<Step>, id: DispatchId)
    requires Legal(INITIAL, steps) && id in Run(INITIAL, steps).tables.dispatches
    ensures Run(INITIAL, steps).tables.dispatches[id].failureReason
            == Lookup(Recorded(NOTHING, INITIAL, steps).reasons, id)
  {
    InitialInv();
    RunsFaithful(NOTHING, INITIAL, steps);
  }

  /**
   * An order carries the reason of the last failure reported while it was dispatching, until it is dispatched again.
   */
  lemma OrderReason(steps: seq<Step>, o: OrderId)
    requires Legal(INITIAL, steps) && o in Run(INITIAL, steps).tables.orders
    ensures Run(INITIAL, steps).tables.orders[o].failureReason
            == Lookup(Recorded(NOTHING, INITIAL, steps).orderReasons, o)
  {
    InitialInv();
    RunsFaithful(NOTHING, INITIAL, steps);
  }

  // ----- an order is told of the start first -----

  ghost predicate StartHandled(ran: set<Message>, o: OrderId) {
    exists m :: m in ran && m.DispatchStarted? && m.orderId == o
  }

  /** Only an order that has handled the start is dispatching or has a driver. */
  ghost predicate StartFirst(orders: Orders.OrderTable, ran: set<Message>) {
    forall o :: o in orders && (orders[o].driverId.Some? || orders[o].status.Dispatching?) ==> StartHandled(ran, o)
  }

  lemma HandledStartFirst(t: Tables, m: Message, c: Choice, ran: set<Message>)
    requires StartFirst(t.orders, ran) && ChoiceAllowed(t, m, c) && Handled(t, m, c).Some?
    ensures StartFirst(Handled(t, m, c).value.tables.orders, ran + {m})
  {
    var orders := Handled(t, m, c).value.tables.orders;
    forall o | o in orders && (orders[o].driverId.Some? || orders[o].status.Dispatching?)
      ensures StartHandled(ran + {m}, o)
    {
      if o in t.orders && (t.orders[o].driverId.Some? || t.orders[o].status.Dispatching?) {
        var x :| x in ran && x.DispatchStarted? && x.orderId == o;
        assert x in ran + {m};
      } else {
        assert m.DispatchStarted? && m.orderId == o && m in ran + {m};
      }
    }
  }

  lemma StepStartFirst(s: State, step: Step)
    requires Enabled(s, step) && StartFirst(s.tables.orders, s.ran)
    ensures StartFirst(Apply(s, step).tables.orders, Apply(s, step).ran)
  {
    match step
    case Execute(_) =>
    case Handle(i, c, _, _) => HandledStartFirst(s.tables, s.pool[i], c, s.ran);
    case Settle(i, _, _) => assert s.ran + {s.pool[i]} == s.ran;
    case Fail(_, _) =>
    case Drop(_) =>
    case DeadLetter(_) =>
    case Redeliver(_) =>
  }

  lemma {:induction false} RunStartFirst(s: State, steps: seq<Step>)
    requires StartFirst(s.tables.orders, s.ran) && Legal(s, steps)
    ensures StartFirst(Run(s, steps).tables.orders, Run(s, steps).ran)
    decreases |steps|
  {
    if steps != [] {
      StepStartFirst(s, steps[0]);
      RunStartFirst(Apply(s, steps[0]), steps[1..]);
    }
  }

  /** An order gets a driver only after the report of the start has been handled: an early assignment is refused. */
  lemma AssignedAfterStart(steps: seq<Step>, o: OrderId)
    requires Legal(INITIAL, steps) && o in Run(INITIAL, steps).tables.orders
    requires Run(INITIAL, steps).tables.orders[o].driverId.Some?
    ensures StartHandled(Run(INITIAL, steps).ran, o)
  {
    RunStartFirst(INITIAL, steps);
  }

  // ----- every order is dispatched -----

  ghost predicate ReadyTold(sent: set<Message>, o: OrderId) {
    exists m :: m in sent && m.OrderReady? && m.orderId == o
  }

  ghost predicate AllReadyTold(orders: Orders.OrderTable, sent: set<Message>) {
    forall o :: o in orders ==> ReadyTold(sent, o)
  }

  lemma TellingStays(orders: Orders.OrderTable, sent: set<Message>, sent': set<Message>)
    requires AllReadyTold(orders, sent) && sent <= sent'
    ensures AllReadyTold(orders, sent')
  {
    forall o | o in orders
      ensures ReadyTold(sent', o)
    {
      var m :| m in sent && m.OrderReady? && m.orderId == o;
      assert m in sent';
    }
  }

  lemma HandledOrders(t: Tables, m: Message, c: Choice)
    requires ChoiceAllowed(t, m, c) && Handled(t, m, c).Some?
    ensures Handled(t, m, c).value.tables.orders.Keys == t.orders.Keys
  {
  }

  lemma StepTells(s: State, step: Step)
    requires Enabled(s, step) && AllReadyTold(s.tables.orders, s.sent)
    ensures AllReadyTold(Apply(s, step).tables.orders, Apply(s, step).sent)
  {
    var s' := Apply(s, step);
    TellingStays(s.tables.orders, s.sent, s'.sent);
    match step
    case Execute(c) =>
      if c.CreateOrder? {
        assert OrderReady(c.event, c.orderId) in Commanded(s.tables, c).out;
        assert ReadyTold(s'.sent, c.orderId);
      }
    case Handle(i, c, _, _) => HandledOrders(s.tables, s.pool[i], c);
    case Settle(_, _, _) =>
    case Fail(_, _) =>
    case Drop(_) =>
    case DeadLetter(_) =>
    case Redeliver(_) =>
  }

  lemma {:induction false} RunTells(s: State, steps: seq<Step>)
    requires AllReadyTold(s.tables.orders, s.sent) && Legal(s, steps)
    ensures AllReadyTold(Run(s, steps).tables.orders, Run(s, steps).sent)
    decreases |steps|
  {
    if steps != [] {
      StepTells(s, steps[0]);
      RunTells(Apply(s, steps[0]), steps[1..]);
    }
  }

  /** With nothing left to deliver, every order that was ever created has its dispatch. */
  lemma EveryOrderIsDispatched(steps: seq<Step>, o: OrderId)
    requires Legal(INITIAL, steps) && Quiet(Run(INITIAL, steps)) && o in Run(INITIAL, steps).tables.orders
    ensures HasDispatch(Run(INITIAL, steps).tables.dispatches, o)
  {
    InitialDeliveryInv();
    RunKeepsDelivery(INITIAL, steps);
    RunTells(INITIAL, steps);
    var s := Run(INITIAL, steps);
    assert ReadyTold(s.sent, o);
    var m :| m in s.sent && m.OrderReady? && m.orderId == o;
    QuietEffected(s, m);
  }
}
