/**
 * The dispatch saga as one state machine over the three services' tables, their inboxes and the message
 * copies still to be delivered, in any order and any number of times.
 */
module Sagas {
  import opened Prelude
  import opened Messages
  import opened Reservations
  import opened Dispatches
  import Orders
  import opened SagaTables

  datatype Service = OrderService | DispatchService | DriverService

  datatype InboxKey = InboxKey(service: Service, event: EventId)

  function Consumer(m: Message): Service {
    match m
    case OrderReady(_, _) => DispatchService
    case DriverReserved(_, _, _, _) => DispatchService
    case ReservationFailed(_, _, _, _) => DispatchService
    case DriverReleased(_, _, _, _) => DispatchService
    case ReservationRequested(_, _, _, _) => DriverService
    case ReleaseRequested(_, _, _, _) => DriverService
    case DispatchStarted(_, _, _) => OrderService
    case DispatchAssigned(_, _, _, _) => OrderService
    case DispatchFailed(_, _, _, _) => OrderService
    case DispatchCancelled(_, _, _) => OrderService
  }

  function KeyOf(m: Message): InboxKey { InboxKey(Consumer(m), m.eventId) }

  /**
   * `sent` holds every message ever committed to an outbox; `pool` the copies in an outbox, a queue or a retry
   * queue, `dead` the dead-lettered messages, `inbox` the keys marked processed, `ran` the messages whose handler
   * has run to its commit. `issued` and `requests` are a
   * record of the ids drawn so far: the message each was drawn for, and the event id of each dispatch's request.
   */
  datatype State = State(
    tables: Tables,
    sent: set<Message>,
    pool: seq<Message>,
    dead: set<Message>,
    inbox: set<InboxKey>,
    ran: set<Message>,
    issued: map<EventId, Message>,
    requests: map<DispatchId, EventId>)

  const INITIAL := State(EMPTY_TABLES, {}, [], {}, {}, {}, map[], map[])

  /** What a handler run does to the inbox row of its key. */
  datatype Mark = Keep | Processed | Forgotten

  /**
   * Handle runs a handler to its commit and may mark and acknowledge at once; Settle is a consumer that marks or
   * acknowledges later, after whatever others have done meanwhile, and a consumer that does neither has crashed. A
   * handler may run although its key is marked, for its consumer may have looked before that. Fail is a run that
   * throws.
   */
  datatype Step =
    | Execute(command: Command)
    | Handle(at: nat, choice: Choice, mark: Mark, acked: bool)
    | Settle(at: nat, mark: Mark, acked: bool)
    | Fail(at: nat, mark: Mark)
    | Drop(at: nat)
    | DeadLetter(at: nat)
    | Redeliver(message: Message)

  predicate FreshFor(s: State, e: EventId) { e !in s.issued }

  predicate CommandEnabled(s: State, c: Command) {
    && CommandAccepted(s.tables, c)
    && (c.CreateOrder? || c.CancelDispatch? || c.Timeout? ==> FreshFor(s, c.event))
  }

  predicate HandleEnabled(s: State, m: Message, c: Choice, mark: Mark, acked: bool) {
    && ChoiceAllowed(s.tables, m, c) && Handled(s.tables, m, c).Some?
    && FreshFor(s, c.first) && FreshFor(s, c.second) && c.first != c.second
    && (acked ==> !mark.Forgotten?)
  }

  predicate Enabled(s: State, step: Step) {
    match step
    case Execute(c) => CommandEnabled(s, c)
    case Handle(i, c, mark, acked) => i < |s.pool| && HandleEnabled(s, s.pool[i], c, mark, acked)
    case Settle(i, mark, _) => i < |s.pool| && s.pool[i] in s.ran && !mark.Forgotten?
    case Fail(i, mark) => i < |s.pool| && !mark.Processed?
    case Drop(i) => i < |s.pool| && KeyOf(s.pool[i]) in s.inbox
    case DeadLetter(i) => i < |s.pool|
    case Redeliver(m) => m in s.sent
  }

  function Without<T>(q: seq<T>, i: nat): (r: seq<T>)
    requires i < |q|
    ensures |r| == |q| - 1
    ensures forall x :: x in r ==> x in q
    ensures forall x :: x in q ==> x in r || x == q[i]
  {
    assert q == q[..i] + [q[i]] + q[i + 1..];
    q[..i] + q[i + 1..]
  }

  function Marked(inbox: set<InboxKey>, k: InboxKey, mark: Mark): set<InboxKey> {
    match mark
    case Keep => inbox
    case Processed => inbox + {k}
    case Forgotten => inbox - {k}
  }

  /** A reply keeps the id of its request, so only the first message under an id is recorded. */
  function Issued(issued: map<EventId, Message>, out: seq<Message>): map<EventId, Message> {
    if out == [] then issued
    else
      var rest := Issued(issued, out[..|out| - 1]);
      var last := out[|out| - 1];
      if last.eventId in rest then rest else rest[last.eventId := last]
  }

  function Requests(requests: map<DispatchId, EventId>, out: seq<Message>): map<DispatchId, EventId> {
    if out == [] then requests
    else
      var rest := Requests(requests, out[..|out| - 1]);
      var last := out[|out| - 1];
      if last.ReservationRequested? then rest[last.dispatchId := last.eventId] else rest
  }

  /** The state after a commit: new tables, and the outbox messages on their way. */
  function AfterCommit(s: State, c: Change): State {
    State(c.tables, s.sent + (set m | m in c.out), s.pool + c.out, s.dead, s.inbox, s.ran, Issued(s.issued, c.out),
          Requests(s.requests, c.out))
  }

  function Removed(s: State, i: nat): State
    requires i < |s.pool|
  {
    s.(pool := Without(s.pool, i))
  }

  /** The consumer of copy i marks its key and, if `acked`, lets the copy go. */
  function Settled(s: State, i: nat, mark: Mark, acked: bool): State
    requires i < |s.pool|
  {
    (if acked then Removed(s, i) else s).(inbox := Marked(s.inbox, KeyOf(s.pool[i]), mark), ran := s.ran + {s.pool[i]})
  }

  function AfterHandle(s: State, i: nat, c: Choice, mark: Mark, acked: bool): State
    requires i < |s.pool| && HandleEnabled(s, s.pool[i], c, mark, acked)
  {
    AfterCommit(Settled(s, i, mark, acked), Handled(s.tables, s.pool[i], c).value)
  }

  function Apply(s: State, step: Step): State
    requires Enabled(s, step)
  {
    match step
    case Execute(c) => AfterCommit(s, Commanded(s.tables, c))
    case Handle(i, c, mark, acked) => AfterHandle(s, i, c, mark, acked)
    case Settle(i, mark, acked) => Settled(s, i, mark, acked)
    case Fail(i, mark) => s.(inbox := Marked(s.inbox, KeyOf(s.pool[i]), mark))
    case Drop(i) => Removed(s, i)
    case DeadLetter(i) => Removed(s, i).(dead := s.dead + {s.pool[i]})
    case Redeliver(m) => s.(pool := s.pool + [m])
  }

  predicate Legal(s: State, steps: seq<Step>)
    decreases |steps|
  {
    steps == [] || (Enabled(s, steps[0]) && Legal(Apply(s, steps[0]), steps[1..]))
  }

  function Run(s: State, steps: seq<Step>): State
    requires Legal(s, steps)
    decreases |steps|
  {
    if steps == [] then s else Run(Apply(s, steps[0]), steps[1..])
  }

  // ----- the invariant of every run -----

  ghost predicate SentTrue(t: Tables, sent: set<Message>) {
    forall m :: m in sent ==> MessageOk(t, m)
  }

  ghost predicate Inv(s: State) {
    && TablesOk(s.tables) && SentTrue(s.tables, s.sent)
    && (forall m :: m in s.pool ==> m in s.sent)
    && s.dead <= s.sent
  }

  lemma SentStaysTrue(a: Tables, c: Change, sent: set<Message>)
    requires SentTrue(a, sent) && Sound(a, c)
    ensures SentTrue(c.tables, sent + (set m | m in c.out))
  {
    forall m | m in sent
      ensures MessageOk(c.tables, m)
    {
      MessageStable(a, c.tables, m);
    }
  }

  lemma CommittedKeepsInv(s: State, c: Change)
    requires Inv(s) && Sound(s.tables, c)
    ensures Inv(AfterCommit(s, c))
  {
    SentStaysTrue(s.tables, c, s.sent);
  }

  lemma StepKeepsInv(s: State, step: Step)
    requires Inv(s) && Enabled(s, step)
    ensures Inv(Apply(s, step)) && Progress(s.tables, Apply(s, step).tables)
  {
    match step
    case Execute(c) =>
      CommandedKeeps(s.tables, c);
      CommittedKeepsInv(s, Commanded(s.tables, c));
    case Handle(i, c, mark, acked) =>
      var m := s.pool[i];
      HandledKeeps(s.tables, m, c);
      CommittedKeepsInv(Settled(s, i, mark, acked), Handled(s.tables, m, c).value);
    case Settle(_, _, _) =>
    case Fail(_, _) =>
    case Drop(_) =>
    case DeadLetter(_) =>
    case Redeliver(_) =>
  }

  lemma {:induction false} RunKeepsInv(s: State, steps: seq<Step>)
    requires Inv(s) && Legal(s, steps)
    ensures Inv(Run(s, steps)) && Progress(s.tables, Run(s, steps).tables)
    decreases |steps|
  {
    if steps != [] {
      var next := Apply(s, steps[0]);
      StepKeepsInv(s, steps[0]);
      RunKeepsInv(next, steps[1..]);
      ProgressTransitive(s.tables, next.tables, Run(s, steps).tables);
    }
  }

  lemma InitialInv()
    ensures Inv(INITIAL)
  {
  }

  // ----- what holds in every reachable state -----

  /** A dispatch ASSIGNED to a driver has an ACTIVE reservation there, and that driver's row holds the order. */
  lemma AssignedIsHeld(steps: seq<Step>, id: DispatchId)
    requires Legal(INITIAL, steps)
    ensures
      var t := Run(INITIAL, steps).tables;
      id in t.dispatches && t.dispatches[id].status.Assigned? ==>
        var r := t.dispatches[id];
        && r.driverId.Some? && ActiveOn(t.db, r.orderId) && ReservedFor(t.db, r.orderId, id, r.driverId.value)
        && r.driverId.value in t.db.drivers && r.orderId in t.db.drivers[r.driverId.value].reservedOrderIds
  {
    InitialInv();
    RunKeepsInv(INITIAL, steps);
    var t := Run(INITIAL, steps).tables;
    if id in t.dispatches && t.dispatches[id].status.Assigned? {
      assert DispatchOk(t, id) && ValidDispatch(t.dispatches[id]);
      assert ReservationOk(t, t.dispatches[id].orderId);
    }
  }

  /** Once a dispatch is CANCELLED its reservation is RELEASED, whatever happens afterwards. */
  lemma CancelledIsReleased(steps: seq<Step>, later: seq<Step>, id: DispatchId)
    requires Legal(INITIAL, steps) && Legal(Run(INITIAL, steps), later)
    requires id in Run(INITIAL, steps).tables.dispatches && Run(INITIAL, steps).tables.dispatches[id].status.Cancelled?
    ensures
      var o := Run(INITIAL, steps).tables.dispatches[id].orderId;
      var t := Run(Run(INITIAL, steps), later).tables;
      && id in t.dispatches && t.dispatches[id].status.Cancelled?
      && ReleasedIn(t.db, o) && !ActiveOn(t.db, o)
      && forall d :: d in t.db.drivers ==> o !in t.db.drivers[d].reservedOrderIds
  {
    InitialInv();
    RunKeepsInv(INITIAL, steps);
    RunKeepsInv(Run(INITIAL, steps), later);
    var a, b := Run(INITIAL, steps).tables, Run(Run(INITIAL, steps), later).tables;
    assert DispatchOk(a, id);
    assert RowEvolves(a.dispatches[id], b.dispatches[id]);
  }

  /** Every order has at most one dispatch, which keeps its driver and never returns to an earlier status. */
  lemma OneDispatchPerOrder(steps: seq<Step>, later: seq<Step>, a: DispatchId, b: DispatchId)
    requires Legal(INITIAL, steps) && Legal(Run(INITIAL, steps), later)
    ensures
      var t, t' := Run(INITIAL, steps).tables, Run(Run(INITIAL, steps), later).tables;
      && (a in t'.dispatches && b in t'.dispatches && t'.dispatches[a].orderId == t'.dispatches[b].orderId ==> a == b)
      && (a in t.dispatches ==> a in t'.dispatches && RowEvolves(t.dispatches[a], t'.dispatches[a]))
  {
    InitialInv();
    RunKeepsInv(INITIAL, steps);
    RunKeepsInv(Run(INITIAL, steps), later);
  }

  /** A release request always finds the reservation row it names; the branch without one is never taken. */
  lemma ReleaseFindsReservation(steps: seq<Step>, m: Message)
    requires Legal(INITIAL, steps) && m.ReleaseRequested? && m in Run(INITIAL, steps).pool
    ensures ReservedFor(Run(INITIAL, steps).tables.db, m.orderId, m.dispatchId, m.driverId)
  {
    InitialInv();
    RunKeepsInv(INITIAL, steps);
    assert MessageOk(Run(INITIAL, steps).tables, m);
  }

  /**
   * The order service agrees: an order with a driver has exactly one dispatch, which has the same driver, and the
   * order is ASSIGNED, or CANCELLED together with its dispatch and its reservation.
   */
  lemma OrderAgrees(steps: seq<Step>, o: OrderId)
    requires Legal(INITIAL, steps)
    requires o in Run(INITIAL, steps).tables.orders
    ensures
      var t := Run(INITIAL, steps).tables;
      var r := t.orders[o];
      && (r.status.Assigned? ==> r.driverId.Some?)
      && (r.driverId.Some? ==>
            && (r.status.Assigned? || r.status.Cancelled?)
            && o in t.db.reservations && t.db.reservations[o].driverId == r.driverId.value
            && Known(t, t.db.reservations[o].dispatchId, o)
            && t.dispatches[t.db.reservations[o].dispatchId].driverId == r.driverId
            && (r.status.Cancelled? ==>
                  t.dispatches[t.db.reservations[o].dispatchId].status.Cancelled?
                    && t.db.reservations[o].status.Released?))
  {
    InitialInv();
    RunKeepsInv(INITIAL, steps);
    var t := Run(INITIAL, steps).tables;
    assert OrderOk(t, o);
    if t.orders[o].driverId.Some? {
      assert ReservationOk(t, o);
      assert DispatchOk(t, t.db.reservations[o].dispatchId);
    }
  }

  /** A CANCELLED order stays as it is for ever. */
  lemma CancelledOrderIsFinal(steps: seq<Step>, later: seq<Step>, o: OrderId)
    requires Legal(INITIAL, steps) && Legal(Run(INITIAL, steps), later)
    requires o in Run(INITIAL, steps).tables.orders && Run(INITIAL, steps).tables.orders[o].status.Cancelled?
    ensures o in Run(Run(INITIAL, steps), later).tables.orders
    ensures Run(Run(INITIAL, steps), later).tables.orders[o] == Run(INITIAL, steps).tables.orders[o]
  {
    InitialInv();
    RunKeepsInv(INITIAL, steps);
    RunKeepsInv(Run(INITIAL, steps), later);
  }
}
