/**
 * Every message of the saga takes effect or is still on its way: what the inboxes, which share event ids
 * between requests and replies, may and may not swallow.
 */
module SagaDelivery {
  import opened Prelude
  import opened Messages
  import opened Reservations
  import opened Dispatches
  import Orders
  import opened SagaTables
  import opened Sagas

  // ----- event ids -----

  predicate IsReply(m: Message) { m.DriverReserved? || m.ReservationFailed? || m.DriverReleased? }

  /** The message under whose event id `m` was sent: itself, or the request it answers. */
  predicate SentUnder(m: Message, first: Message) {
    if m.DriverReserved? || m.ReservationFailed? then
      first.ReservationRequested? && first.orderId == m.orderId && first.dispatchId == m.dispatchId
    else if m.DriverReleased? then
      first.ReleaseRequested? && first.orderId == m.orderId && first.dispatchId == m.dispatchId
    else first == m
  }

  predicate InReserving(m: Message) { m.ReservationRequested? || m.DriverReserved? || m.ReservationFailed? }

  predicate KeyOk(issued: map<EventId, Message>, requests: map<DispatchId, EventId>, m: Message) {
    && m.eventId in issued && SentUnder(m, issued[m.eventId])
    && (InReserving(m) ==> m.dispatchId in requests && requests[m.dispatchId] == m.eventId)
  }

  ghost predicate KeysInv(s: State) {
    && (forall m :: m in s.sent ==> KeyOk(s.issued, s.requests, m))
    && (forall id :: id in s.requests ==> id in s.tables.dispatches)
    && (forall k :: k in s.inbox ==> k.event in s.issued)
  }

  /** An outbox message has a new event id, or is a reply under the id of its request. */
  predicate MessageFits(s: State, m: Message) {
    if IsReply(m) then KeyOk(s.issued, s.requests, m)
    else m.eventId !in s.issued && (m.ReservationRequested? ==> m.dispatchId !in s.tables.dispatches)
  }

  ghost predicate OutFits(s: State, out: seq<Message>) {
    && (forall m :: m in out ==> MessageFits(s, m))
    && (out == [] || |out| == 1
        || (|out| == 2 && !IsReply(out[0]) && !IsReply(out[1]) && out[0].eventId != out[1].eventId
            && !out[0].ReservationRequested?))
  }

  lemma HandledFits(s: State, m: Message, c: Choice, mark: Mark, acked: bool)
    requires HandleEnabled(s, m, c, mark, acked) && KeyOk(s.issued, s.requests, m)
    ensures OutFits(s, Handled(s.tables, m, c).value.out)
  {
  }

  lemma CommandedFits(s: State, c: Command)
    requires CommandEnabled(s, c)
    ensures OutFits(s, Commanded(s.tables, c).out)
  {
  }

  /** The records only grow, and the new messages are in them. */
  lemma RecordsGrow(s: State, out: seq<Message>)
    requires OutFits(s, out) && forall id :: id in s.requests ==> id in s.tables.dispatches
    ensures forall e :: e in s.issued ==> e in Issued(s.issued, out) && Issued(s.issued, out)[e] == s.issued[e]
    ensures forall id :: id in s.requests ==>
              id in Requests(s.requests, out) && Requests(s.requests, out)[id] == s.requests[id]
    ensures forall id :: id in Requests(s.requests, out) ==>
              id in s.requests || exists m :: m in out && m.ReservationRequested? && m.dispatchId == id
    ensures forall m :: m in out ==> KeyOk(Issued(s.issued, out), Requests(s.requests, out), m)
  {
    if |out| == 1 {
      assert out[..0] == [] && out[0] in out;
    } else if |out| == 2 {
      var head := out[..1];
      assert |head| == 1 && head[0] == out[0] && head[..0] == [] && out[0] in out && out[1] in out;
      assert Issued(s.issued, head) == s.issued[out[0].eventId := out[0]] && Requests(s.requests, head) == s.requests;
    }
  }

  lemma CommittedKeepsKeys(s: State, c: Change)
    requires KeysInv(s) && OutFits(s, c.out) && Sound(s.tables, c)
    ensures KeysInv(AfterCommit(s, c))
  {
    var s' := AfterCommit(s, c);
    RecordsGrow(s, c.out);
    forall m | m in s'.sent
      ensures KeyOk(s'.issued, s'.requests, m)
    {
      assert m in s.sent ==> KeyOk(s.issued, s.requests, m);
    }
    forall id | id in s'.requests
      ensures id in s'.tables.dispatches
    {
      if id !in s.requests {
        var m :| m in c.out && m.ReservationRequested? && m.dispatchId == id;
        assert MessageOk(c.tables, m);
      }
    }
  }

  // ----- promises -----

  predicate Waiting(s: State, m: Message) { m in s.pool || m in s.dead }

  /** The driver service has answered the reservation request with this event id. */
  ghost predicate Answered(sent: set<Message>, e: EventId) {
    exists r :: r in sent && (r.DriverReserved? || r.ReservationFailed?) && r.eventId == e
  }

  /** The driver service has reported the release for this dispatch. */
  ghost predicate Returned(sent: set<Message>, id: DispatchId) {
    exists r :: r in sent && r.DriverReleased? && r.dispatchId == id
  }

  /** What handling the message was for has been achieved, once and for all. */
  ghost predicate Effected(t: Tables, sent: set<Message>, ran: set<Message>, m: Message) {
    match m
    case OrderReady(_, o) => HasDispatch(t.dispatches, o)
    case ReservationRequested(e, _, _, _) => Answered(sent, e)
    case DriverReserved(_, _, id, _) => id in t.dispatches && !t.dispatches[id].status.SearchingDriver?
    case ReservationFailed(_, _, id, _) => id in t.dispatches && !t.dispatches[id].status.SearchingDriver?
    case ReleaseRequested(_, o, id, _) => ReleasedIn(t.db, o) && Returned(sent, id)
    case DriverReleased(_, _, id, _) =>
      id in t.dispatches && (t.dispatches[id].status.Cancelled? || t.dispatches[id].status.Failed?)
    case DispatchAssigned(_, o, _, d) => o in t.orders && t.orders[o].driverId == Some(d)
    case DispatchCancelled(_, o, _) => o in t.orders && t.orders[o].status.Cancelled?
    case DispatchStarted(_, o, _) => o in t.orders && Orders.Begun(t.orders[o])
    case DispatchFailed(_, _, _, _) => m in ran
  }

  /** The message is still to be handled, or has had its effect. */
  ghost predicate Kept(s: State, m: Message) {
    (Waiting(s, m) && KeyOf(m) !in s.inbox) || Effected(s.tables, s.sent, s.ran, m)
  }

  lemma EffectedStable(a: Tables, b: Tables, sent: set<Message>, sent': set<Message>,
                       ran: set<Message>, ran': set<Message>, m: Message)
    requires Progress(a, b) && sent <= sent' && ran <= ran' && Effected(a, sent, ran, m)
    ensures Effected(b, sent', ran', m)
  {
    match m
    case OrderReady(_, o) =>
      var id :| id in a.dispatches && a.dispatches[id].orderId == o;
      assert RowEvolves(a.dispatches[id], b.dispatches[id]);
    case ReservationRequested(_, _, _, _) =>
    case DriverReserved(_, _, id, _) => assert RowEvolves(a.dispatches[id], b.dispatches[id]);
    case ReservationFailed(_, _, id, _) => assert RowEvolves(a.dispatches[id], b.dispatches[id]);
    case ReleaseRequested(_, _, _, _) =>
    case DriverReleased(_, _, id, _) => assert RowEvolves(a.dispatches[id], b.dispatches[id]);
    case DispatchAssigned(_, o, _, _) => assert Orders.OrderEvolves(a.orders[o], b.orders[o]);
    case DispatchCancelled(_, o, _) => assert Orders.OrderEvolves(a.orders[o], b.orders[o]);
    case DispatchStarted(_, o, _) => assert Orders.OrderEvolves(a.orders[o], b.orders[o]);
    case DispatchFailed(_, _, _, _) =>
  }

  // ----- a handler run has the message's effect -----

  lemma RequestEffect(t: Tables, m: Message, pick: Option<DriverId>, sent: set<Message>)
    requires m.ReservationRequested? && PickAllowed(t.db, m, pick) && ReserveEffect(t.db, m, pick).Committed?
    requires ReserveEffect(t.db, m, pick).reply in sent
    ensures Answered(sent, m.eventId)
  {
    var reply := ReserveEffect(t.db, m, pick).reply;
    assert reply.eventId == m.eventId;
  }

  lemma ReleaseHasEffect(t: Tables, m: Message, sent: set<Message>)
    requires m.ReleaseRequested? && ReservedFor(t.db, m.orderId, m.dispatchId, m.driverId)
    requires ReleaseEffect(t.db, m).reply in sent
    ensures ReleasedIn(ReleaseEffect(t.db, m).db, m.orderId) && Returned(sent, m.dispatchId)
  {
    var reply := ReleaseEffect(t.db, m).reply;
    assert reply.DriverReleased? && reply.dispatchId == m.dispatchId;
  }

  lemma OrderEventEffect(t: Tables, m: Message, sent: set<Message>, ran: set<Message>)
    requires m.DispatchStarted? || m.DispatchAssigned? || m.DispatchCancelled?
    requires m.orderId in t.orders && OnOrder(t, m).Some?
    ensures Effected(OnOrder(t, m).value.tables, sent, ran, m)
  {
  }

  lemma ReleasedHasEffect(t: Tables, m: Message, e: EventId)
    requires m.DriverReleased? && MessageOk(t, m) && ReservationOk(t, m.orderId)
    ensures var table := CompleteCompensationEffect(t.dispatches, m.dispatchId, e).table;
            m.dispatchId in table && (table[m.dispatchId].status.Cancelled? || table[m.dispatchId].status.Failed?)
  {
  }

  lemma OrderExists(t: Tables, m: Message)
    requires TablesOk(t) && MessageOk(t, m)
    ensures m.orderId in t.orders
  {
    if !m.OrderReady? {
      assert DispatchOk(t, m.dispatchId);
    }
  }

  lemma HandledEffect(t: Tables, m: Message, c: Choice, sent: set<Message>, ran: set<Message>)
    requires TablesOk(t) && MessageOk(t, m) && ChoiceAllowed(t, m, c) && Handled(t, m, c).Some?
    requires m in ran && forall x :: x in Handled(t, m, c).value.out ==> x in sent
    ensures Effected(Handled(t, m, c).value.tables, sent, ran, m)
  {
    OrderExists(t, m);
    match m
    case OrderReady(_, o) => StartKeeps(t.dispatches, o, c.dispatchId, c.candidates, c.first, c.second);
    case ReservationRequested(_, _, _, _) => RequestEffect(t, m, c.pick, sent);
    case DriverReserved(_, _, _, _) =>
    case ReservationFailed(_, _, _, _) =>
    case ReleaseRequested(_, _, _, _) => ReleaseHasEffect(t, m, sent);
    case DriverReleased(_, _, _, _) =>
      assert ReservationOk(t, m.orderId);
      ReleasedHasEffect(t, m, c.first);
    case DispatchAssigned(_, _, _, _) => OrderEventEffect(t, m, sent, ran);
    case DispatchCancelled(_, _, _) => OrderEventEffect(t, m, sent, ran);
    case DispatchStarted(_, _, _) => OrderEventEffect(t, m, sent, ran);
    case DispatchFailed(_, _, _, _) =>
  }

  /** Messages that share an inbox key share their effect, so one of them may be dropped for the other. */
  lemma SameKeySameEffect(s: State, m: Message, x: Message)
    requires ValidTable(s.tables.dispatches) && KeyOf(m) == KeyOf(x)
    requires MessageOk(s.tables, m) && MessageOk(s.tables, x)
    requires KeyOk(s.issued, s.requests, m) && KeyOk(s.issued, s.requests, x)
    requires Effected(s.tables, s.sent, s.ran, x)
    ensures Effected(s.tables, s.sent, s.ran, m)
  {
  }

  // ----- what is announced -----

  ghost predicate Requested(sent: set<Message>, id: DispatchId) {
    exists m :: m in sent && m.ReservationRequested? && m.dispatchId == id
  }

  ghost predicate ReleaseAsked(sent: set<Message>, id: DispatchId) {
    exists m :: m in sent && m.ReleaseRequested? && m.dispatchId == id
  }

  ghost predicate AssignmentTold(sent: set<Message>, id: DispatchId, driver: Option<DriverId>) {
    exists m :: m in sent && m.DispatchAssigned? && m.dispatchId == id && driver == Some(m.driverId)
  }

  ghost predicate CancellationTold(sent: set<Message>, id: DispatchId) {
    exists m :: m in sent && m.DispatchCancelled? && m.dispatchId == id
  }

  ghost predicate StartTold(sent: set<Message>, id: DispatchId) {
    exists m :: m in sent && m.DispatchStarted? && m.dispatchId == id
  }

  ghost predicate FailureTold(sent: set<Message>, id: DispatchId, reason: Option<FailureReason>) {
    exists m :: m in sent && m.DispatchFailed? && m.dispatchId == id && reason == Some(m.reason)
  }

  /** How the row of a dispatch shows in what was sent for it. */
  ghost predicate Announced(r: DispatchRow, sent: set<Message>, id: DispatchId) {
    && StartTold(sent, id)
    && (r.status.Failed? ==> FailureTold(sent, id, r.failureReason))
    && (r.status.SearchingDriver? ==> Requested(sent, id))
    && (r.status.Compensating? ==> ReleaseAsked(sent, id))
    && (r.driverId.Some? ==> AssignmentTold(sent, id, r.driverId))
    && (r.status.Cancelled? ==> CancellationTold(sent, id))
  }

  ghost predicate AllAnnounced(table: DispatchTable, sent: set<Message>) {
    forall id :: id in table ==> Announced(table[id], sent, id)
  }

  /** A transaction on one dispatch announces what it makes of it. */
  lemma UpdateAnnounced(table: DispatchTable, w: Workflow, id: DispatchId, sent: set<Message>, sent': set<Message>)
    requires AllAnnounced(table, sent) && sent <= sent' && (forall m :: m in w.out ==> m in sent')
    requires id in w.table ==> Announced(w.table[id], sent', id)
    requires w.table == table || (id in w.table && w.table == table[id := w.table[id]])
    ensures AllAnnounced(w.table, sent')
  {
    forall x | x in w.table && x != id
      ensures Announced(w.table[x], sent', x)
    {
      assert Announced(table[x], sent, x);
    }
  }

  lemma StartAnnounced(table: DispatchTable, o: OrderId, id: DispatchId, candidates: Option<seq<DriverId>>, e: EventId,
                       f: EventId,
                       sent: set<Message>, sent': set<Message>)
    requires AllAnnounced(table, sent) && sent <= sent' && id !in table
    requires forall m :: m in StartEffect(table, o, id, candidates, e, f).out ==> m in sent'
    ensures AllAnnounced(StartEffect(table, o, id, candidates, e, f).table, sent')
  {
    var w := StartEffect(table, o, id, candidates, e, f);
    if w.out != [] {
      assert w.out[0] in sent' && w.out[1] in sent';
    }
    UpdateAnnounced(table, w, id, sent, sent');
  }

  lemma ResultAnnounced(table: DispatchTable, id: DispatchId, driver: Option<DriverId>, reason: Option<FailureReason>,
                        e: EventId,
                        sent: set<Message>, sent': set<Message>)
    requires AllAnnounced(table, sent) && sent <= sent' && ValidTable(table)
    requires forall m :: m in CompleteReservationEffect(table, id, driver, reason, e).out ==> m in sent'
    ensures AllAnnounced(CompleteReservationEffect(table, id, driver, reason, e).table, sent')
  {
    var w := CompleteReservationEffect(table, id, driver, reason, e);
    if id in table {
      assert Announced(table[id], sent, id);
      if w.out != [] {
        assert w.out[0] in sent';
      }
    }
    UpdateAnnounced(table, w, id, sent, sent');
  }

  lemma CompensatedAnnounced(table: DispatchTable, id: DispatchId, e: EventId, sent: set<Message>, sent': set<Message>)
    requires AllAnnounced(table, sent) && sent <= sent'
    requires forall m :: m in CompleteCompensationEffect(table, id, e).out ==> m in sent'
    ensures AllAnnounced(CompleteCompensationEffect(table, id, e).table, sent')
  {
    var w := CompleteCompensationEffect(table, id, e);
    if id in table {
      assert Announced(table[id], sent, id);
      if w.out != [] {
        assert w.out[0] in sent';
      }
    }
    UpdateAnnounced(table, w, id, sent, sent');
  }

  lemma CommandAnnounced(t: Tables, c: Command, sent: set<Message>, sent': set<Message>)
    requires AllAnnounced(t.dispatches, sent) && sent <= sent' && ValidTable(t.dispatches) && CommandAccepted(t, c)
    requires forall m :: m in Commanded(t, c).out ==> m in sent'
    ensures AllAnnounced(Commanded(t, c).tables.dispatches, sent')
  {
    var after := Commanded(t, c);
    var id := if c.CancelDispatch? || c.Timeout? then c.dispatchId else 0;
    if c.CancelDispatch? || c.Timeout? {
      assert Announced(t.dispatches[id], sent, id);
      assert after.out[0] in sent';
      UpdateAnnounced(t.dispatches, Workflow(after.tables.dispatches, after.out), id, sent, sent');
    } else {
      forall x | x in t.dispatches
        ensures Announced(t.dispatches[x], sent', x)
      {
        assert Announced(t.dispatches[x], sent, x);
      }
    }
  }

  lemma HandledAnnounced(t: Tables, m: Message, c: Choice, sent: set<Message>, sent': set<Message>)
    requires AllAnnounced(t.dispatches, sent) && sent <= sent' && ValidTable(t.dispatches)
    requires ChoiceAllowed(t, m, c) && Handled(t, m, c).Some?
    requires forall x :: x in Handled(t, m, c).value.out ==> x in sent'
    ensures AllAnnounced(Handled(t, m, c).value.tables.dispatches, sent')
  {
    if m.OrderReady? {
      StartAnnounced(t.dispatches, m.orderId, c.dispatchId, c.candidates, c.first, c.second, sent, sent');
    } else if m.DriverReserved? {
      ResultAnnounced(t.dispatches, m.dispatchId, Some(m.driverId), None, c.first, sent, sent');
    } else if m.ReservationFailed? {
      ResultAnnounced(t.dispatches, m.dispatchId, None, Some(m.reason), c.first, sent, sent');
    } else if m.DriverReleased? {
      CompensatedAnnounced(t.dispatches, m.dispatchId, c.first, sent, sent');
    } else {
      assert Handled(t, m, c).value.tables.dispatches == t.dispatches;
      forall x | x in t.dispatches
        ensures Announced(t.dispatches[x], sent', x)
      {
        assert Announced(t.dispatches[x], sent, x);
      }
    }
  }

  // ----- the invariant -----

  /** A key is marked only after a message under it has had its effect. */
  ghost predicate MarkedAfterEffect(s: State, k: InboxKey) {
    exists m :: m in s.sent && KeyOf(m) == k && Effected(s.tables, s.sent, s.ran, m)
  }

  /**
   * A handler that has run to its commit has had its effect; a driver offered to a dispatch that had failed, or
   * that failed later, has been sent back.
   */
  ghost predicate RanEffected(s: State, m: Message) {
    && m in s.sent && Effected(s.tables, s.sent, s.ran, m)
    && (m.DriverReserved? && m.dispatchId in s.tables.dispatches && s.tables.dispatches[m.dispatchId].status.Failed? ==>
          ReleaseAsked(s.sent, m.dispatchId))
  }

  ghost predicate DeliveryInv(s: State) {
    && Inv(s) && KeysInv(s)
    && (forall m :: m in s.ran ==> RanEffected(s, m))
    && (forall m :: m in s.sent ==> Kept(s, m))
    && (forall k :: k in s.inbox ==> MarkedAfterEffect(s, k))
    && AllAnnounced(s.tables.dispatches, s.sent)
  }

  lemma InitialDeliveryInv()
    ensures DeliveryInv(INITIAL)
  {
  }

  lemma MarkedStable(s: State, s': State, k: InboxKey)
    requires MarkedAfterEffect(s, k) && Progress(s.tables, s'.tables) && s.sent <= s'.sent && s.ran <= s'.ran
    ensures MarkedAfterEffect(s', k)
  {
    var m :| m in s.sent && KeyOf(m) == k && Effected(s.tables, s.sent, s.ran, m);
    EffectedStable(s.tables, s'.tables, s.sent, s'.sent, s.ran, s'.ran, m);
  }

  lemma RanStable(s: State, s': State, m: Message)
    requires RanEffected(s, m) && Progress(s.tables, s'.tables) && s.sent <= s'.sent && s.ran <= s'.ran
    ensures RanEffected(s', m)
  {
    EffectedStable(s.tables, s'.tables, s.sent, s'.sent, s.ran, s'.ran, m);
    if m.DriverReserved? {
      assert RowEvolves(s.tables.dispatches[m.dispatchId], s'.tables.dispatches[m.dispatchId]);
    }
  }

  lemma KeptStable(s: State, s': State, m: Message)
    requires Kept(s, m) && Progress(s.tables, s'.tables) && s.sent <= s'.sent && s.ran <= s'.ran
    requires Waiting(s, m) && KeyOf(m) !in s.inbox ==>
               (Waiting(s', m) && KeyOf(m) !in s'.inbox) || Effected(s'.tables, s'.sent, s'.ran, m)
    ensures Kept(s', m)
  {
    if Effected(s.tables, s.sent, s.ran, m) {
      EffectedStable(s.tables, s'.tables, s.sent, s'.sent, s.ran, s'.ran, m);
    }
  }

  /** A new message is waiting, and if its key has been marked already it has nothing left to achieve. */
  lemma NewKept(s: State, m: Message)
    requires Inv(s) && KeysInv(s) && m in s.sent && m in s.pool
    requires KeyOf(m) in s.inbox ==> MarkedAfterEffect(s, KeyOf(m))
    ensures Kept(s, m)
  {
    if KeyOf(m) in s.inbox {
      var x :| x in s.sent && KeyOf(x) == KeyOf(m) && Effected(s.tables, s.sent, s.ran, x);
      SameKeySameEffect(s, m, x);
    }
  }

  lemma ExecuteKeepsDelivery(s: State, c: Command)
    requires DeliveryInv(s) && CommandEnabled(s, c)
    ensures DeliveryInv(Apply(s, Execute(c)))
  {
    var s' := Apply(s, Execute(c));
    StepKeepsInv(s, Execute(c));
    CommandedKeeps(s.tables, c);
    CommandedFits(s, c);
    CommittedKeepsKeys(s, Commanded(s.tables, c));
    CommandAnnounced(s.tables, c, s.sent, s'.sent);
    forall m | m in s'.ran
      ensures RanEffected(s', m)
    {
      RanStable(s, s', m);
    }
    forall k | k in s'.inbox
      ensures MarkedAfterEffect(s', k)
    {
      MarkedStable(s, s', k);
    }
    forall m | m in s'.sent
      ensures Kept(s', m)
    {
      if m in s.sent {
        KeptStable(s, s', m);
      } else {
        NewKept(s', m);
      }
    }
  }

  lemma HandleKeepsKeys(s: State, i: nat, c: Choice, mark: Mark, acked: bool)
    requires Inv(s) && KeysInv(s) && Enabled(s, Handle(i, c, mark, acked))
    ensures KeysInv(Apply(s, Handle(i, c, mark, acked)))
  {
    var m := s.pool[i];
    HandledKeeps(s.tables, m, c);
    assert KeyOk(s.issued, s.requests, m);
    HandledFits(s, m, c, mark, acked);
    CommittedKeepsKeys(Settled(s, i, mark, acked), Handled(s.tables, m, c).value);
  }

  /** The message handled has had its effect, and with it every message under the same key. */
  lemma HandleHasEffect(s: State, i: nat, c: Choice, mark: Mark, acked: bool)
    requires Inv(s) && Enabled(s, Handle(i, c, mark, acked))
    ensures var s' := Apply(s, Handle(i, c, mark, acked)); Effected(s'.tables, s'.sent, s'.ran, s.pool[i])
  {
    var s' := Apply(s, Handle(i, c, mark, acked));
    HandledEffect(s.tables, s.pool[i], c, s'.sent, s'.ran);
  }

  /** A driver's answer handled for a failed dispatch asks for the release. */
  lemma FailedSendsBack(t: Tables, m: Message, c: Choice, sent: set<Message>)
    requires m.DriverReserved? && forall x :: x in Handled(t, m, c).value.out ==> x in sent
    ensures var table := Handled(t, m, c).value.tables.dispatches;
            m.dispatchId in table && table[m.dispatchId].status.Failed? ==> ReleaseAsked(sent, m.dispatchId)
  {
    var out := Handled(t, m, c).value.out;
    if out != [] {
      assert out[0] in out;
    }
  }

  lemma HandleKeepsRan(s: State, s': State, i: nat, c: Choice, mark: Mark, acked: bool, m: Message)
    requires Enabled(s, Handle(i, c, mark, acked)) && s' == Apply(s, Handle(i, c, mark, acked))
    requires Inv(s) && Progress(s.tables, s'.tables) && m in s'.ran
    requires m in s.ran ==> RanEffected(s, m)
    ensures RanEffected(s', m)
  {
    if m in s.ran {
      RanStable(s, s', m);
    } else {
      HandleHasEffect(s, i, c, mark, acked);
      if m.DriverReserved? {
        FailedSendsBack(s.tables, m, c, s'.sent);
      }
    }
  }

  lemma HandleKeepsMarks(s: State, s': State, i: nat, c: Choice, mark: Mark, acked: bool, k: InboxKey)
    requires Enabled(s, Handle(i, c, mark, acked)) && s' == Apply(s, Handle(i, c, mark, acked))
    requires Inv(s) && Progress(s.tables, s'.tables) && k in s'.inbox
    requires k in s.inbox ==> MarkedAfterEffect(s, k)
    ensures MarkedAfterEffect(s', k)
  {
    if k in s.inbox {
      MarkedStable(s, s', k);
    } else {
      HandleHasEffect(s, i, c, mark, acked);
      assert k == KeyOf(s.pool[i]) && s.pool[i] in s'.sent;
    }
  }

  lemma HandleKeepsOthers(s: State, s': State, i: nat, c: Choice, mark: Mark, acked: bool, m: Message)
    requires Enabled(s, Handle(i, c, mark, acked)) && s' == Apply(s, Handle(i, c, mark, acked))
    requires Inv(s) && Inv(s') && KeysInv(s') && Progress(s.tables, s'.tables)
    requires m in s.sent && Kept(s, m)
    ensures Kept(s', m)
  {
    var x := s.pool[i];
    if KeyOf(m) == KeyOf(x) {
      HandleHasEffect(s, i, c, mark, acked);
      SameKeySameEffect(s', m, x);
    } else {
      KeptStable(s, s', m);
    }
  }

  lemma HandleKeepsDelivery(s: State, i: nat, c: Choice, mark: Mark, acked: bool)
    requires DeliveryInv(s) && Enabled(s, Handle(i, c, mark, acked))
    ensures DeliveryInv(Apply(s, Handle(i, c, mark, acked)))
  {
    var s' := Apply(s, Handle(i, c, mark, acked));
    StepKeepsInv(s, Handle(i, c, mark, acked));
    HandleKeepsKeys(s, i, c, mark, acked);
    HandledAnnounced(s.tables, s.pool[i], c, s.sent, s'.sent);
    forall m | m in s'.ran
      ensures RanEffected(s', m)
    {
      HandleKeepsRan(s, s', i, c, mark, acked, m);
    }
    forall k | k in s'.inbox
      ensures MarkedAfterEffect(s', k)
    {
      HandleKeepsMarks(s, s', i, c, mark, acked, k);
    }
    forall m | m in s'.sent
      ensures Kept(s', m)
    {
      if m in s.sent {
        HandleKeepsOthers(s, s', i, c, mark, acked, m);
      } else {
        NewKept(s', m);
      }
    }
  }

  /** A late mark or acknowledgement is for a message that has had its effect, and all under its key with it. */
  lemma SettleKeepsDelivery(s: State, i: nat, mark: Mark, acked: bool)
    requires DeliveryInv(s) && Enabled(s, Settle(i, mark, acked))
    ensures DeliveryInv(Apply(s, Settle(i, mark, acked)))
  {
    var s' := Apply(s, Settle(i, mark, acked));
    var x := s.pool[i];
    StepKeepsInv(s, Settle(i, mark, acked));
    assert RanEffected(s, x);
    forall m | m in s'.ran
      ensures RanEffected(s', m)
    {
      RanStable(s, s', m);
    }
    forall k | k in s'.inbox
      ensures MarkedAfterEffect(s', k)
    {
      if k in s.inbox {
        MarkedStable(s, s', k);
      }
    }
    forall m | m in s'.sent
      ensures Kept(s', m)
    {
      if KeyOf(m) == KeyOf(x) {
        SameKeySameEffect(s, m, x);
      } else {
        KeptStable(s, s', m);
      }
    }
  }

  lemma MoveKeepsDelivery(s: State, step: Step)
    requires DeliveryInv(s) && Enabled(s, step) && !step.Execute? && !step.Handle? && !step.Settle?
    ensures DeliveryInv(Apply(s, step))
  {
    var s' := Apply(s, step);
    StepKeepsInv(s, step);
    forall m | m in s'.ran
      ensures RanEffected(s', m)
    {
      RanStable(s, s', m);
    }
    forall k | k in s'.inbox
      ensures MarkedAfterEffect(s', k)
    {
      MarkedStable(s, s', k);
    }
    forall m | m in s'.sent
      ensures Kept(s', m)
    {
      KeptStable(s, s', m);
    }
  }

  lemma StepKeepsDelivery(s: State, step: Step)
    requires DeliveryInv(s) && Enabled(s, step)
    ensures DeliveryInv(Apply(s, step))
  {
    match step
    case Execute(c) => ExecuteKeepsDelivery(s, c);
    case Handle(i, c, mark, acked) => HandleKeepsDelivery(s, i, c, mark, acked);
    case Settle(i, mark, acked) => SettleKeepsDelivery(s, i, mark, acked);
    case Fail(_, _) => MoveKeepsDelivery(s, step);
    case Drop(_) => MoveKeepsDelivery(s, step);
    case DeadLetter(_) => MoveKeepsDelivery(s, step);
    case Redeliver(_) => MoveKeepsDelivery(s, step);
  }

  lemma {:induction false} RunKeepsDelivery(s: State, steps: seq<Step>)
    requires DeliveryInv(s) && Legal(s, steps)
    ensures DeliveryInv(Run(s, steps))
    decreases |steps|
  {
    if steps != [] {
      StepKeepsDelivery(s, steps[0]);
      RunKeepsDelivery(Apply(s, steps[0]), steps[1..]);
    }
  }

  // ----- what follows -----

  /** Every message ever sent is still to be handled or has had its effect, which then stays. */
  lemma EveryMessageTakesEffect(steps: seq<Step>, m: Message)
    requires Legal(INITIAL, steps) && m in Run(INITIAL, steps).sent
    ensures Kept(Run(INITIAL, steps), m)
  {
    InitialDeliveryInv();
    RunKeepsDelivery(INITIAL, steps);
  }

  /** The requests of a dispatch all have one event id, its only request's, and so do their answers. */
  lemma OneRequestPerDispatch(s: State, a: Message, b: Message)
    requires KeysInv(s) && a in s.sent && b in s.sent && InReserving(a) && InReserving(b)
    requires a.dispatchId == b.dispatchId
    ensures a.eventId == b.eventId
  {
    assert KeyOk(s.issued, s.requests, a) && KeyOk(s.issued, s.requests, b);
  }

  ghost predicate Quiet(s: State) { s.pool == [] && s.dead == {} }

  lemma QuietEffected(s: State, m: Message)
    requires DeliveryInv(s) && Quiet(s) && m in s.sent
    ensures Effected(s.tables, s.sent, s.ran, m)
  {
    assert Kept(s, m);
  }

  /** With nothing left to deliver no dispatch is still searching: its request was answered and the answer handled. */
  lemma QuietNotSearching(s: State, id: DispatchId)
    requires DeliveryInv(s) && Quiet(s) && id in s.tables.dispatches
    ensures !s.tables.dispatches[id].status.SearchingDriver?
  {
    if s.tables.dispatches[id].status.SearchingDriver? {
      assert Announced(s.tables.dispatches[id], s.sent, id);
      var m :| m in s.sent && m.ReservationRequested? && m.dispatchId == id;
      QuietEffected(s, m);
      var r :| r in s.sent && (r.DriverReserved? || r.ReservationFailed?) && r.eventId == m.eventId;
      assert KeyOk(s.issued, s.requests, m) && KeyOk(s.issued, s.requests, r);
      QuietEffected(s, r);
    }
  }

  /** Nor is one still compensating: the release was carried out, reported and the report handled. */
  lemma QuietNotCompensating(s: State, id: DispatchId)
    requires DeliveryInv(s) && Quiet(s) && id in s.tables.dispatches
    ensures !s.tables.dispatches[id].status.Compensating?
  {
    if s.tables.dispatches[id].status.Compensating? {
      assert Announced(s.tables.dispatches[id], s.sent, id);
      var m :| m in s.sent && m.ReleaseRequested? && m.dispatchId == id;
      QuietEffected(s, m);
      var r :| r in s.sent && r.DriverReleased? && r.dispatchId == id;
      QuietEffected(s, r);
    }
  }

  lemma QuietOrder(s: State, id: DispatchId)
    requires DeliveryInv(s) && Quiet(s) && id in s.tables.dispatches
    ensures
      var r := s.tables.dispatches[id];
      && r.orderId in s.tables.orders
      && (r.driverId.Some? ==> s.tables.orders[r.orderId].driverId == r.driverId)
      && (r.status.Cancelled? ==> s.tables.orders[r.orderId].status.Cancelled?)
      && Orders.Begun(s.tables.orders[r.orderId])
  {
    var r := s.tables.dispatches[id];
    assert DispatchOk(s.tables, id) && Announced(r, s.sent, id);
    var started :| started in s.sent && started.DispatchStarted? && started.dispatchId == id;
    assert MessageOk(s.tables, started);
    QuietEffected(s, started);
    if r.driverId.Some? {
      var m :| m in s.sent && m.DispatchAssigned? && m.dispatchId == id;
      assert MessageOk(s.tables, m);
      QuietEffected(s, m);
    }
    if r.status.Cancelled? {
      var m :| m in s.sent && m.DispatchCancelled? && m.dispatchId == id;
      assert MessageOk(s.tables, m);
      QuietEffected(s, m);
    }
  }

  /** The report of the dispatch's failure, with its reason, has been handled by the order service. */
  ghost predicate FailureHandled(s: State, id: DispatchId, reason: Option<FailureReason>) {
    exists m :: m in s.ran && m.DispatchFailed? && m.dispatchId == id && reason == Some(m.reason)
  }

  lemma QuietFailure(s: State, id: DispatchId)
    requires DeliveryInv(s) && Quiet(s) && id in s.tables.dispatches && s.tables.dispatches[id].status.Failed?
    ensures FailureHandled(s, id, s.tables.dispatches[id].failureReason)
  {
    var r := s.tables.dispatches[id];
    assert Announced(r, s.sent, id);
    var m :| m in s.sent && m.DispatchFailed? && m.dispatchId == id && r.failureReason == Some(m.reason);
    QuietEffected(s, m);
  }

  /**
   * The services agree once nothing is left to deliver: every dispatch is ASSIGNED, with its order ASSIGNED to
   * the same driver; CANCELLED, with its order CANCELLED; or FAILED, with neither a driver nor an order that has one,
   * and the report of its failure handled. And no order whose dispatch has started is still as it was created.
   */
  lemma QuietAgreement(steps: seq<Step>, id: DispatchId)
    requires Legal(INITIAL, steps) && Quiet(Run(INITIAL, steps)) && id in Run(INITIAL, steps).tables.dispatches
    ensures
      var t := Run(INITIAL, steps).tables;
      var r := t.dispatches[id];
      && r.orderId in t.orders
      && t.orders[r.orderId].driverId == r.driverId
      && (r.status.Assigned? || r.status.Cancelled? || r.status.Failed?)
      && (r.status.Assigned? <==> t.orders[r.orderId].status.Assigned?)
      && (r.status.Cancelled? ==> t.orders[r.orderId].status.Cancelled?)
      && (r.status.Failed? ==>
            r.driverId.None? && FailureHandled(Run(INITIAL, steps), id, r.failureReason))
      && Orders.Begun(t.orders[r.orderId])
  {
    InitialDeliveryInv();
    RunKeepsDelivery(INITIAL, steps);
    var s := Run(INITIAL, steps);
    if s.tables.dispatches[id].status.Failed? {
      QuietFailure(s, id);
    }
    QuietNotSearching(s, id);
    QuietNotCompensating(s, id);
    QuietOrder(s, id);
    FailedOrderFree(s, id);
  }

  /** An order with a driver has the driver of its dispatch. */
  lemma FailedOrderFree(s: State, id: DispatchId)
    requires Inv(s) && id in s.tables.dispatches
    ensures
      var r := s.tables.dispatches[id];
      && r.orderId in s.tables.orders
      && Orders.ValidOrder(s.tables.orders[r.orderId])
      && ValidDispatch(r)
      && (s.tables.orders[r.orderId].driverId.Some? ==> s.tables.orders[r.orderId].driverId == r.driverId)
      && (s.tables.orders[r.orderId].driverId.Some? && s.tables.orders[r.orderId].status.Cancelled? ==>
            r.status.Cancelled?)
  {
    var o := s.tables.dispatches[id].orderId;
    assert DispatchOk(s.tables, id);
    assert OrderOk(s.tables, o);
    if s.tables.orders[o].driverId.Some? {
      assert ReservationOk(s.tables, o);
    }
  }
}
