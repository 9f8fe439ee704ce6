/**
 * Leaked capacity: when exactly the saga loses track of an active reservation, and that it never does when no
 * reservation request succeeds after an earlier run of it has answered with a failure.
 */
module SagaLeaks {
  import opened Prelude
  import opened Messages
  import opened Reservations
  import opened Dispatches
  import opened SagaTables
  import opened Sagas
  import opened SagaDelivery

  /**
   * The message is waiting, as a copy to be delivered or as a dead letter that has to be redelivered by hand, and
   * nothing has been marked under its key that would make its consumer drop it.
   */
  predicate Unhandled(s: State, m: Message) {
    Waiting(s, m) && KeyOf(m) !in s.inbox
  }

  /** The dispatch that holds the order's reservation is ASSIGNED. */
  predicate AssignedFor(t: Tables, o: OrderId) {
    && o in t.db.reservations
    && t.db.reservations[o].dispatchId in t.dispatches
    && t.dispatches[t.db.reservations[o].dispatchId].status.Assigned?
  }

  predicate Covers(s: State, o: OrderId, m: Message) {
    m in s.sent && (m.DriverReserved? || m.ReleaseRequested?) && m.orderId == o && Unhandled(s, m)
  }

  ghost predicate Covered(s: State, o: OrderId) {
    AssignedFor(s.tables, o) || exists m :: Covers(s, o, m)
  }

  ghost predicate NoLeak(s: State) {
    forall o :: ActiveOn(s.tables.db, o) ==> Covered(s, o)
  }

  // ----- the two steps that leak -----

  /** The handler makes a reservation that was not there before. */
  predicate NewlyReserves(s: State, m: Message, c: Choice) {
    && m.ReservationRequested? && PickAllowed(s.tables.db, m, c.pick) && !ActiveOn(s.tables.db, m.orderId)
    && ReserveEffect(s.tables.db, m, c.pick).Committed? && ReserveEffect(s.tables.db, m, c.pick).reply.DriverReserved?
  }

  /** The answer to come will be taken for a duplicate of an answer that has been handled. */
  predicate ReservesUnheard(s: State, m: Message, c: Choice) {
    NewlyReserves(s, m, c) && InboxKey(DispatchService, m.eventId) in s.inbox
  }

  /** A failure answer is marked although the reservation has been made, and no release is on its way. */
  ghost predicate HidesReservation(s: State, m: Message, mark: Mark) {
    && m.ReservationFailed? && mark.Processed? && ActiveOn(s.tables.db, m.orderId)
    && m.dispatchId in s.tables.dispatches
    && (s.tables.dispatches[m.dispatchId].status.SearchingDriver? || s.tables.dispatches[m.dispatchId].status.Failed?)
    && !exists r :: Covers(s, m.orderId, r) && r.ReleaseRequested?
  }

  ghost predicate Leaks(s: State, step: Step) {
    || (step.Handle? && step.at < |s.pool| && ReservesUnheard(s, s.pool[step.at], step.choice))
    || ((step.Handle? || step.Settle?) && step.at < |s.pool| && HidesReservation(s, s.pool[step.at], step.mark))
  }

  // ----- facts about one state -----

  /** Every message of the order's reservation is about the one dispatch of the order. */
  lemma SameDispatch(t: Tables, a: DispatchId, b: DispatchId, o: OrderId)
    requires ValidTable(t.dispatches) && Known(t, a, o) && Known(t, b, o)
    ensures a == b
  {
  }

  /** While the reservation is active, a release that has been asked for is on its way. */
  lemma AskedCovers(s: State, o: OrderId, id: DispatchId)
    requires DeliveryInv(s) && Known(s.tables, id, o) && ActiveOn(s.tables.db, o) && ReleaseAsked(s.sent, id)
    ensures exists m :: Covers(s, o, m) && m.ReleaseRequested?
  {
    var m :| m in s.sent && m.ReleaseRequested? && m.dispatchId == id;
    assert MessageOk(s.tables, m) && Kept(s, m);
    assert Covers(s, o, m);
  }

  /** A compensating dispatch whose reservation is still active has its release request on the way. */
  lemma CompensatingCovered(s: State, o: OrderId, id: DispatchId)
    requires DeliveryInv(s) && Known(s.tables, id, o) && s.tables.dispatches[id].status.Compensating?
    requires ActiveOn(s.tables.db, o)
    ensures exists m :: Covers(s, o, m) && m.ReleaseRequested?
  {
    assert Announced(s.tables.dispatches[id], s.sent, id);
    AskedCovers(s, o, id);
  }

  // ----- the leaking steps do leak -----

  /** Any driver's answer for the order has the key of every other. */
  lemma AnswersShareKey(s: State, a: Message, b: Message)
    requires Inv(s) && KeysInv(s) && a in s.sent && b in s.sent && InReserving(a) && InReserving(b)
    requires a.orderId == b.orderId
    ensures a.eventId == b.eventId && a.dispatchId == b.dispatchId
  {
    assert MessageOk(s.tables, a) && MessageOk(s.tables, b);
    SameDispatch(s.tables, a.dispatchId, b.dispatchId, a.orderId);
    OneRequestPerDispatch(s, a, b);
  }

  /** What a new reservation does to the tables. */
  lemma NewReservation(t: Tables, m: Message, pick: Option<DriverId>)
    requires TablesOk(t) && MessageOk(t, m) && m.ReservationRequested? && PickAllowed(t.db, m, pick)
    requires !ActiveOn(t.db, m.orderId)
    requires ReserveEffect(t.db, m, pick).Committed? && ReserveEffect(t.db, m, pick).reply.DriverReserved?
    ensures m.orderId !in t.db.reservations
    ensures OnRequest(t, m, pick).Some?
    ensures var c := OnRequest(t, m, pick).value;
            && ActiveOn(c.tables.db, m.orderId) && !AssignedFor(c.tables, m.orderId)
            && |c.out| == 1 && c.out[0].DriverReserved?
            && c.out[0].orderId == m.orderId && c.out[0].eventId == m.eventId
  {
    assert DispatchOk(t, m.dispatchId) && ValidDispatch(t.dispatches[m.dispatchId]);
  }

  /** What a failure answer does to an order with an active reservation. */
  lemma FailureResult(t: Tables, m: Message, c: Choice)
    requires TablesOk(t) && MessageOk(t, m) && m.ReservationFailed? && ActiveOn(t.db, m.orderId)
    ensures t.db.reservations[m.orderId].dispatchId == m.dispatchId && !t.dispatches[m.dispatchId].status.Cancelled?
    ensures var after := Handled(t, m, c).value;
            && after.tables.db == t.db
            && (AssignedFor(after.tables, m.orderId) <==> t.dispatches[m.dispatchId].status.Assigned?)
            && forall x :: x in after.out ==> x.DispatchFailed?
  {
    assert ReservationOk(t, m.orderId) && DispatchOk(t, m.dispatchId);
  }

  lemma NothingCovers(s: State, o: OrderId)
    requires ActiveOn(s.tables.db, o) && !AssignedFor(s.tables, o) && forall x :: !Covers(s, o, x)
    ensures !NoLeak(s)
  {
  }

  lemma MarkedAnswer(s: State, m: Message, x: Message)
    requires Inv(s) && KeysInv(s) && m in s.sent && x in s.sent && InReserving(m) && x.DriverReserved?
    requires x.orderId == m.orderId
    requires InboxKey(DispatchService, m.eventId) in s.inbox
    ensures !Unhandled(s, x)
  {
    AnswersShareKey(s, m, x);
  }

  lemma UnheardUncovered(s: State, s': State, m: Message)
    requires Inv(s) && Inv(s') && KeysInv(s') && m in s'.sent && m.ReservationRequested?
    requires m.orderId !in s.tables.db.reservations && forall x :: x in s'.sent && x.ReleaseRequested? ==> x in s.sent
    requires InboxKey(DispatchService, m.eventId) in s'.inbox
    requires ActiveOn(s'.tables.db, m.orderId) && !AssignedFor(s'.tables, m.orderId)
    ensures !NoLeak(s')
  {
    forall x | x in s.sent && x.ReleaseRequested?
      ensures x.orderId != m.orderId
    {
      assert MessageOk(s.tables, x);
    }
    forall x
      ensures !Covers(s', m.orderId, x)
    {
      if x in s'.sent && x.DriverReserved? && x.orderId == m.orderId {
        MarkedAnswer(s', m, x);
      }
    }
    NothingCovers(s', m.orderId);
  }

  lemma UnheardLeaks(s: State, s': State, i: nat, c: Choice, mark: Mark, acked: bool)
    requires Inv(s) && Inv(s') && KeysInv(s')
    requires Enabled(s, Handle(i, c, mark, acked)) && s' == Apply(s, Handle(i, c, mark, acked))
    requires ReservesUnheard(s, s.pool[i], c)
    ensures !NoLeak(s')
  {
    var m := s.pool[i];
    NewReservation(s.tables, m, c.pick);
    UnheardUncovered(s, s', m);
  }

  lemma HidingLeaks(s: State, s': State, i: nat, c: Choice, mark: Mark, acked: bool)
    requires Inv(s) && Inv(s') && KeysInv(s')
    requires Enabled(s, Handle(i, c, mark, acked)) && s' == Apply(s, Handle(i, c, mark, acked))
    requires HidesReservation(s, s.pool[i], mark)
    ensures !NoLeak(s')
  {
    var m := s.pool[i];
    FailureResult(s.tables, m, c);
    forall x
      ensures !Covers(s', m.orderId, x)
    {
      if Covers(s', m.orderId, x) {
        if x.DriverReserved? {
          MarkedAnswer(s', m, x);
        } else {
          assert x in s.sent;
          assert Covers(s, m.orderId, x);
        }
      }
    }
    NothingCovers(s', m.orderId);
  }

  /** Marking late hides the reservation just as marking at once does. */
  lemma LateHidingLeaks(s: State, s': State, i: nat, mark: Mark, acked: bool)
    requires Inv(s) && Inv(s') && KeysInv(s')
    requires Enabled(s, Settle(i, mark, acked)) && s' == Apply(s, Settle(i, mark, acked))
    requires HidesReservation(s, s.pool[i], mark)
    ensures !NoLeak(s')
  {
    var m := s.pool[i];
    assert MessageOk(s.tables, m) && ReservationOk(s.tables, m.orderId);
    forall x
      ensures !Covers(s', m.orderId, x)
    {
      if Covers(s', m.orderId, x) {
        if x.DriverReserved? {
          MarkedAnswer(s', m, x);
        } else {
          assert Covers(s, m.orderId, x);
        }
      }
    }
    NothingCovers(s', m.orderId);
  }

  // ----- no other step does -----

  lemma StillCovers(s: State, s': State, o: OrderId, x: Message)
    requires Covers(s, o, x) && s.sent <= s'.sent && Unhandled(s', x)
    ensures Covered(s', o)
  {
    assert Covers(s', o, x);
  }

  /** A run for another message leaves it covering, unless it marks the same key. */
  lemma OtherCovers(s: State, i: nat, c: Choice, mark: Mark, acked: bool, o: OrderId, x: Message)
    requires Enabled(s, Handle(i, c, mark, acked)) && Covers(s, o, x) && x != s.pool[i]
    requires KeyOf(x) != KeyOf(s.pool[i]) || !mark.Processed?
    ensures Covered(Apply(s, Handle(i, c, mark, acked)), o)
  {
    StillCovers(s, Apply(s, Handle(i, c, mark, acked)), o, x);
  }

  lemma MoveKeepsCover(s: State, step: Step, o: OrderId)
    requires DeliveryInv(s) && Enabled(s, step) && !step.Handle? && !step.Settle? && !step.Execute? && Covered(s, o)
    ensures Covered(Apply(s, step), o)
  {
    if !AssignedFor(s.tables, o) {
      var x :| Covers(s, o, x);
      StillCovers(s, Apply(s, step), o, x);
    }
  }

  /** Only cancelling a dispatch takes it out of ASSIGNED, and that asks for the release. */
  lemma CommandedAssigned(t: Tables, c: Command, o: OrderId)
    requires TablesOk(t) && CommandAccepted(t, c) && AssignedFor(t, o)
    ensures var after := Commanded(t, c);
            || AssignedFor(after.tables, o)
            || (c.CancelDispatch? && |after.out| == 1 && after.out[0].ReleaseRequested? && after.out[0].orderId == o
                && after.out[0].eventId == c.event)
  {
    assert ReservationOk(t, o);
  }

  lemma ExecuteKeepsCover(s: State, c: Command, o: OrderId)
    requires DeliveryInv(s) && CommandEnabled(s, c) && ActiveOn(s.tables.db, o) && Covered(s, o)
    ensures Covered(Apply(s, Execute(c)), o)
  {
    var s' := Apply(s, Execute(c));
    if AssignedFor(s.tables, o) {
      CommandedAssigned(s.tables, c, o);
      var after := Commanded(s.tables, c);
      if !AssignedFor(after.tables, o) {
        assert after.out[0] in after.out;
        FreshCovers(s', o, after.out[0]);
      }
    } else {
      var x :| Covers(s, o, x);
      StillCovers(s, s', o, x);
    }
  }

  /** What a driver's answer does to an order with an active reservation. */
  lemma DriverResult(t: Tables, m: Message, c: Choice)
    requires TablesOk(t) && MessageOk(t, m) && m.DriverReserved? && ActiveOn(t.db, m.orderId)
    ensures !t.dispatches[m.dispatchId].status.Cancelled?
    ensures var after := Handled(t, m, c).value;
            || t.dispatches[m.dispatchId].status.Compensating?
            || AssignedFor(after.tables, m.orderId)
            || after.out == [ReleaseRequested(c.first, m.orderId, m.dispatchId, m.driverId)]
  {
    assert ReservationOk(t, m.orderId) && DispatchOk(t, m.dispatchId);
  }

  lemma FreshCovers(s: State, o: OrderId, m: Message)
    requires m in s.sent && m in s.pool && m.ReleaseRequested? && m.orderId == o && KeyOf(m) !in s.inbox
    ensures Covered(s, o)
  {
    assert Covers(s, o, m);
  }

  /** A compensating dispatch stays covered by its release request while another message is handled. */
  lemma CompensatingStays(s: State, i: nat, c: Choice, mark: Mark, acked: bool, o: OrderId, id: DispatchId)
    requires DeliveryInv(s) && Enabled(s, Handle(i, c, mark, acked)) && Consumer(s.pool[i]) == DispatchService
    requires Known(s.tables, id, o) && s.tables.dispatches[id].status.Compensating? && ActiveOn(s.tables.db, o)
    ensures Covered(Apply(s, Handle(i, c, mark, acked)), o)
  {
    CompensatingCovered(s, o, id);
    var x :| Covers(s, o, x) && x.ReleaseRequested?;
    OtherCovers(s, i, c, mark, acked, o, x);
  }

  /** The handler of a driver's answer leaves the order covered. */
  lemma AnswerCovers(s: State, i: nat, c: Choice, mark: Mark, acked: bool)
    requires DeliveryInv(s) && Enabled(s, Handle(i, c, mark, acked)) && s.pool[i].DriverReserved?
    requires ActiveOn(s.tables.db, s.pool[i].orderId)
    ensures Covered(Apply(s, Handle(i, c, mark, acked)), s.pool[i].orderId)
  {
    var s' := Apply(s, Handle(i, c, mark, acked));
    var m := s.pool[i];
    DriverResult(s.tables, m, c);
    var after := Handled(s.tables, m, c).value;
    if s.tables.dispatches[m.dispatchId].status.Compensating? {
      CompensatingStays(s, i, c, mark, acked, m.orderId, m.dispatchId);
    } else if !AssignedFor(after.tables, m.orderId) {
      assert after.out[0] in after.out;
      FreshCovers(s', m.orderId, after.out[0]);
    }
  }

  lemma FailureCovers(s: State, i: nat, c: Choice, mark: Mark, acked: bool, x: Message)
    requires DeliveryInv(s) && Enabled(s, Handle(i, c, mark, acked)) && s.pool[i].ReservationFailed?
    requires !HidesReservation(s, s.pool[i], mark)
    requires ActiveOn(s.tables.db, s.pool[i].orderId) && Covers(s, s.pool[i].orderId, x) && x.DriverReserved?
    ensures Covered(Apply(s, Handle(i, c, mark, acked)), s.pool[i].orderId)
  {
    var m := s.pool[i];
    FailureResult(s.tables, m, c);
    var status := s.tables.dispatches[m.dispatchId].status;
    if status.Compensating? {
      CompensatingStays(s, i, c, mark, acked, m.orderId, m.dispatchId);
    } else if !status.Assigned? {
      FailureCoversOpen(s, i, c, mark, acked, x);
    }
  }

  lemma FailureCoversOpen(s: State, i: nat, c: Choice, mark: Mark, acked: bool, x: Message)
    requires Enabled(s, Handle(i, c, mark, acked)) && s.pool[i].ReservationFailed?
    requires s.pool[i].dispatchId in s.tables.dispatches
    requires var status := s.tables.dispatches[s.pool[i].dispatchId].status; status.SearchingDriver? || status.Failed?
    requires !HidesReservation(s, s.pool[i], mark)
    requires ActiveOn(s.tables.db, s.pool[i].orderId) && Covers(s, s.pool[i].orderId, x) && x.DriverReserved?
    ensures Covered(Apply(s, Handle(i, c, mark, acked)), s.pool[i].orderId)
  {
    var o := s.pool[i].orderId;
    if mark.Processed? {
      var r :| Covers(s, o, r) && r.ReleaseRequested?;
      OtherCovers(s, i, c, mark, acked, o, r);
    } else {
      OtherCovers(s, i, c, mark, acked, o, x);
    }
  }

  /** A message under the same key as a covering one is its twin, or the other answer to the same request. */
  lemma SameKeyAsCover(s: State, m: Message, x: Message)
    requires KeysInv(s) && m in s.sent && x in s.sent && KeyOf(m) == KeyOf(x)
    requires x.DriverReserved? || x.ReleaseRequested?
    ensures m.orderId == x.orderId
    ensures x.DriverReserved? ==> m.DriverReserved? || m.ReservationFailed?
    ensures x.ReleaseRequested? ==> m.ReleaseRequested?
  {
    assert KeyOk(s.issued, s.requests, m) && KeyOk(s.issued, s.requests, x);
  }

  lemma HandleKeepsCover(s: State, i: nat, c: Choice, mark: Mark, acked: bool, o: OrderId)
    requires DeliveryInv(s) && Enabled(s, Handle(i, c, mark, acked)) && !Leaks(s, Handle(i, c, mark, acked))
    requires ActiveOn(s.tables.db, o) && ActiveOn(Apply(s, Handle(i, c, mark, acked)).tables.db, o) && Covered(s, o)
    ensures Covered(Apply(s, Handle(i, c, mark, acked)), o)
  {
    var s' := Apply(s, Handle(i, c, mark, acked));
    var m := s.pool[i];
    if AssignedFor(s.tables, o) {
      HandleKeepsAssigned(s, i, c, mark, acked, o);
    } else {
      var x :| Covers(s, o, x);
      if KeyOf(m) != KeyOf(x) {
        OtherCovers(s, i, c, mark, acked, o, x);
      } else {
        SameKeyAsCover(s, m, x);
        if m.ReleaseRequested? {
          ReleaseKeepsConsistent(s.tables.db, m);
        } else if m.DriverReserved? {
          AnswerCovers(s, i, c, mark, acked);
        } else {
          FailureCovers(s, i, c, mark, acked, x);
        }
      }
    }
  }

  /** No handler takes a dispatch out of ASSIGNED. */
  lemma AssignedKept(t: Tables, m: Message, c: Choice, id: DispatchId)
    requires id in t.dispatches && t.dispatches[id].status.Assigned? && ChoiceAllowed(t, m, c) && Handled(t, m, c).Some?
    ensures id in Handled(t, m, c).value.tables.dispatches
    ensures Handled(t, m, c).value.tables.dispatches[id] == t.dispatches[id]
  {
  }

  lemma HandleKeepsAssigned(s: State, i: nat, c: Choice, mark: Mark, acked: bool, o: OrderId)
    requires Inv(s) && Enabled(s, Handle(i, c, mark, acked)) && AssignedFor(s.tables, o)
    ensures AssignedFor(Apply(s, Handle(i, c, mark, acked)).tables, o)
  {
    HandledKeeps(s.tables, s.pool[i], c);
    AssignedKept(s.tables, s.pool[i], c, s.tables.db.reservations[o].dispatchId);
  }

  /** Only a reservation request makes a reservation active, and then it answers so. */
  lemma HandledActivates(t: Tables, m: Message, c: Choice, o: OrderId)
    requires ChoiceAllowed(t, m, c) && Handled(t, m, c).Some?
    requires !ActiveOn(t.db, o) && ActiveOn(Handled(t, m, c).value.tables.db, o)
    ensures m.ReservationRequested? && m.orderId == o
    ensures ReserveEffect(t.db, m, c.pick).Committed? && ReserveEffect(t.db, m, c.pick).reply.DriverReserved?
  {
  }

  lemma NewlyCovered(s: State, i: nat, c: Choice, mark: Mark, acked: bool, o: OrderId)
    requires DeliveryInv(s) && Enabled(s, Handle(i, c, mark, acked)) && !Leaks(s, Handle(i, c, mark, acked))
    requires !ActiveOn(s.tables.db, o) && ActiveOn(Apply(s, Handle(i, c, mark, acked)).tables.db, o)
    ensures Covered(Apply(s, Handle(i, c, mark, acked)), o)
  {
    var m := s.pool[i];
    HandledActivates(s.tables, m, c, o);
    NewReservation(s.tables, m, c.pick);
    var change := OnRequest(s.tables, m, c.pick).value;
    var s' := AfterCommit(Settled(s, i, mark, acked), change);
    ReplyCovers(s, s', m, change.out[0]);
  }

  lemma ReplyCovers(s: State, s': State, m: Message, reply: Message)
    requires m.ReservationRequested? && reply.DriverReserved? && reply.orderId == m.orderId
    requires reply.eventId == m.eventId
    requires reply in s'.sent && reply in s'.pool && InboxKey(DispatchService, m.eventId) !in s.inbox
    requires forall k :: k in s'.inbox ==> k in s.inbox || k == KeyOf(m)
    ensures Covered(s', m.orderId)
  {
    assert Covers(s', m.orderId, reply);
  }

  /**
   * A reservation answer that has been handled leaves its order covered by something else, unless it hides the
   * reservation.
   */
  lemma HandledAnswerCovers(s: State, m: Message, mark: Mark)
    requires DeliveryInv(s) && m in s.ran && (m.DriverReserved? || m.ReservationFailed?)
    requires ActiveOn(s.tables.db, m.orderId)
    requires m.ReservationFailed? ==> mark.Processed? && !HidesReservation(s, m, mark)
    ensures AssignedFor(s.tables, m.orderId) || exists r :: Covers(s, m.orderId, r) && r.ReleaseRequested?
  {
    assert RanEffected(s, m) && MessageOk(s.tables, m);
    assert ReservationOk(s.tables, m.orderId) && DispatchOk(s.tables, m.dispatchId);
    var status := s.tables.dispatches[m.dispatchId].status;
    if status.Compensating? {
      CompensatingCovered(s, m.orderId, m.dispatchId);
    } else if status.Failed? && m.DriverReserved? {
      AskedCovers(s, m.orderId, m.dispatchId);
    }
  }

  lemma SettleKeepsCover(s: State, i: nat, mark: Mark, acked: bool, o: OrderId)
    requires DeliveryInv(s) && Enabled(s, Settle(i, mark, acked)) && !Leaks(s, Settle(i, mark, acked))
    requires ActiveOn(s.tables.db, o) && Covered(s, o)
    ensures Covered(Apply(s, Settle(i, mark, acked)), o)
  {
    if !AssignedFor(s.tables, o) {
      var x :| Covers(s, o, x);
      var m := s.pool[i];
      if KeyOf(m) != KeyOf(x) || (m != x && !mark.Processed?) {
        SettledCovers(s, i, mark, acked, o, x);
      } else {
        SameKeyAsCover(s, m, x);
        assert RanEffected(s, m);
        if !m.ReleaseRequested? {
          HandledAnswerCovers(s, m, mark);
          var r :| Covers(s, o, r) && r.ReleaseRequested?;
          ReleaseKeyDiffers(m, r);
          SettledCovers(s, i, mark, acked, o, r);
        }
      }
    }
  }

  lemma SettledCovers(s: State, i: nat, mark: Mark, acked: bool, o: OrderId, x: Message)
    requires Enabled(s, Settle(i, mark, acked)) && Covers(s, o, x) && x != s.pool[i]
    requires KeyOf(x) != KeyOf(s.pool[i]) || !mark.Processed?
    ensures Covered(Apply(s, Settle(i, mark, acked)), o)
  {
    StillCovers(s, Apply(s, Settle(i, mark, acked)), o, x);
  }

  lemma ReleaseKeyDiffers(m: Message, r: Message)
    requires (m.DriverReserved? || m.ReservationFailed?) && r.ReleaseRequested?
    ensures KeyOf(m) != KeyOf(r)
  {
  }

  /** A step keeps capacity accounted for if and only if it is not one of the two that leak. */
  lemma StepLeaksExactly(s: State, step: Step)
    requires DeliveryInv(s) && NoLeak(s) && Enabled(s, step)
    ensures NoLeak(Apply(s, step)) <==> !Leaks(s, step)
  {
    var s' := Apply(s, step);
    if Leaks(s, step) {
      StepKeepsDelivery(s, step);
      if step.Handle? && ReservesUnheard(s, s.pool[step.at], step.choice) {
        UnheardLeaks(s, s', step.at, step.choice, step.mark, step.acked);
      } else if step.Settle? {
        LateHidingLeaks(s, s', step.at, step.mark, step.acked);
      } else {
        HidingLeaks(s, s', step.at, step.choice, step.mark, step.acked);
      }
    } else {
      forall o | ActiveOn(s'.tables.db, o)
        ensures Covered(s', o)
      {
        StepKeepsCover(s, step, o);
      }
    }
  }

  lemma StepKeepsCover(s: State, step: Step, o: OrderId)
    requires DeliveryInv(s) && Enabled(s, step) && !Leaks(s, step)
    requires ActiveOn(s.tables.db, o) ==> Covered(s, o)
    requires ActiveOn(Apply(s, step).tables.db, o)
    ensures Covered(Apply(s, step), o)
  {
    match step
    case Execute(c) => ExecuteKeepsCover(s, c, o);
    case Handle(i, c, mark, acked) =>
      if ActiveOn(s.tables.db, o) {
        HandleKeepsCover(s, i, c, mark, acked, o);
      } else {
        NewlyCovered(s, i, c, mark, acked, o);
      }
    case Settle(i, mark, acked) => SettleKeepsCover(s, i, mark, acked, o);
    case Fail(_, _) => MoveKeepsCover(s, step, o);
    case Drop(_) => MoveKeepsCover(s, step, o);
    case DeadLetter(_) => MoveKeepsCover(s, step, o);
    case Redeliver(_) => MoveKeepsCover(s, step, o);
  }

  // ----- runs -----

  /** Capacity is accounted for in every state of the run. */
  ghost predicate NeverLeaks(s: State, steps: seq<Step>)
    requires Legal(s, steps)
    decreases |steps|
  {
    NoLeak(s) && (steps != [] ==> NeverLeaks(Apply(s, steps[0]), steps[1..]))
  }

  ghost predicate NoLeakingStep(s: State, steps: seq<Step>)
    requires Legal(s, steps)
    decreases |steps|
  {
    steps != [] ==> !Leaks(s, steps[0]) && NoLeakingStep(Apply(s, steps[0]), steps[1..])
  }

  lemma {:induction false} RunLeaksExactly(s: State, steps: seq<Step>)
    requires DeliveryInv(s) && NoLeak(s) && Legal(s, steps)
    ensures NeverLeaks(s, steps) <==> NoLeakingStep(s, steps)
    decreases |steps|
  {
    if steps != [] {
      StepKeepsDelivery(s, steps[0]);
      StepLeaksExactly(s, steps[0]);
      if NoLeak(Apply(s, steps[0])) {
        RunLeaksExactly(Apply(s, steps[0]), steps[1..]);
      }
    }
  }

  /** No reservation request succeeds once it has been answered with a failure. */
  ghost predicate Guarded(s: State, step: Step) {
    step.Handle? && step.at < |s.pool| && NewlyReserves(s, s.pool[step.at], step.choice) ==>
      !exists f :: f in s.sent && f.ReservationFailed? && f.eventId == s.pool[step.at].eventId
  }

  ghost predicate GuardedRun(s: State, steps: seq<Step>)
    requires Legal(s, steps)
    decreases |steps|
  {
    steps != [] ==> Guarded(s, steps[0]) && GuardedRun(Apply(s, steps[0]), steps[1..])
  }

  /** An order whose request was answered with a failure has no active reservation. */
  ghost predicate FailuresFinal(s: State) {
    forall f :: f in s.sent && f.ReservationFailed? ==> !ActiveOn(s.tables.db, f.orderId)
  }

  /** A marked answer key of an order without a reservation means a failure answer was sent. */
  lemma MarkedAnswerSent(s: State, m: Message)
    requires DeliveryInv(s) && m in s.sent && m.ReservationRequested? && InboxKey(DispatchService, m.eventId) in s.inbox
    ensures m.orderId in s.tables.db.reservations
            || exists f :: f in s.sent && f.ReservationFailed? && f.eventId == m.eventId
  {
    assert MarkedAfterEffect(s, InboxKey(DispatchService, m.eventId));
    var x :| x in s.sent && KeyOf(x) == InboxKey(DispatchService, m.eventId) && Effected(s.tables, s.sent, s.ran, x);
    MarkedByAnswer(s.issued, s.requests, m, x);
    assert MessageOk(s.tables, x);
  }

  lemma MarkedByAnswer(issued: map<EventId, Message>, requests: map<DispatchId, EventId>, m: Message, x: Message)
    requires KeyOk(issued, requests, m) && KeyOk(issued, requests, x) && m.ReservationRequested?
    requires KeyOf(x) == InboxKey(DispatchService, m.eventId)
    ensures (x.DriverReserved? || x.ReservationFailed?) && x.orderId == m.orderId
  {
  }

  lemma GuardedNeverLeaks(s: State, step: Step)
    requires DeliveryInv(s) && Enabled(s, step) && Guarded(s, step) && FailuresFinal(s)
    ensures !Leaks(s, step)
  {
    if Leaks(s, step) {
      var m := s.pool[step.at];
      assert m in s.sent;
      if step.Handle? && ReservesUnheard(s, m, step.choice) {
        MarkedAnswerSent(s, m);
      }
    }
  }

  lemma GuardedKeepsFinal(s: State, step: Step)
    requires DeliveryInv(s) && Enabled(s, step) && Guarded(s, step) && FailuresFinal(s)
    ensures FailuresFinal(Apply(s, step))
  {
    var s' := Apply(s, step);
    forall f | f in s'.sent && f.ReservationFailed?
      ensures !ActiveOn(s'.tables.db, f.orderId)
    {
      if ActiveOn(s'.tables.db, f.orderId) {
        FailureBeforeReservation(s, step, f);
      }
    }
  }

  /** A failure is answered only for an order without an active reservation. */
  lemma FailureAnswered(t: Tables, m: Message, c: Choice, f: Message)
    requires ChoiceAllowed(t, m, c) && Handled(t, m, c).Some? && f in Handled(t, m, c).value.out && f.ReservationFailed?
    ensures !ActiveOn(Handled(t, m, c).value.tables.db, f.orderId)
  {
  }

  lemma CommandedReservations(t: Tables, c: Command)
    requires CommandAccepted(t, c)
    ensures Commanded(t, c).tables.db.reservations == t.db.reservations
    ensures forall f :: f in Commanded(t, c).out ==> !f.ReservationFailed?
  {
  }

  lemma HandleBreaksGuard(s: State, i: nat, c: Choice, mark: Mark, acked: bool, f: Message)
    requires Inv(s) && KeysInv(s) && Enabled(s, Handle(i, c, mark, acked)) && f.ReservationFailed?
    requires f in s.sent && !ActiveOn(s.tables.db, f.orderId)
    requires ActiveOn(Handled(s.tables, s.pool[i], c).value.tables.db, f.orderId)
    ensures !Guarded(s, Handle(i, c, mark, acked))
  {
    HandledActivates(s.tables, s.pool[i], c, f.orderId);
    AnswersShareKey(s, s.pool[i], f);
  }

  lemma FailureBeforeReservation(s: State, step: Step, f: Message)
    requires DeliveryInv(s) && Enabled(s, step) && FailuresFinal(s)
    requires f.ReservationFailed? && f in Apply(s, step).sent && ActiveOn(Apply(s, step).tables.db, f.orderId)
    ensures !Guarded(s, step)
  {
    match step
    case Execute(c) => CommandedReservations(s.tables, c);
    case Handle(i, c, mark, acked) =>
      if f in s.sent {
        HandleBreaksGuard(s, i, c, mark, acked, f);
      } else {
        FailureAnswered(s.tables, s.pool[i], c, f);
      }
    case Settle(_, _, _) =>
    case Fail(_, _) =>
    case Drop(_) =>
    case DeadLetter(_) =>
    case Redeliver(_) =>
  }

  lemma {:induction false} GuardedRunNeverLeaks(s: State, steps: seq<Step>)
    requires DeliveryInv(s) && NoLeak(s) && FailuresFinal(s) && Legal(s, steps) && GuardedRun(s, steps)
    ensures NoLeakingStep(s, steps) && NoLeak(Run(s, steps)) && DeliveryInv(Run(s, steps))
    decreases |steps|
  {
    if steps != [] {
      StepKeepsDelivery(s, steps[0]);
      GuardedNeverLeaks(s, steps[0]);
      StepLeaksExactly(s, steps[0]);
      GuardedKeepsFinal(s, steps[0]);
      GuardedRunNeverLeaks(Apply(s, steps[0]), steps[1..]);
    }
  }

  /**
   * In every guarded run each active reservation is an assigned one or has a message on its way that will settle it.
   */
  lemma NoLeakedCapacity(steps: seq<Step>, o: OrderId)
    requires Legal(INITIAL, steps) && GuardedRun(INITIAL, steps)
    requires ActiveOn(Run(INITIAL, steps).tables.db, o)
    ensures Covered(Run(INITIAL, steps), o)
  {
    InitialDeliveryInv();
    GuardedRunNeverLeaks(INITIAL, steps);
  }

  ghost predicate AssignedTo(t: Tables, o: OrderId, d: DriverId) {
    exists id :: Known(t, id, o) && t.dispatches[id].status.Assigned? && t.dispatches[id].driverId == Some(d)
  }

  lemma HeldIsAssigned(t: Tables, o: OrderId, d: DriverId)
    requires TablesOk(t) && AssignedFor(t, o) && t.db.reservations[o].driverId == d
    ensures AssignedTo(t, o, d)
  {
    var id := t.db.reservations[o].dispatchId;
    assert ReservationOk(t, o) && DispatchOk(t, id) && ValidDispatch(t.dispatches[id]);
    assert Known(t, id, o);
  }

  lemma AssignedToHolds(t: Tables, o: OrderId, d: DriverId)
    requires TablesOk(t) && AssignedTo(t, o, d)
    ensures ActiveOn(t.db, o) && t.db.reservations[o].driverId == d
  {
    var id :| Known(t, id, o) && t.dispatches[id].status.Assigned? && t.dispatches[id].driverId == Some(d);
    assert DispatchOk(t, id) && ReservationOk(t, o);
  }

  lemma QuietAssigned(s: State, o: OrderId)
    requires NoLeak(s) && Quiet(s) && ActiveOn(s.tables.db, o)
    ensures AssignedFor(s.tables, o)
  {
    assert Covered(s, o);
  }

  /** With nothing left to deliver, the orders a driver holds are exactly those of the dispatches ASSIGNED to it. */
  lemma QuietCapacity(steps: seq<Step>, d: DriverId, o: OrderId)
    requires Legal(INITIAL, steps) && GuardedRun(INITIAL, steps) && Quiet(Run(INITIAL, steps))
    requires d in Run(INITIAL, steps).tables.db.drivers
    ensures var t := Run(INITIAL, steps).tables; o in t.db.drivers[d].reservedOrderIds <==> AssignedTo(t, o, d)
  {
    InitialDeliveryInv();
    GuardedRunNeverLeaks(INITIAL, steps);
    QuietHolds(Run(INITIAL, steps), d, o);
  }

  lemma QuietHolds(s: State, d: DriverId, o: OrderId)
    requires Inv(s) && NoLeak(s) && Quiet(s) && d in s.tables.db.drivers
    ensures o in s.tables.db.drivers[d].reservedOrderIds <==> AssignedTo(s.tables, o, d)
  {
    if o in s.tables.db.drivers[d].reservedOrderIds {
      QuietAssigned(s, o);
      HeldIsAssigned(s.tables, o, d);
    }
    if AssignedTo(s.tables, o, d) {
      AssignedToHolds(s.tables, o, d);
    }
  }
}
