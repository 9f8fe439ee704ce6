/**
 * The driver service's reserve and release transactions: what one committed
 * transaction does to the driver rows, the reservation rows and the outbox.
 */
module Reservations {
  import opened Prelude
  import opened Messages
  import opened Drivers

  datatype ReservationStatus = Active | Released

  /** A reservation row; its order id is the key, because that column is unique. */
  datatype Reservation = Reservation(dispatchId: DispatchId, driverId: DriverId, status: ReservationStatus)

  datatype DriverDb = DriverDb(drivers: map<DriverId, DriverRow>, reservations: map<OrderId, Reservation>)

  predicate ActiveOn(db: DriverDb, o: OrderId) {
    o in db.reservations && db.reservations[o].status.Active?
  }

  /** The condition in the driver queries. */
  predicate Eligible(r: DriverRow) {
    r.status.Available? && |r.reservedOrderIds| < r.capacity
  }

  predicate EligibleIn(drivers: map<DriverId, DriverRow>, d: DriverId) {
    d in drivers && Eligible(drivers[d])
  }

  // ----- the effect of a committed transaction -----

  datatype Effect = Committed(db: DriverDb, reply: Message) | Aborted

  /** A driver the reserve transaction may have locked: eligible and, if candidates were named, one of them. */
  predicate PickAllowed(db: DriverDb, m: Message, pick: Option<DriverId>)
    requires m.ReservationRequested?
  {
    pick.Some? ==> EligibleIn(db.drivers, pick.value) && (m.candidates.Some? ==> pick.value in m.candidates.value)
  }

  /**
   * Reserve with the driver row the transaction locked, if any. An active reservation is answered again;
   * after a release the insert violates the unique order id and the whole transaction is rolled back.
   */
  function ReserveEffect(db: DriverDb, m: Message, pick: Option<DriverId>): Effect
    requires m.ReservationRequested? && PickAllowed(db, m, pick)
  {
    var o := m.orderId;
    if ActiveOn(db, o) then
      Committed(db, DriverReserved(m.eventId, o, m.dispatchId, db.reservations[o].driverId))
    else if m.candidates == Some([]) then
      Committed(db, ReservationFailed(m.eventId, o, m.dispatchId, NoGeoEligibleDriver))
    else if pick.None? then
      Committed(db, ReservationFailed(m.eventId, o, m.dispatchId, NoAvailableDriver))
    else
      var row := ReservedRow(db.drivers[pick.value], o);
      if row.Failure? || o in db.reservations then Aborted
      else
        Committed(
          DriverDb(db.drivers[pick.value := row.value],
                   db.reservations[o := Reservation(m.dispatchId, pick.value, Active)]),
          DriverReserved(m.eventId, o, m.dispatchId, pick.value))
  }

  function ReleaseEffect(db: DriverDb, m: Message): Effect
    requires m.ReleaseRequested?
  {
    var o := m.orderId;
    if !ActiveOn(db, o) then
      Committed(db, DriverReleased(m.eventId, o, m.dispatchId,
                                   if o in db.reservations then db.reservations[o].driverId else m.driverId))
    else
      var held := db.reservations[o];
      var drivers := if held.driverId in db.drivers
                     then db.drivers[held.driverId := ReleasedRow(db.drivers[held.driverId], o)] else db.drivers;
      Committed(DriverDb(drivers, db.reservations[o := held.(status := Released)]),
                DriverReleased(m.eventId, o, m.dispatchId, held.driverId))
  }

  // ----- the tables stay consistent -----

  /**
   * Every row is valid, and a driver holds exactly the orders with an active reservation on it.
   */
  ghost predicate Consistent(db: DriverDb) {
    && (forall d :: d in db.drivers ==> ValidRow(db.drivers[d]))
    && (forall d, o :: d in db.drivers ==>
          (o in db.drivers[d].reservedOrderIds <==> ActiveOn(db, o) && db.reservations[o].driverId == d))
    && (forall o :: ActiveOn(db, o) ==> db.reservations[o].driverId in db.drivers)
  }

  /** What no transaction undoes: a reservation keeps its driver and dispatch, and a released one stays released. */
  ghost predicate Evolves(a: DriverDb, b: DriverDb) {
    && (forall o :: o in a.reservations ==>
          && o in b.reservations
          && b.reservations[o].driverId == a.reservations[o].driverId
          && b.reservations[o].dispatchId == a.reservations[o].dispatchId
          && (a.reservations[o].status.Released? ==> b.reservations[o].status.Released?))
    && a.drivers.Keys <= b.drivers.Keys
  }

  lemma EvolvesTransitive(a: DriverDb, b: DriverDb, c: DriverDb)
    requires Evolves(a, b) && Evolves(b, c)
    ensures Evolves(a, c)
  {
  }

  lemma ReserveKeepsConsistent(db: DriverDb, m: Message, pick: Option<DriverId>)
    requires m.ReservationRequested? && PickAllowed(db, m, pick) && Consistent(db)
    requires ReserveEffect(db, m, pick).Committed?
    ensures Consistent(ReserveEffect(db, m, pick).db) && Evolves(db, ReserveEffect(db, m, pick).db)
  {
    if !ActiveOn(db, m.orderId) && m.candidates != Some([]) && pick.Some? {
      ReservedRowValid(db.drivers[pick.value], m.orderId);
    }
  }

  lemma ReleaseKeepsConsistent(db: DriverDb, m: Message)
    requires m.ReleaseRequested? && Consistent(db)
    ensures Consistent(ReleaseEffect(db, m).db) && Evolves(db, ReleaseEffect(db, m).db)
    ensures !ActiveOn(ReleaseEffect(db, m).db, m.orderId)
  {
    if ActiveOn(db, m.orderId) {
      ReleasedRowValid(db.drivers[db.reservations[m.orderId].driverId], m.orderId);
    }
  }

  lemma SwitchKeepsConsistent(db: DriverDb, d: DriverId, status: DriverStatus)
    requires Consistent(db) && d in db.drivers && !status.Reserved? && SwitchedRow(db.drivers[d], status).Success?
    ensures Consistent(db.(drivers := db.drivers[d := SwitchedRow(db.drivers[d], status).value]))
  {
    var after := db.(drivers := db.drivers[d := SwitchedRow(db.drivers[d], status).value]);
    SwitchedRowValid(db.drivers[d], status);
    assert forall o :: ActiveOn(after, o) <==> ActiveOn(db, o);
  }

  /** A driver is eligible exactly when it can take an order it does not hold yet. */
  lemma EligibleExactly(r: DriverRow, o: OrderId)
    requires ValidRow(r) && o !in r.reservedOrderIds
    ensures Eligible(r) <==> ReservedRow(r, o).Success?
    ensures Eligible(r) <==> r.status.Available?
  {
    ReservedRowValid(r, o);
  }

  /** With an eligible driver locked and no earlier reservation, a reserve always succeeds on that driver. */
  lemma ReserveSucceeds(db: DriverDb, m: Message, d: DriverId)
    requires m.ReservationRequested? && PickAllowed(db, m, Some(d)) && Consistent(db)
    requires m.orderId !in db.reservations && m.candidates != Some([])
    ensures ReserveEffect(db, m, Some(d)).Committed?
    ensures var after := ReserveEffect(db, m, Some(d)).db;
            ActiveOn(after, m.orderId) && after.reservations[m.orderId].driverId == d
  {
    ReservedRowValid(db.drivers[d], m.orderId);
  }

  /**
   * What a reserve does, by case: it repeats an active reservation; refuses when no candidate was named, and when none
   * was found; is rolled back exactly when it would reserve a second time after a release; and otherwise reserves.
   */
  lemma ReserveExactly(db: DriverDb, m: Message, pick: Option<DriverId>)
    requires m.ReservationRequested? && PickAllowed(db, m, pick) && Consistent(db)
    ensures
      var effect, o := ReserveEffect(db, m, pick), m.orderId;
      && (effect.Aborted? <==> !ActiveOn(db, o) && m.candidates != Some([]) && pick.Some? && o in db.reservations)
      && (ActiveOn(db, o) || m.candidates == Some([]) || pick.None? ==> effect.Committed? && effect.db == db)
      && (effect.Committed? ==>
            && effect.reply.orderId == o && effect.reply.dispatchId == m.dispatchId && effect.reply.eventId == m.eventId
            && (effect.reply.DriverReserved? <==> ActiveOn(effect.db, o))
            && (effect.reply.DriverReserved? ==> effect.reply.driverId == effect.db.reservations[o].driverId)
            && (effect.reply.ReservationFailed? <==> !ActiveOn(effect.db, o)))
      && (effect.Committed? && effect.reply.DriverReserved? && !ActiveOn(db, o) ==>
            && effect.db.reservations[o] == Reservation(m.dispatchId, pick.value, Active)
            && forall x :: x in db.reservations ==> effect.db.reservations[x] == db.reservations[x])
  {
    if pick.Some? {
      ReservedRowValid(db.drivers[pick.value], m.orderId);
    }
  }

  /** Serving the same request again changes nothing and gives the same answer. */
  lemma ReserveIdempotent(db: DriverDb, m: Message, pick: Option<DriverId>, again: Option<DriverId>)
    requires m.ReservationRequested? && PickAllowed(db, m, pick)
    requires ReserveEffect(db, m, pick).Committed? && ReserveEffect(db, m, pick).reply.DriverReserved?
    requires PickAllowed(ReserveEffect(db, m, pick).db, m, again)
    ensures ReserveEffect(ReserveEffect(db, m, pick).db, m, again) == ReserveEffect(db, m, pick)
  {
  }

  // ----- which driver is taken -----

  /** The first named candidate that is eligible and whose row nobody else has locked. */
  function FirstEligible(drivers: map<DriverId, DriverRow>, locked: set<DriverId>,
                         candidates: seq<DriverId>): Option<DriverId> {
    if candidates == [] then None
    else if EligibleIn(drivers, candidates[0]) && candidates[0] !in locked then Some(candidates[0])
    else FirstEligible(drivers, locked, candidates[1..])
  }

  lemma {:induction false} FirstEligibleIsFirst(drivers: map<DriverId, DriverRow>, locked: set<DriverId>,
                                                candidates: seq<DriverId>)
    ensures
      match FirstEligible(drivers, locked, candidates)
      case None => forall k :: 0 <= k < |candidates| ==> !EligibleIn(drivers, candidates[k]) || candidates[k] in locked
      case Some(d) =>
        exists k :: 0 <= k < |candidates| && candidates[k] == d && EligibleIn(drivers, d) && d !in locked
                    && forall j :: 0 <= j < k ==> !EligibleIn(drivers, candidates[j]) || candidates[j] in locked
  {
    if candidates != [] {
      var rest := candidates[1..];
      FirstEligibleIsFirst(drivers, locked, rest);
      match FirstEligible(drivers, locked, candidates)
      case None =>
        forall k | 0 <= k < |candidates|
          ensures !EligibleIn(drivers, candidates[k]) || candidates[k] in locked
        {
          assert k > 0 ==> candidates[k] == rest[k - 1];
        }
      case Some(d) =>
        if candidates[0] != d || !EligibleIn(drivers, d) || d in locked {
          var k :| 0 <= k < |rest| && rest[k] == d && EligibleIn(drivers, d) && d !in locked
                   && forall j :: 0 <= j < k ==> !EligibleIn(drivers, rest[j]) || rest[j] in locked;
          forall j | 0 <= j < k + 1
            ensures !EligibleIn(drivers, candidates[j]) || candidates[j] in locked
          {
            assert j > 0 ==> candidates[j] == rest[j - 1];
          }
          assert candidates[k + 1] == d;
        }
    }
  }

  /** The order of the query without candidates: fewest held orders first, then the older driver. */
  predicate NoBusier(a: DriverRow, b: DriverRow) {
    || |a.reservedOrderIds| < |b.reservedOrderIds|
    || (|a.reservedOrderIds| == |b.reservedOrderIds| && a.createdAt <= b.createdAt)
  }

  predicate LeastBusy(drivers: map<DriverId, DriverRow>, locked: set<DriverId>, d: DriverId) {
    && EligibleIn(drivers, d) && d !in locked
    && forall e :: e in drivers && EligibleIn(drivers, e) && e !in locked ==> NoBusier(drivers[d], drivers[e])
  }

  lemma LeastBusyExists(drivers: map<DriverId, DriverRow>, locked: set<DriverId>, open: set<DriverId>)
    requires open != {} && forall d :: d in open ==> d in drivers
    ensures exists d :: d in open && forall e :: e in open ==> NoBusier(drivers[d], drivers[e])
  {
    var d :| d in open;
    if open == {d} {
    } else {
      LeastBusyExists(drivers, locked, open - {d});
      var e :| e in open - {d} && forall f :: f in open - {d} ==> NoBusier(drivers[e], drivers[f]);
      if NoBusier(drivers[e], drivers[d]) {
        assert forall f :: f in open ==> NoBusier(drivers[e], drivers[f]);
      } else {
        assert forall f :: f in open ==> NoBusier(drivers[d], drivers[f]);
      }
    }
  }

  /** The driver the transaction takes while others hold the rows in `locked`. */
  ghost predicate Takes(drivers: map<DriverId, DriverRow>, locked: set<DriverId>, m: Message, pick: Option<DriverId>)
    requires m.ReservationRequested?
  {
    if m.candidates.Some? then pick == FirstEligible(drivers, locked, m.candidates.value)
    else if pick.Some? then LeastBusy(drivers, locked, pick.value)
    else forall d :: d in drivers && EligibleIn(drivers, d) ==> d in locked
  }

  /** The tables of the driver service and the transactions over them, one transaction at a time. */
  class ReservationStore {
    var drivers: map<DriverId, DriverRow>
    var reservations: map<OrderId, Reservation>
    var outbox: seq<Message>

    ghost function Db(): DriverDb
      reads this
    {
      DriverDb(drivers, reservations)
    }

    constructor (drivers: map<DriverId, DriverRow>)
      ensures Db() == DriverDb(drivers, map[]) && outbox == []
    {
      this.drivers := drivers;
      reservations, outbox := map[], [];
    }

    method Enqueue(m: Message)
      modifies this`outbox
      ensures outbox == old(outbox) + [m]
    {
      outbox := outbox + [m];
    }

    /** Reserve while other transactions hold the driver rows in `locked`; false when it is rolled back. */
    method Reserve(input: Message, locked: set<DriverId>) returns (committed: bool, ghost pick: Option<DriverId>)
      requires input.ReservationRequested?
      modifies this
      ensures PickAllowed(old(Db()), input, pick)
      ensures ActiveOn(old(Db()), input.orderId) || Takes(old(drivers), locked, input, pick)
      ensures var effect := ReserveEffect(old(Db()), input, pick);
              && (committed <==> effect.Committed?)
              && (committed ==> Db() == effect.db && outbox == old(outbox) + [effect.reply])
              && (!committed ==> Db() == old(Db()) && outbox == old(outbox))
    {
      pick := None;
      var orderId := input.orderId;
      if orderId in reservations && reservations[orderId].status.Active? {
        Enqueue(DriverReserved(input.eventId, orderId, input.dispatchId, reservations[orderId].driverId));
        return true, pick;
      }
      var entity: Option<DriverId> := None;
      if input.candidates.Some? {
        var candidates := input.candidates.value;
        if |candidates| == 0 {
          Enqueue(ReservationFailed(input.eventId, orderId, input.dispatchId, NoGeoEligibleDriver));
          return true, pick;
        }
        var k := 0;
        while k < |candidates| && entity.None?
          invariant k <= |candidates|
          invariant entity.None? ==>
                      FirstEligible(drivers, locked, candidates) == FirstEligible(drivers, locked, candidates[k..])
          invariant entity.Some? ==> entity == FirstEligible(drivers, locked, candidates)
                                     && EligibleIn(drivers, entity.value) && entity.value in candidates
        {
          var candidate := candidates[k];
          assert candidates[k..][1..] == candidates[k + 1..];
          if candidate in drivers && candidate !in locked && Eligible(drivers[candidate]) {
            entity := Some(candidate);
          }
          k := k + 1;
        }
      } else {
        entity := QueryLeastBusy(locked);
      }
      pick := entity;
      if entity.None? {
        Enqueue(ReservationFailed(input.eventId, orderId, input.dispatchId, NoAvailableDriver));
        return true, pick;
      }
      var driver := new Driver.Rehydrate(drivers[entity.value]);
      var error := driver.Reserve(orderId);
      if error.Some? { return false, pick; }
      if orderId in reservations { return false, pick; }
      drivers := drivers[entity.value :=
        DriverRow(driver.capacity, driver.reservedOrderIds, driver.status, driver.createdAt)];
      reservations := reservations[orderId := Reservation(input.dispatchId, entity.value, Active)];
      Enqueue(DriverReserved(input.eventId, orderId, input.dispatchId, entity.value));
      committed := true;
    }

    /** The query without candidates: an unlocked eligible driver that is least busy, if there is one. */
    method QueryLeastBusy(locked: set<DriverId>) returns (entity: Option<DriverId>)
      ensures entity.Some? ==> LeastBusy(drivers, locked, entity.value)
      ensures entity.None? ==> forall d :: d in drivers && EligibleIn(drivers, d) ==> d in locked
      ensures entity.Some? ==> forall d :: d in drivers && EligibleIn(drivers, d) && d !in locked ==>
                var load, best := |drivers[d].reservedOrderIds|, |drivers[entity.value].reservedOrderIds|;
                best < load || (best == load && drivers[entity.value].createdAt <= drivers[d].createdAt)
    {
      var open := set d | d in drivers && EligibleIn(drivers, d) && d !in locked;
      assert forall d :: d in drivers && EligibleIn(drivers, d) && d !in locked ==> d in open;
      if open == {} { return None; }
      LeastBusyExists(drivers, locked, open);
      var d :| d in open && forall e :: e in open ==> NoBusier(drivers[d], drivers[e]);
      entity := Some(d);
    }

    /** Release; it never fails. */
    method Release(input: Message)
      requires input.ReleaseRequested?
      modifies this
      ensures Db() == ReleaseEffect(old(Db()), input).db
      ensures outbox == old(outbox) + [ReleaseEffect(old(Db()), input).reply]
    {
      var orderId := input.orderId;
      if orderId !in reservations || reservations[orderId].status.Released? {
        var driverId := if orderId in reservations then reservations[orderId].driverId else input.driverId;
        Enqueue(DriverReleased(input.eventId, orderId, input.dispatchId, driverId));
        return;
      }
      var reservation := reservations[orderId];
      if reservation.driverId in drivers {
        var driver := new Driver.Rehydrate(drivers[reservation.driverId]);
        driver.Release(orderId);
        drivers := drivers[reservation.driverId :=
          DriverRow(driver.capacity, driver.reservedOrderIds, driver.status, driver.createdAt)];
      }
      reservations := reservations[orderId := reservation.(status := Released)];
      Enqueue(DriverReleased(input.eventId, orderId, input.dispatchId, reservation.driverId));
    }
  }
}
