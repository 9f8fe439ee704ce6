/**
 * Reserve and release as interleaved database transactions: an advisory lock per order, row locks on
 * drivers, reads of committed rows, and one commit. Every interleaving refines the atomic effects.
 */
module ReservationLocks {
  import opened Prelude
  import opened Messages
  import opened Drivers
  import opened Reservations

  type TxId = nat

  /** The advisory lock is on a hash of the order id, so different orders may share a lock. */
  type LockKey = OrderId -> int

  /** Where a transaction stands, with the rows it has read so far. */
  datatype Pc =
    | Waiting
    | Serialized
    | Trying(next: nat)
    | Querying
    | Holding(driverId: DriverId, row: DriverRow, rows: set<DriverId>)
    | Answering(reply: Message)
    | Releasing(reservation: Reservation)
    | Unreserving(reservation: Reservation, held: Option<DriverRow>)
    | Finished

  datatype Tx = Tx(input: Message, pc: Pc)

  /**
   * The committed tables, the outbox, and the transactions ever begun. A lock is held from the step that takes it to
   * the end.
   */
  datatype State = State(db: DriverDb, outbox: seq<Message>, txs: map<TxId, Tx>)

  predicate IsInput(m: Message) { m.ReservationRequested? || m.ReleaseRequested? }

  /** Between taking its advisory lock and ending. */
  predicate Serial(pc: Pc) { !pc.Waiting? && !pc.Finished? }

  /** The driver rows a transaction has locked. */
  function RowsOf(pc: Pc): set<DriverId> {
    match pc
    case Holding(_, _, rows) => rows
    case Unreserving(reservation, held) => if held.Some? then {reservation.driverId} else {}
    case _ => {}
  }

  predicate KeyFree(h: LockKey, s: State, key: int) {
    forall t :: t in s.txs && Serial(s.txs[t].pc) ==> h(s.txs[t].input.orderId) != key
  }

  predicate RowFree(s: State, d: DriverId) {
    forall t :: t in s.txs ==> d !in RowsOf(s.txs[t].pc)
  }

  function Moved(s: State, t: TxId, pc: Pc): State
    requires t in s.txs
  {
    s.(txs := s.txs[t := s.txs[t].(pc := pc)])
  }

  // ----- the steps of one transaction -----

  /** The branch taken on the committed reservation row. */
  function PcAfterRead(db: DriverDb, m: Message): Pc
    requires IsInput(m)
  {
    var o := m.orderId;
    if m.ReservationRequested? then
      if ActiveOn(db, o) then Answering(DriverReserved(m.eventId, o, m.dispatchId, db.reservations[o].driverId))
      else if m.candidates == Some([]) then
        Answering(ReservationFailed(m.eventId, o, m.dispatchId, NoGeoEligibleDriver))
      else if m.candidates.Some? then Trying(0)
      else Querying
    else if ActiveOn(db, o) then Releasing(db.reservations[o])
    else Answering(DriverReleased(m.eventId, o, m.dispatchId,
                                  if o in db.reservations then db.reservations[o].driverId else m.driverId))
  }

  function NoDriver(m: Message): Pc
    requires m.ReservationRequested?
  {
    Answering(ReservationFailed(m.eventId, m.orderId, m.dispatchId, NoAvailableDriver))
  }

  /** The next named candidate is locked if it is eligible and free, and skipped otherwise. */
  function PcAfterTry(s: State, m: Message, k: nat): Pc
    requires m.ReservationRequested? && m.candidates.Some?
  {
    if k >= |m.candidates.value| then NoDriver(m)
    else
      var d := m.candidates.value[k];
      if EligibleIn(s.db.drivers, d) && RowFree(s, d) then Holding(d, s.db.drivers[d], {d}) else Trying(k + 1)
  }

  /**
   * The query without candidates locks free eligible rows, at least the one it returns, and returns
   * nothing only when every eligible row is locked by others.
   */
  ghost predicate PcAfterQuery(s: State, m: Message, pc: Pc)
    requires m.ReservationRequested?
  {
    if pc.Holding? then
      && pc.driverId in pc.rows && (forall d :: d in pc.rows ==> EligibleIn(s.db.drivers, d) && RowFree(s, d))
      && pc.row == s.db.drivers[pc.driverId]
    else
      pc == NoDriver(m) && forall d :: EligibleIn(s.db.drivers, d) ==> !RowFree(s, d)
  }

  /** A step that changes nothing but the transaction's own progress and locks. */
  ghost predicate PcStep(s: State, t: TxId, pc: Pc)
    requires t in s.txs
  {
    var m := s.txs[t].input;
    match s.txs[t].pc
    case Serialized => IsInput(m) && pc == PcAfterRead(s.db, m)
    case Trying(k) => m.ReservationRequested? && m.candidates.Some? && pc == PcAfterTry(s, m, k)
    case Querying => m.ReservationRequested? && PcAfterQuery(s, m, pc)
    case Releasing(r) =>
      if r.driverId in s.db.drivers
      then RowFree(s, r.driverId) && pc == Unreserving(r, Some(s.db.drivers[r.driverId]))
      else pc == Unreserving(r, None)
    case _ => false
  }

  /** Takes the advisory lock of its order, once no other transaction has it. */
  ghost predicate Serialize(h: LockKey, s: State, s': State, t: TxId) {
    && t in s.txs && s.txs[t].pc.Waiting? && KeyFree(h, s, h(s.txs[t].input.orderId))
    && s' == Moved(s, t, Serialized)
  }

  ghost predicate Advance(s: State, s': State, t: TxId, pc: Pc) {
    t in s.txs && PcStep(s, t, pc) && s' == Moved(s, t, pc)
  }

  predicate CanCommit(pc: Pc) { pc.Answering? || pc.Holding? || pc.Unreserving? }

  /** Writes the rows it has read earlier into the tables as they now stand, or is rolled back. */
  function Written(db: DriverDb, tx: Tx): Effect
    requires IsInput(tx.input)
  {
    var m, o := tx.input, tx.input.orderId;
    match tx.pc
    case Answering(reply) => Committed(db, reply)
    case Holding(d, row, _) =>
      var reserved := ReservedRow(row, o);
      if reserved.Failure? || o in db.reservations then Aborted
      else Committed(
        DriverDb(db.drivers[d := reserved.value], db.reservations[o := Reservation(m.dispatchId, d, Active)]),
        DriverReserved(m.eventId, o, m.dispatchId, d))
    case Unreserving(r, held) =>
      var drivers := if held.Some? then db.drivers[r.driverId := ReleasedRow(held.value, o)] else db.drivers;
      Committed(DriverDb(drivers, db.reservations[o := r.(status := Released)]),
                DriverReleased(m.eventId, o, m.dispatchId, r.driverId))
    case _ => Aborted
  }

  ghost predicate Commit(s: State, s': State, t: TxId) {
    && t in s.txs && CanCommit(s.txs[t].pc) && IsInput(s.txs[t].input)
    && var effect := Written(s.db, s.txs[t]);
       s' == if effect.Aborted? then Moved(s, t, Finished)
             else Moved(s, t, Finished).(db := effect.db, outbox := s.outbox + [effect.reply])
  }

  ghost predicate TxStep(h: LockKey, s: State, s': State, t: TxId) {
    || Serialize(h, s, s', t)
    || (exists pc :: Advance(s, s', t, pc))
    || Commit(s, s', t)
  }

  // ----- what else may happen -----

  /** A crash or database error rolls an unfinished transaction back. */
  ghost predicate Rollback(s: State, s': State, t: TxId) {
    t in s.txs && !s.txs[t].pc.Finished? && s' == Moved(s, t, Finished)
  }

  /** A new request is taken up. */
  ghost predicate Begin(s: State, s': State, t: TxId, m: Message) {
    t !in s.txs && IsInput(m) && s' == s.(txs := s.txs[t := Tx(m, Waiting)])
  }

  /** A manual availability change, taken as one step; its update waits for the row lock. */
  ghost predicate SwitchAvailability(s: State, s': State, d: DriverId, status: DriverStatus) {
    && d in s.db.drivers && RowFree(s, d) && !status.Reserved?
    && SwitchedRow(s.db.drivers[d], status).Success?
    && s' == s.(db := s.db.(drivers := s.db.drivers[d := SwitchedRow(s.db.drivers[d], status).value]))
  }

  ghost predicate RegisterDriver(s: State, s': State, d: DriverId, capacity: int, now: int) {
    && d !in s.db.drivers && capacity >= 1
    && s' == s.(db := s.db.(drivers := s.db.drivers[d := DriverRow(capacity, [], Available, now)]))
  }

  ghost predicate Next(h: LockKey, s: State, s': State) {
    || (exists t :: TxStep(h, s, s', t))
    || (exists t :: Rollback(s, s', t))
    || (exists t, m :: Begin(s, s', t, m))
    || (exists d, status :: SwitchAvailability(s, s', d, status))
    || (exists d, capacity, now :: RegisterDriver(s, s', d, capacity, now))
  }

  predicate Start(s: State) {
    s.db == DriverDb(map[], map[]) && s.outbox == [] && s.txs == map[]
  }

  // ----- the invariant -----

  /** No two transactions hold the same advisory lock or the same row. */
  ghost predicate Exclusive(h: LockKey, s: State) {
    forall t, u :: t in s.txs && u in s.txs && t != u ==> Apart(h, s.txs[t], s.txs[u])
  }

  ghost predicate Apart(h: LockKey, a: Tx, b: Tx) {
    && (Serial(a.pc) && Serial(b.pc) ==> h(a.input.orderId) != h(b.input.orderId))
    && RowsOf(a.pc) !! RowsOf(b.pc)
  }

  /** What a transaction has read is still what the tables say. */
  predicate ReadsCurrent(db: DriverDb, tx: Tx) {
    && IsInput(tx.input)
    && var m, o := tx.input, tx.input.orderId;
       match tx.pc
       case Trying(_) => m.ReservationRequested? && m.candidates.Some? && m.candidates != Some([]) && !ActiveOn(db, o)
       case Querying => m.ReservationRequested? && m.candidates.None? && !ActiveOn(db, o)
       case Holding(d, row, rows) =>
         && m.ReservationRequested? && m.candidates != Some([]) && !ActiveOn(db, o)
         && d in rows && rows <= db.drivers.Keys && EligibleIn(db.drivers, d) && db.drivers[d] == row
         && (m.candidates.Some? ==> d in m.candidates.value)
       case Answering(reply) =>
         if m.ReservationRequested? then
           reply == if ActiveOn(db, o) then DriverReserved(m.eventId, o, m.dispatchId, db.reservations[o].driverId)
                    else ReservationFailed(m.eventId, o, m.dispatchId,
                                           if m.candidates == Some([]) then NoGeoEligibleDriver else NoAvailableDriver)
         else !ActiveOn(db, o) && Committed(db, reply) == ReleaseEffect(db, m)
       case Releasing(r) => m.ReleaseRequested? && ActiveOn(db, o) && db.reservations[o] == r
       case Unreserving(r, held) =>
         && m.ReleaseRequested? && ActiveOn(db, o) && db.reservations[o] == r
         && r.driverId in db.drivers && held == Some(db.drivers[r.driverId])
       case _ => true
  }

  ghost predicate Inv(h: LockKey, s: State) {
    && Consistent(s.db)
    && Exclusive(h, s)
    && (forall t :: t in s.txs ==> ReadsCurrent(s.db, s.txs[t]))
  }

  // ----- refinement -----

  datatype Action =
    | DoReserve(request: Message, pick: Option<DriverId>)
    | DoRelease(request: Message)
    | DoSwitch(driverId: DriverId, status: DriverStatus)
    | DoRegister(driverId: DriverId, capacity: int, now: int)

  /** One reserve or release, or one change of a driver, done in one piece. */
  predicate Atomic(a: Action, db: DriverDb, outbox: seq<Message>, db': DriverDb, outbox': seq<Message>) {
    match a
    case DoReserve(m, pick) =>
      && m.ReservationRequested? && PickAllowed(db, m, pick)
      && outbox' != [] && outbox' == outbox + [outbox'[|outbox'| - 1]]
      && ReserveEffect(db, m, pick) == Committed(db', outbox'[|outbox'| - 1])
    case DoRelease(m) =>
      && m.ReleaseRequested?
      && outbox' != [] && outbox' == outbox + [outbox'[|outbox'| - 1]]
      && ReleaseEffect(db, m) == Committed(db', outbox'[|outbox'| - 1])
    case DoSwitch(d, status) =>
      && d in db.drivers && !status.Reserved? && SwitchedRow(db.drivers[d], status).Success?
      && db' == db.(drivers := db.drivers[d := SwitchedRow(db.drivers[d], status).value]) && outbox' == outbox
    case DoRegister(d, capacity, now) =>
      && d !in db.drivers && capacity >= 1
      && db' == db.(drivers := db.drivers[d := DriverRow(capacity, [], Available, now)]) && outbox' == outbox
  }

  /** The committed tables stay as they are or change by one atomic action. */
  ghost predicate Refines(s: State, s': State) {
    (s'.db == s.db && s'.outbox == s.outbox) || exists a :: Atomic(a, s.db, s.outbox, s'.db, s'.outbox)
  }

  /** The atomic action of a transaction is the reserve or release of its own message. */
  predicate OwnAction(tx: Tx, a: Action) {
    (a.DoReserve? || a.DoRelease?) && a.request == tx.input
  }

  /** A step of transaction t leaves the tables and the outbox alone, or does its own message's action in one piece. */
  ghost predicate RefinesOwn(s: State, s': State, t: TxId)
    requires t in s.txs
  {
    || (s'.db == s.db && s'.outbox == s.outbox)
    || exists a :: OwnAction(s.txs[t], a) && Atomic(a, s.db, s.outbox, s'.db, s'.outbox)
  }

  lemma AtomicKeepsConsistent(a: Action, db: DriverDb, outbox: seq<Message>, db': DriverDb, outbox': seq<Message>)
    requires Atomic(a, db, outbox, db', outbox') && Consistent(db)
    ensures Consistent(db') && Evolves(db, db')
  {
    match a
    case DoReserve(m, pick) => ReserveKeepsConsistent(db, m, pick);
    case DoRelease(m) => ReleaseKeepsConsistent(db, m);
    case DoSwitch(d, status) => SwitchKeepsConsistent(db, d, status);
    case DoRegister(d, capacity, now) =>
      assert forall o :: ActiveOn(db', o) <==> ActiveOn(db, o);
  }

  /** What a transaction writes from the rows it read earlier is the atomic effect on the tables as they are now. */
  lemma WrittenIsAtomic(db: DriverDb, tx: Tx)
    requires ReadsCurrent(db, tx) && CanCommit(tx.pc) && Consistent(db)
    ensures tx.input.ReservationRequested? ==>
              exists pick :: PickAllowed(db, tx.input, pick) && Written(db, tx) == ReserveEffect(db, tx.input, pick)
    ensures tx.input.ReleaseRequested? ==> Written(db, tx) == ReleaseEffect(db, tx.input)
  {
    match tx.pc
    case Answering(_) =>
      if tx.input.ReservationRequested? {
        assert PickAllowed(db, tx.input, None) && Written(db, tx) == ReserveEffect(db, tx.input, None);
      }
    case Holding(d, _, _) =>
      assert PickAllowed(db, tx.input, Some(d)) && Written(db, tx) == ReserveEffect(db, tx.input, Some(d));
    case Unreserving(_, _) =>
  }

  lemma CommitRefines(s: State, s': State, t: TxId)
    requires Commit(s, s', t) && ReadsCurrent(s.db, s.txs[t]) && Consistent(s.db)
    ensures RefinesOwn(s, s', t)
  {
    var tx := s.txs[t];
    WrittenIsAtomic(s.db, tx);
    if Written(s.db, tx).Committed? {
      assert s'.outbox[|s'.outbox| - 1] == Written(s.db, tx).reply;
      if tx.input.ReservationRequested? {
        var pick :| PickAllowed(s.db, tx.input, pick) && Written(s.db, tx) == ReserveEffect(s.db, tx.input, pick);
        var a := DoReserve(tx.input, pick);
        assert OwnAction(tx, a) && Atomic(a, s.db, s.outbox, s'.db, s'.outbox);
      } else {
        var a := DoRelease(tx.input);
        assert OwnAction(tx, a) && Atomic(a, s.db, s.outbox, s'.db, s'.outbox);
      }
    }
  }

  lemma TxStepRefines(h: LockKey, s: State, s': State, t: TxId)
    requires Inv(h, s) && TxStep(h, s, s', t)
    ensures RefinesOwn(s, s', t) && Refines(s, s')
  {
    if Commit(s, s', t) {
      CommitRefines(s, s', t);
    }
  }

  lemma StepRefines(h: LockKey, s: State, s': State)
    requires Inv(h, s) && Next(h, s, s')
    ensures Refines(s, s')
  {
    if t :| TxStep(h, s, s', t) {
      TxStepRefines(h, s, s', t);
    } else if d, status :| SwitchAvailability(s, s', d, status) {
      assert Atomic(DoSwitch(d, status), s.db, s.outbox, s'.db, s'.outbox);
    } else if d, capacity, now :| RegisterDriver(s, s', d, capacity, now) {
      assert Atomic(DoRegister(d, capacity, now), s.db, s.outbox, s'.db, s'.outbox);
    }
  }

  // ----- the invariant is kept -----

  /** Only t's progress changes, and it takes no lock that another transaction has. */
  lemma MovedKeepsInv(h: LockKey, s: State, t: TxId, pc: Pc)
    requires Inv(h, s) && t in s.txs && ReadsCurrent(s.db, s.txs[t].(pc := pc))
    requires Serial(pc) && !Serial(s.txs[t].pc) ==> KeyFree(h, s, h(s.txs[t].input.orderId))
    requires forall d :: d in RowsOf(pc) ==> RowFree(s, d)
    ensures Inv(h, Moved(s, t, pc))
  {
    var s', tx := Moved(s, t, pc), s.txs[t].(pc := pc);
    forall a, b | a in s'.txs && b in s'.txs && a != b
      ensures Apart(h, s'.txs[a], s'.txs[b])
    {
      var u := if a == t then b else a;
      assert Apart(h, s.txs[a], s.txs[b]);
      if a == t || b == t {
        assert Apart(h, s.txs[t], s.txs[u]);
        assert RowsOf(pc) !! RowsOf(s.txs[u].pc);
      }
    }
  }

  lemma PcStepReads(s: State, t: TxId, pc: Pc)
    requires t in s.txs && PcStep(s, t, pc) && ReadsCurrent(s.db, s.txs[t]) && Consistent(s.db)
    ensures ReadsCurrent(s.db, s.txs[t].(pc := pc)) && Serial(s.txs[t].pc)
    ensures forall d :: d in RowsOf(pc) ==> RowFree(s, d)
  {
  }

  /** A commit leaves what every other transaction has read untouched: the locks keep them apart. */
  lemma OthersUntouched(h: LockKey, db: DriverDb, tx: Tx, other: Tx)
    requires Consistent(db) && ReadsCurrent(db, tx) && ReadsCurrent(db, other)
    requires CanCommit(tx.pc) && Apart(h, tx, other) && Written(db, tx).Committed?
    ensures ReadsCurrent(Written(db, tx).db, other)
  {
    if Serial(other.pc) {
      var db', o, p := Written(db, tx).db, tx.input.orderId, other.input.orderId;
      assert o != p;
      assert p in db'.reservations <==> p in db.reservations;
      assert p in db.reservations ==> db'.reservations[p] == db.reservations[p];
      assert forall d :: d in RowsOf(other.pc) && d in db.drivers ==>
               d in db'.drivers && db'.drivers[d] == db.drivers[d];
    }
  }

  lemma CommitKeepsInv(h: LockKey, s: State, s': State, t: TxId)
    requires Inv(h, s) && Commit(s, s', t)
    ensures Inv(h, s')
  {
    var effect := Written(s.db, s.txs[t]);
    MovedKeepsInv(h, s, t, Finished);
    if effect.Committed? {
      CommitRefines(s, s', t);
      RefinesConsistent(s, s');
      forall u | u in s'.txs
        ensures ReadsCurrent(s'.db, s'.txs[u])
      {
        assert ReadsCurrent(s.db, s.txs[t]) && ReadsCurrent(s.db, s.txs[u]);
        if u != t {
          assert Apart(h, s.txs[t], s.txs[u]);
          OthersUntouched(h, s.db, s.txs[t], s.txs[u]);
        }
      }
    }
  }

  lemma RefinesConsistent(s: State, s': State)
    requires Refines(s, s') && Consistent(s.db)
    ensures Consistent(s'.db) && Evolves(s.db, s'.db)
  {
    if a :| Atomic(a, s.db, s.outbox, s'.db, s'.outbox) {
      AtomicKeepsConsistent(a, s.db, s.outbox, s'.db, s'.outbox);
    }
  }

  /** A driver row that no transaction has locked may change or appear. */
  lemma DriverChangeReads(db: DriverDb, db': DriverDb, d: DriverId, tx: Tx)
    requires ReadsCurrent(db, tx) && Consistent(db) && d !in RowsOf(tx.pc)
    requires db'.reservations == db.reservations && db'.drivers.Keys == db.drivers.Keys + {d}
    requires forall e :: e in db.drivers && e != d ==> db'.drivers[e] == db.drivers[e]
    ensures ReadsCurrent(db', tx)
  {
    assert ActiveOn(db', tx.input.orderId) == ActiveOn(db, tx.input.orderId);
  }

  lemma DriverChangeKeepsInv(h: LockKey, s: State, s': State, d: DriverId)
    requires Inv(h, s) && Refines(s, s') && s' == s.(db := s'.db)
    requires RowFree(s, d)
    requires s'.db.reservations == s.db.reservations && s'.db.drivers.Keys == s.db.drivers.Keys + {d}
    requires forall e :: e in s.db.drivers && e != d ==> s'.db.drivers[e] == s.db.drivers[e]
    ensures Inv(h, s')
  {
    RefinesConsistent(s, s');
    forall t | t in s'.txs
      ensures ReadsCurrent(s'.db, s'.txs[t])
    {
      assert ReadsCurrent(s.db, s.txs[t]);
      DriverChangeReads(s.db, s'.db, d, s.txs[t]);
    }
  }

  /** No transaction has locked a row that does not exist. */
  lemma NewRowFree(h: LockKey, s: State, d: DriverId)
    requires Inv(h, s) && d !in s.db.drivers
    ensures RowFree(s, d)
  {
    forall t | t in s.txs
      ensures d !in RowsOf(s.txs[t].pc)
    {
      assert ReadsCurrent(s.db, s.txs[t]);
    }
  }

  lemma TxStepKeepsInv(h: LockKey, s: State, s': State, t: TxId)
    requires Inv(h, s) && TxStep(h, s, s', t)
    ensures Inv(h, s')
  {
    if Commit(s, s', t) {
      CommitKeepsInv(h, s, s', t);
    } else {
      assert ReadsCurrent(s.db, s.txs[t]);
      if pc :| Advance(s, s', t, pc) {
        PcStepReads(s, t, pc);
        MovedKeepsInv(h, s, t, pc);
      } else {
        MovedKeepsInv(h, s, t, Serialized);
      }
    }
  }

  lemma BeginKeepsInv(h: LockKey, s: State, s': State, t: TxId, m: Message)
    requires Inv(h, s) && Begin(s, s', t, m)
    ensures Inv(h, s')
  {
    forall a, b | a in s'.txs && b in s'.txs && a != b
      ensures Apart(h, s'.txs[a], s'.txs[b])
    {
      assert a != t && b != t ==> Apart(h, s.txs[a], s.txs[b]);
    }
  }

  lemma NextKeepsInv(h: LockKey, s: State, s': State)
    requires Inv(h, s) && Next(h, s, s')
    ensures Inv(h, s')
  {
    StepRefines(h, s, s');
    if t :| TxStep(h, s, s', t) {
      TxStepKeepsInv(h, s, s', t);
    } else if t :| Rollback(s, s', t) {
      assert ReadsCurrent(s.db, s.txs[t]);
      MovedKeepsInv(h, s, t, Finished);
    } else if t, m :| Begin(s, s', t, m) {
      BeginKeepsInv(h, s, s', t, m);
    } else if d, status :| SwitchAvailability(s, s', d, status) {
      DriverChangeKeepsInv(h, s, s', d);
    } else if d, capacity, now :| RegisterDriver(s, s', d, capacity, now) {
      NewRowFree(h, s, d);
      DriverChangeKeepsInv(h, s, s', d);
    }
  }

  ghost predicate IsRun(h: LockKey, run: seq<State>) {
    run != [] && Start(run[0]) && forall i: nat :: StepAt(h, run, i)
  }

  ghost predicate StepAt(h: LockKey, run: seq<State>, i: nat) {
    i + 1 < |run| ==> Next(h, run[i], run[i + 1])
  }

  lemma {:induction false} RunKeepsInv(h: LockKey, run: seq<State>, i: nat)
    requires IsRun(h, run) && i < |run|
    ensures Inv(h, run[i])
  {
    if i > 0 {
      RunKeepsInv(h, run, i - 1);
      assert StepAt(h, run, i - 1);
      NextKeepsInv(h, run[i - 1], run[i]);
    }
  }

  /**
   * Every interleaving refines atomic reserves and releases, each of the committing transaction's own message, and
   * every committed state is consistent.
   */
  lemma EveryRunRefines(h: LockKey, run: seq<State>, i: nat)
    requires IsRun(h, run) && i < |run|
    ensures Consistent(run[i].db)
    ensures i + 1 < |run| ==> Refines(run[i], run[i + 1])
    ensures i + 1 < |run| ==> forall t :: t in run[i].txs && TxStep(h, run[i], run[i + 1], t) ==>
              RefinesOwn(run[i], run[i + 1], t)
  {
    RunKeepsInv(h, run, i);
    if i + 1 < |run| {
      forall t | t in run[i].txs && TxStep(h, run[i], run[i + 1], t)
        ensures RefinesOwn(run[i], run[i + 1], t)
      {
        TxStepRefines(h, run[i], run[i + 1], t);
      }
    }
    assert StepAt(h, run, i);
    if i + 1 < |run| {
      StepRefines(h, run[i], run[i + 1]);
    }
  }

  /** Over a whole run: a reservation never changes its driver, and a released one never becomes active again. */
  lemma {:induction false} ReservationsEvolve(h: LockKey, run: seq<State>, i: nat, j: nat)
    requires IsRun(h, run) && i <= j < |run|
    ensures Evolves(run[i].db, run[j].db)
  {
    if i < j {
      ReservationsEvolve(h, run, i, j - 1);
      EveryRunRefines(h, run, j - 1);
      RefinesConsistent(run[j - 1], run[j]);
      EvolvesTransitive(run[i].db, run[j - 1].db, run[j].db);
    }
  }

  /** In every committed state no order is held by two drivers, and no driver holds more than its capacity. */
  lemma HeldOnce(h: LockKey, run: seq<State>, i: nat, o: OrderId, d: DriverId, e: DriverId)
    requires IsRun(h, run) && i < |run| && d in run[i].db.drivers && e in run[i].db.drivers
    requires o in run[i].db.drivers[d].reservedOrderIds && o in run[i].db.drivers[e].reservedOrderIds
    ensures d == e && NoDuplicates(run[i].db.drivers[d].reservedOrderIds)
    ensures |run[i].db.drivers[d].reservedOrderIds| <= run[i].db.drivers[d].capacity
  {
    EveryRunRefines(h, run, i);
    assert ValidRow(run[i].db.drivers[d]);
    assert ActiveOn(run[i].db, o);
  }

  // ----- the candidates are tried in order -----

  /** At some state of the run up to the i-th the driver was not eligible, or somebody held its row. */
  ghost predicate WasUnavailable(run: seq<State>, i: nat, d: DriverId)
    requires i < |run|
  {
    exists j: nat {:trigger UnavailableAt(run, j, d)} :: j <= i && UnavailableAt(run, j, d)
  }

  predicate UnavailableAt(run: seq<State>, j: nat, d: DriverId)
    requires j < |run|
  {
    !EligibleIn(run[j].db.drivers, d) || !RowFree(run[j], d)
  }

  /** The first k candidates have been unavailable when they were tried. */
  ghost predicate TriedUpTo(run: seq<State>, i: nat, m: Message, k: nat)
    requires i < |run| && m.ReservationRequested? && m.candidates.Some?
  {
    forall n :: 0 <= n < k && n < |m.candidates.value| ==> WasUnavailable(run, i, m.candidates.value[n])
  }

  /** The driver held is a candidate, and those before it have been unavailable. */
  ghost predicate FirstAvailable(run: seq<State>, i: nat, m: Message, d: DriverId)
    requires i < |run| && m.ReservationRequested? && m.candidates.Some?
  {
    exists k: nat :: k < |m.candidates.value| && m.candidates.value[k] == d && TriedUpTo(run, i, m, k)
  }

  /** How far a reservation with named candidates has tried them. */
  ghost predicate TriedInTurn(run: seq<State>, i: nat, tx: Tx)
    requires i < |run|
  {
    tx.input.ReservationRequested? && tx.input.candidates.Some? ==>
      match tx.pc
      case Trying(k) => TriedUpTo(run, i, tx.input, k)
      case Holding(d, _, _) => FirstAvailable(run, i, tx.input, d)
      case Answering(reply) =>
        reply.ReservationFailed? ==> TriedUpTo(run, i, tx.input, |tx.input.candidates.value|)
      case _ => true
  }

  lemma TriedStays(run: seq<State>, i: nat, tx: Tx)
    requires i + 1 < |run| && TriedInTurn(run, i, tx)
    ensures TriedInTurn(run, i + 1, tx)
  {
    if tx.input.ReservationRequested? && tx.input.candidates.Some? {
      forall d | WasUnavailable(run, i, d)
        ensures WasUnavailable(run, i + 1, d)
      {
        var j: nat :| j <= i && UnavailableAt(run, j, d);
        assert j <= i + 1;
      }
      if tx.pc.Holding? {
        var k: nat :| k < |tx.input.candidates.value| && tx.input.candidates.value[k] == tx.pc.driverId
                      && TriedUpTo(run, i, tx.input, k);
        assert TriedUpTo(run, i + 1, tx.input, k);
      }
    }
  }

  /** A transaction moves on only by its own step, or is rolled back. */
  lemma OnlyOwnStep(h: LockKey, s: State, s': State, t: TxId)
    requires Next(h, s, s') && t in s.txs
    ensures t in s'.txs && s'.txs[t].input == s.txs[t].input
    ensures s'.txs[t].pc == s.txs[t].pc || s'.txs[t].pc.Finished? || s'.txs[t].pc.Serialized?
            || PcStep(s, t, s'.txs[t].pc)
  {
  }

  lemma OwnStepTries(run: seq<State>, i: nat, t: TxId)
    requires i + 1 < |run| && t in run[i].txs && t in run[i + 1].txs
    requires run[i + 1].txs[t].input == run[i].txs[t].input && PcStep(run[i], t, run[i + 1].txs[t].pc)
    requires TriedInTurn(run, i, run[i].txs[t]) && ReadsCurrent(run[i].db, run[i].txs[t])
    ensures TriedInTurn(run, i, run[i + 1].txs[t])
  {
    var tx, next := run[i].txs[t], run[i + 1].txs[t].pc;
    var m := tx.input;
    if tx.pc.Trying? && tx.pc.next < |m.candidates.value| {
      var d := m.candidates.value[tx.pc.next];
      if next.Trying? {
        assert UnavailableAt(run, i, d);
        assert WasUnavailable(run, i, d);
      } else {
        assert FirstAvailable(run, i, m, d);
      }
    }
  }

  /**
   * A reservation with named candidates holds one only after each candidate before it has been found ineligible or
   * locked by somebody else, and gives up only after all of them have.
   */
  lemma {:induction false} CandidatesTriedInOrder(h: LockKey, run: seq<State>, i: nat, t: TxId)
    requires IsRun(h, run) && i < |run| && t in run[i].txs
    ensures TriedInTurn(run, i, run[i].txs[t])
  {
    if i > 0 {
      assert StepAt(h, run, i - 1);
      if t in run[i - 1].txs {
        CandidatesTriedInOrder(h, run, i - 1, t);
        OnlyOwnStep(h, run[i - 1], run[i], t);
        if run[i].txs[t].pc == run[i - 1].txs[t].pc {
          assert run[i].txs[t] == run[i - 1].txs[t];
          TriedStays(run, i - 1, run[i].txs[t]);
        } else if PcStep(run[i - 1], t, run[i].txs[t].pc) {
          RunKeepsInv(h, run, i - 1);
          OwnStepTries(run, i - 1, t);
          TriedStays(run, i - 1, run[i].txs[t]);
        }
      } else {
        NewIsWaiting(h, run[i - 1], run[i], t);
      }
    }
  }

  lemma NewIsWaiting(h: LockKey, s: State, s': State, t: TxId)
    requires Next(h, s, s') && t !in s.txs && t in s'.txs
    ensures s'.txs[t].pc.Waiting?
  {
  }

  // ----- no deadlock -----

  ghost predicate CanStep(h: LockKey, s: State, t: TxId) {
    exists s' :: TxStep(h, s, s', t)
  }

  lemma AdvanceIsStep(h: LockKey, s: State, t: TxId, pc: Pc)
    requires t in s.txs && PcStep(s, t, pc)
    ensures CanStep(h, s, t)
  {
    assert Advance(s, Moved(s, t, pc), t, pc);
    assert TxStep(h, s, Moved(s, t, pc), t);
  }

  /** A transaction that holds row locks never waits. */
  lemma CommitCanStep(h: LockKey, s: State, t: TxId)
    requires t in s.txs && CanCommit(s.txs[t].pc) && ReadsCurrent(s.db, s.txs[t])
    ensures CanStep(h, s, t)
  {
    var effect := Written(s.db, s.txs[t]);
    var s' := if effect.Aborted? then Moved(s, t, Finished)
              else Moved(s, t, Finished).(db := effect.db, outbox := s.outbox + [effect.reply]);
    assert Commit(s, s', t);
    assert TxStep(h, s, s', t);
  }

  /** Past its advisory lock a transaction waits only for a release's driver row. */
  lemma SerialCanStep(h: LockKey, s: State, t: TxId)
    requires t in s.txs && Serial(s.txs[t].pc) && ReadsCurrent(s.db, s.txs[t])
    requires forall d :: RowFree(s, d)
    ensures CanStep(h, s, t)
  {
    var m := s.txs[t].input;
    match s.txs[t].pc
    case Serialized => AdvanceIsStep(h, s, t, PcAfterRead(s.db, m));
    case Trying(k) => AdvanceIsStep(h, s, t, PcAfterTry(s, m, k));
    case Querying =>
      if d :| EligibleIn(s.db.drivers, d) {
        AdvanceIsStep(h, s, t, Holding(d, s.db.drivers[d], {d}));
      } else {
        AdvanceIsStep(h, s, t, NoDriver(m));
      }
    case Releasing(r) =>
      AdvanceIsStep(h, s, t,
        Unreserving(r, if r.driverId in s.db.drivers then Some(s.db.drivers[r.driverId]) else None));
    case _ => CommitCanStep(h, s, t);
  }

  /** While any transaction is unfinished, some transaction can take a step of its own. */
  lemma NoDeadlock(h: LockKey, s: State, t: TxId)
    requires Inv(h, s) && t in s.txs && !s.txs[t].pc.Finished?
    ensures exists u :: CanStep(h, s, u)
  {
    if u :| u in s.txs && RowsOf(s.txs[u].pc) != {} {
      assert ReadsCurrent(s.db, s.txs[u]);
      CommitCanStep(h, s, u);
    } else if u :| u in s.txs && Serial(s.txs[u].pc) {
      assert ReadsCurrent(s.db, s.txs[u]);
      SerialCanStep(h, s, u);
    } else {
      assert Serialize(h, s, Moved(s, t, Serialized), t);
      assert TxStep(h, s, Moved(s, t, Serialized), t);
      assert CanStep(h, s, t);
    }
  }

  // ----- every transaction ends -----

  function Candidates(m: Message): nat {
    if m.ReservationRequested? && m.candidates.Some? then |m.candidates.value| else 0
  }

  /** A bound on the steps a transaction has left. */
  function Rank(tx: Tx): nat {
    var n := Candidates(tx.input);
    match tx.pc
    case Waiting => n + 4
    case Serialized => n + 3
    case Trying(k) => if k < n then n - k + 2 else 2
    case Querying => 2
    case Releasing(_) => 2
    case Finished => 0
    case _ => 1
  }

  ghost function TotalRank(txs: map<TxId, Tx>): nat
    decreases |txs|
  {
    if txs == map[] then 0
    else
      var t :| t in txs;
      Rank(txs[t]) + TotalRank(txs - {t})
  }

  lemma {:induction false} TotalRankSplit(txs: map<TxId, Tx>, t: TxId)
    requires t in txs
    ensures TotalRank(txs) == Rank(txs[t]) + TotalRank(txs - {t})
    decreases |txs|
  {
    var u :| u in txs && TotalRank(txs) == Rank(txs[u]) + TotalRank(txs - {u});
    if u != t {
      TotalRankSplit(txs - {u}, t);
      TotalRankSplit(txs - {t}, u);
      assert txs - {u} - {t} == txs - {t} - {u};
    }
  }

  lemma OwnRankDrops(h: LockKey, s: State, s': State, t: TxId)
    requires TxStep(h, s, s', t)
    ensures t in s.txs && t in s'.txs && Rank(s'.txs[t]) < Rank(s.txs[t])
    ensures s'.txs - {t} == s.txs - {t}
  {
    if pc :| Advance(s, s', t, pc) {
      assert s'.txs[t] == s.txs[t].(pc := pc);
    }
  }

  lemma TxStepLowersRank(h: LockKey, s: State, s': State, t: TxId)
    requires TxStep(h, s, s', t)
    ensures TotalRank(s'.txs) < TotalRank(s.txs)
  {
    OwnRankDrops(h, s, s', t);
    TotalRankSplit(s.txs, t);
    TotalRankSplit(s'.txs, t);
  }

  ghost predicate SomeTxStep(h: LockKey, s: State, s': State) {
    exists t :: TxStep(h, s, s', t)
  }

  ghost predicate IsTxRun(h: LockKey, run: seq<State>) {
    && run != [] && Inv(h, run[0])
    && forall i :: 0 <= i < |run| - 1 ==> SomeTxStep(h, run[i], run[i + 1])
  }

  ghost predicate Stuck(h: LockKey, s: State) {
    forall t :: !CanStep(h, s, t)
  }

  ghost predicate AllFinished(s: State) {
    forall t :: t in s.txs ==> s.txs[t].pc.Finished?
  }

  /** Transactions left to run take boundedly many steps, and when none can step all have ended. */
  lemma {:induction false} TransactionsFinish(h: LockKey, run: seq<State>, n: nat)
    requires IsTxRun(h, run) && n < |run|
    ensures n + TotalRank(run[n].txs) <= TotalRank(run[0].txs)
    ensures Inv(h, run[n]) && (Stuck(h, run[n]) ==> AllFinished(run[n]))
  {
    if n > 0 {
      TransactionsFinish(h, run, n - 1);
      assert SomeTxStep(h, run[n - 1], run[n]);
      var t :| TxStep(h, run[n - 1], run[n], t);
      TxStepKeepsInv(h, run[n - 1], run[n], t);
      TxStepLowersRank(h, run[n - 1], run[n], t);
    }
    StuckFinished(h, run[n]);
  }

  lemma StuckFinished(h: LockKey, s: State)
    requires Inv(h, s)
    ensures Stuck(h, s) ==> AllFinished(s)
  {
    if t :| t in s.txs && !s.txs[t].pc.Finished? {
      NoDeadlock(h, s, t);
    }
  }
}
