/** The dispatch aggregate and the transactions of the dispatch service's workflow. */
module Dispatches {
  import opened Prelude
  import opened Messages

  datatype DispatchStatus = SearchingDriver | Assigned | Compensating | Cancelled | Failed

  datatype DispatchRow = DispatchRow(
    orderId: OrderId, driverId: Option<DriverId>, status: DispatchStatus, failureReason: Option<FailureReason>)

  type DispatchTable = map<DispatchId, DispatchRow>

  datatype DispatchError = DispatchNotFound | CannotCompensate(status: DispatchStatus)

  // ----- the aggregate -----

  /** A row has a driver exactly from its assignment on. */
  predicate ValidDispatch(r: DispatchRow) {
    r.driverId.Some? <==> r.status.Assigned? || r.status.Compensating? || r.status.Cancelled?
  }

  function StartedRow(o: OrderId): DispatchRow { DispatchRow(o, None, SearchingDriver, None) }

  function AssignedRow(r: DispatchRow, d: DriverId): DispatchRow {
    if r.status.SearchingDriver? then r.(driverId := Some(d), status := Assigned) else r
  }

  function CompensatingRow(r: DispatchRow, reason: FailureReason): Result<DispatchRow, DispatchError> {
    if r.status.Compensating? || r.status.Cancelled? then Success(r)
    else if !r.status.Assigned? || r.driverId.None? then Failure(CannotCompensate(r.status))
    else Success(r.(status := Compensating, failureReason := Some(reason)))
  }

  function CompensatedRow(r: DispatchRow): DispatchRow {
    if r.status.Compensating? then r.(status := Cancelled) else r
  }

  function FailedRow(r: DispatchRow, reason: FailureReason): DispatchRow {
    if r.status.SearchingDriver? then r.(status := Failed, failureReason := Some(reason)) else r
  }

  class Dispatch {
    const id: DispatchId
    const orderId: OrderId
    var driverId: Option<DriverId>
    var status: DispatchStatus
    var failureReason: Option<FailureReason>

    ghost function View(): DispatchRow
      reads this
    {
      DispatchRow(orderId, driverId, status, failureReason)
    }

    constructor Start(id: DispatchId, orderId: OrderId)
      ensures this.id == id && View() == StartedRow(orderId)
    {
      this.id, this.orderId := id, orderId;
      driverId, status, failureReason := None, SearchingDriver, None;
    }

    constructor Rehydrate(id: DispatchId, row: DispatchRow)
      ensures this.id == id && View() == row
    {
      this.id, orderId := id, row.orderId;
      driverId, status, failureReason := row.driverId, row.status, row.failureReason;
    }

    method ToRow() returns (row: DispatchRow)
      ensures row == View()
    {
      row := DispatchRow(orderId, driverId, status, failureReason);
    }

    method Assign(driverId: DriverId)
      modifies this
      ensures View() == AssignedRow(old(View()), driverId)
    {
      if status != SearchingDriver { return; }
      this.driverId := Some(driverId);
      status := Assigned;
    }

    method StartCompensation(reason: FailureReason) returns (error: Option<DispatchError>)
      modifies this
      ensures CompensatingRow(old(View()), reason) == if error.Some? then Failure(error.value) else Success(View())
      ensures error.Some? ==> View() == old(View())
    {
      if status == Compensating || status == Cancelled { return None; }
      if status != Assigned || driverId.None? { return Some(CannotCompensate(status)); }
      status := Compensating;
      failureReason := Some(reason);
      error := None;
    }

    method CompleteCompensation()
      modifies this
      ensures View() == CompensatedRow(old(View()))
    {
      if status == Cancelled { return; }
      if status != Compensating { return; }
      status := Cancelled;
    }

    method Fail(reason: FailureReason)
      modifies this
      ensures View() == FailedRow(old(View()), reason)
    {
      if status != SearchingDriver { return; }
      status := Failed;
      failureReason := Some(reason);
    }
  }

  // ----- what a committed transaction does -----

  /** The table a transaction leaves and the messages it adds to the outbox. */
  datatype Workflow = Workflow(table: DispatchTable, out: seq<Message>)

  predicate HasDispatch(table: DispatchTable, o: OrderId) {
    exists id :: id in table && table[id].orderId == o
  }

  function StartEffect(table: DispatchTable, o: OrderId, id: DispatchId, candidates: Option<seq<DriverId>>,
                       started: EventId, requested: EventId): Workflow {
    if HasDispatch(table, o) then Workflow(table, [])
    else Workflow(table[id := StartedRow(o)],
                  [DispatchStarted(started, o, id), ReservationRequested(requested, o, id, candidates)])
  }

  /** The driver service's answer: a driver, or none and perhaps a reason. */
  function CompleteReservationEffect(table: DispatchTable, id: DispatchId, driver: Option<DriverId>,
                                     reason: Option<FailureReason>, event: EventId): Workflow {
    if id !in table then Workflow(table, [])
    else
      var row := table[id];
      if !row.status.SearchingDriver? then
        if driver.Some? && !row.status.Assigned? && !row.status.Compensating?
        then Workflow(table, [ReleaseRequested(event, row.orderId, id, driver.value)])
        else Workflow(table, [])
      else if driver.Some? then
        Workflow(table[id := AssignedRow(row, driver.value)], [DispatchAssigned(event, row.orderId, id, driver.value)])
      else
        var why := if reason.Some? then reason.value else DriverReservationFailed;
        Workflow(table[id := FailedRow(row, why)], [DispatchFailed(event, row.orderId, id, why)])
  }

  function StartCompensationEffect(table: DispatchTable, id: DispatchId, reason: FailureReason,
                                   event: EventId): Result<Workflow, DispatchError> {
    if id !in table then Failure(DispatchNotFound)
    else
      var row := table[id];
      if row.status.Cancelled? || row.status.Compensating? then Success(Workflow(table, []))
      else
        match CompensatingRow(row, reason)
        case Failure(e) => Failure(e)
        case Success(after) =>
          Success(Workflow(table[id := after], [ReleaseRequested(event, row.orderId, id, row.driverId.value)]))
  }

  function CompleteCompensationEffect(table: DispatchTable, id: DispatchId, event: EventId): Workflow {
    if id !in table || !table[id].status.Compensating? then Workflow(table, [])
    else Workflow(table[id := CompensatedRow(table[id])], [DispatchCancelled(event, table[id].orderId, id)])
  }

  function TimeoutEffect(table: DispatchTable, id: DispatchId, event: EventId): Workflow {
    if id !in table || !table[id].status.SearchingDriver? then Workflow(table, [])
    else Workflow(table[id := FailedRow(table[id], AssignmentTimeout)],
                  [DispatchFailed(event, table[id].orderId, id, AssignmentTimeout)])
  }

  // ----- what every transaction keeps -----

  /** Where a dispatch can go from a status: towards ASSIGNED or FAILED once, and from ASSIGNED only to CANCELLED. */
  predicate StatusEvolves(a: DispatchStatus, b: DispatchStatus) {
    || a == b
    || a.SearchingDriver?
    || (a.Assigned? && (b.Compensating? || b.Cancelled?))
    || (a.Compensating? && b.Cancelled?)
  }

  /** A dispatch never changes its order, keeps its driver once it has one, and its status only moves on. */
  predicate RowEvolves(a: DispatchRow, b: DispatchRow) {
    && a.orderId == b.orderId
    && (a.driverId.Some? ==> a.driverId == b.driverId)
    && StatusEvolves(a.status, b.status)
  }

  predicate TableEvolves(a: DispatchTable, b: DispatchTable) {
    forall id :: id in a ==> id in b && RowEvolves(a[id], b[id])
  }

  predicate ValidTable(table: DispatchTable) {
    && (forall id :: id in table ==> ValidDispatch(table[id]))
    && forall a, b :: a in table && b in table && table[a].orderId == table[b].orderId ==> a == b
  }

  lemma RowSteps(r: DispatchRow, d: DriverId, reason: FailureReason)
    requires ValidDispatch(r)
    ensures ValidDispatch(AssignedRow(r, d)) && RowEvolves(r, AssignedRow(r, d))
    ensures ValidDispatch(CompensatedRow(r)) && RowEvolves(r, CompensatedRow(r))
    ensures ValidDispatch(FailedRow(r, reason)) && RowEvolves(r, FailedRow(r, reason))
    ensures CompensatingRow(r, reason).Success? ==>
              ValidDispatch(CompensatingRow(r, reason).value) && RowEvolves(r, CompensatingRow(r, reason).value)
  {
  }

  /**
   * A dispatch can be cancelled exactly when it is ASSIGNED, or again when it already compensates or is CANCELLED; it
   * is refused with its status otherwise, and as not found when there is none. An accepted one keeps its driver and
   * notes the reason, and only a first cancellation asks for the release.
   */
  lemma CompensationExactly(table: DispatchTable, id: DispatchId, reason: FailureReason, event: EventId)
    requires ValidTable(table)
    ensures
      var result := StartCompensationEffect(table, id, reason, event);
      if id !in table then result == Failure(DispatchNotFound)
      else
        var r := table[id];
        match r.status
        case Assigned =>
          && result.Success? && |result.value.out| == 1
          && result.value.table[id] == DispatchRow(r.orderId, r.driverId, Compensating, Some(reason))
          && (forall x :: x in table && x != id ==> result.value.table[x] == table[x])
          && result.value.out[0] == ReleaseRequested(event, r.orderId, id, r.driverId.value)
        case SearchingDriver => result == Failure(CannotCompensate(SearchingDriver))
        case Failed => result == Failure(CannotCompensate(Failed))
        case Compensating => result == Success(Workflow(table, []))
        case Cancelled => result == Success(Workflow(table, []))
  {
  }

  /** An answer without a driver fails a searching dispatch, for the reason given or else as a failed reservation. */
  lemma AnswerWithoutDriver(table: DispatchTable, id: DispatchId, reason: Option<FailureReason>, event: EventId)
    requires id in table && table[id].status.SearchingDriver?
    ensures
      var after := CompleteReservationEffect(table, id, None, reason, event).table[id];
      && after.status.Failed? && after.orderId == table[id].orderId && after.driverId == table[id].driverId
      && after.failureReason == match reason case Some(why) => reason case None => Some(DriverReservationFailed)
  {
  }

  lemma UpdatedTable(table: DispatchTable, id: DispatchId, row: DispatchRow)
    requires ValidTable(table) && ValidDispatch(row)
    requires if id in table then RowEvolves(table[id], row) else !HasDispatch(table, row.orderId)
    ensures ValidTable(table[id := row]) && TableEvolves(table, table[id := row])
  {
  }

  lemma StartKeeps(table: DispatchTable, o: OrderId, id: DispatchId, candidates: Option<seq<DriverId>>,
                   started: EventId, requested: EventId)
    requires ValidTable(table) && id !in table
    ensures var w := StartEffect(table, o, id, candidates, started, requested);
            ValidTable(w.table) && TableEvolves(table, w.table) && HasDispatch(w.table, o)
  {
    if !HasDispatch(table, o) {
      UpdatedTable(table, id, StartedRow(o));
      assert id in StartEffect(table, o, id, candidates, started, requested).table;
    }
  }

  lemma WorkflowKeeps(table: DispatchTable, id: DispatchId, driver: Option<DriverId>, reason: Option<FailureReason>,
                      why: FailureReason, event: EventId)
    requires ValidTable(table)
    ensures var w := CompleteReservationEffect(table, id, driver, reason, event);
            ValidTable(w.table) && TableEvolves(table, w.table)
    ensures var w := CompleteCompensationEffect(table, id, event); ValidTable(w.table) && TableEvolves(table, w.table)
    ensures var w := TimeoutEffect(table, id, event); ValidTable(w.table) && TableEvolves(table, w.table)
    ensures var w := StartCompensationEffect(table, id, why, event);
            w.Success? ==> ValidTable(w.value.table) && TableEvolves(table, w.value.table)
  {
    if id in table {
      var row := table[id];
      var failure := if reason.Some? then reason.value else DriverReservationFailed;
      RowSteps(row, if driver.Some? then driver.value else 0, failure);
      RowSteps(row, 0, AssignmentTimeout);
      RowSteps(row, 0, why);
      if driver.Some? {
        UpdatedTable(table, id, AssignedRow(row, driver.value));
      }
      UpdatedTable(table, id, FailedRow(row, failure));
      UpdatedTable(table, id, FailedRow(row, AssignmentTimeout));
      UpdatedTable(table, id, CompensatedRow(row));
      if CompensatingRow(row, why).Success? {
        UpdatedTable(table, id, CompensatingRow(row, why).value);
      }
    }
  }

  /** Answering twice is answering once, except that a driver offered to a failed dispatch is sent back each time. */
  lemma CompleteReservationTwice(table: DispatchTable, id: DispatchId, driver: Option<DriverId>,
                                 reason: Option<FailureReason>, first: EventId, second: EventId)
    ensures
      var once := CompleteReservationEffect(table, id, driver, reason, first);
      var twice := CompleteReservationEffect(once.table, id, driver, reason, second);
      && twice.table == once.table
      && (twice.out != [] <==> id in table && driver.Some? && (table[id].status.Failed? || table[id].status.Cancelled?))
  {
  }

  // ----- the transactions -----

  class DispatchWorkflow {
    var table: DispatchTable
    var outbox: seq<Message>

    constructor ()
      ensures table == map[] && outbox == []
    {
      table, outbox := map[], [];
    }

    method Enqueue(m: Message)
      modifies this`outbox
      ensures outbox == old(outbox) + [m]
    {
      outbox := outbox + [m];
    }

    /** `id` and the event ids are freshly drawn. */
    method Start(dispatch: Dispatch, candidates: Option<seq<DriverId>>, started: EventId, requested: EventId)
      requires dispatch.View() == StartedRow(dispatch.orderId)
      modifies this
      ensures var w := StartEffect(old(table), dispatch.orderId, dispatch.id, candidates, started, requested);
              table == w.table && outbox == old(outbox) + w.out
    {
      var o := dispatch.orderId;
      if exists id :: id in table && table[id].orderId == o { return; }
      var row := dispatch.ToRow();
      table := table[dispatch.id := row];
      Enqueue(DispatchStarted(started, o, dispatch.id));
      Enqueue(ReservationRequested(requested, o, dispatch.id, candidates));
    }

    method CompleteReservation(id: DispatchId, driverId: Option<DriverId>, reason: Option<FailureReason>,
                               event: EventId)
      modifies this
      ensures var w := CompleteReservationEffect(old(table), id, driverId, reason, event);
              table == w.table && outbox == old(outbox) + w.out
    {
      if id !in table { return; }
      var dispatch := new Dispatch.Rehydrate(id, table[id]);
      if dispatch.status != SearchingDriver {
        if driverId.Some? && dispatch.status != Assigned && dispatch.status != Compensating {
          Enqueue(ReleaseRequested(event, dispatch.orderId, id, driverId.value));
        }
        return;
      }
      if driverId.Some? {
        dispatch.Assign(driverId.value);
        var row := dispatch.ToRow();
        table := table[id := row];
        Enqueue(DispatchAssigned(event, dispatch.orderId, id, driverId.value));
        return;
      }
      var why := if reason.Some? then reason.value else DriverReservationFailed;
      dispatch.Fail(why);
      var row := dispatch.ToRow();
      table := table[id := row];
      Enqueue(DispatchFailed(event, dispatch.orderId, id, why));
    }

    method StartCompensation(id: DispatchId, reason: FailureReason,
                             event: EventId) returns (error: Option<DispatchError>)
      modifies this
      ensures match StartCompensationEffect(old(table), id, reason, event)
              case Failure(e) => error == Some(e) && table == old(table) && outbox == old(outbox)
              case Success(w) => error == None && table == w.table && outbox == old(outbox) + w.out
    {
      if id !in table { return Some(DispatchNotFound); }
      var dispatch := new Dispatch.Rehydrate(id, table[id]);
      if dispatch.status == Cancelled || dispatch.status == Compensating { return None; }
      error := dispatch.StartCompensation(reason);
      if error.Some? { return; }
      var row := dispatch.ToRow();
      table := table[id := row];
      Enqueue(ReleaseRequested(event, dispatch.orderId, id, dispatch.driverId.value));
    }

    method CompleteCompensation(id: DispatchId, event: EventId)
      modifies this
      ensures var w := CompleteCompensationEffect(old(table), id, event);
              table == w.table && outbox == old(outbox) + w.out
    {
      if id !in table { return; }
      var dispatch := new Dispatch.Rehydrate(id, table[id]);
      if dispatch.status == Cancelled { return; }
      if dispatch.status != Compensating { return; }
      dispatch.CompleteCompensation();
      var row := dispatch.ToRow();
      table := table[id := row];
      Enqueue(DispatchCancelled(event, dispatch.orderId, id));
    }

    method Timeout(id: DispatchId, event: EventId)
      modifies this
      ensures var w := TimeoutEffect(old(table), id, event);
              table == w.table && outbox == old(outbox) + w.out
    {
      if id !in table { return; }
      var dispatch := new Dispatch.Rehydrate(id, table[id]);
      if dispatch.status != SearchingDriver { return; }
      dispatch.Fail(AssignmentTimeout);
      var row := dispatch.ToRow();
      table := table[id := row];
      Enqueue(DispatchFailed(event, dispatch.orderId, id, AssignmentTimeout));
    }
  }
}
