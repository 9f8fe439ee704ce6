/**
 * Two runs in which a cancelled order has a dispatch that goes on: one cancels the order after its dispatch has
 * started, and the dispatch is assigned all the same; the other starts the dispatch after the cancellation.
 */
module SagaCancelExample {
  import opened Prelude
  import opened Messages
  import opened Drivers
  import opened Reservations
  import opened Dispatches
  import Orders
  import opened SagaTables
  import opened Sagas
  import opened SagaOrders
  import opened SagaLeakExample

  const ASSIGNMENT := DispatchAssigned(13, 1, 7, 5)

  const DROPPED: Orders.OrderTable := map[1 := Orders.OrderRow(Orders.Cancelled, None, None)]
  const GIVEN: DispatchTable := map[7 := DispatchRow(1, Some(5), DispatchStatus.Assigned, None)]
  const DRAWN_LATER: map<EventId, Message> := map[10 := READY, 11 := STARTED, 12 := REQUEST, 13 := ASSIGNMENT]

  const CANCEL := Execute(CancelOrder(1))

  /** The statuses in which a dispatch goes no further. */
  const ENDS := {DispatchStatus.Cancelled, DispatchStatus.Failed}

  // ----- cancelled after the start -----

  const C3 := S2.(tables := Tables(DROPPED, NO_DRIVERS, SEARCHING))
  const C4 := C3.(tables := Tables(DROPPED, IDLE, SEARCHING))
  const C5 := C4.(tables := Tables(DROPPED, TAKEN, SEARCHING), sent := {READY, STARTED, REQUEST, GRANT},
                  pool := [STARTED, GRANT], inbox := {READY_DONE, REQUEST_DONE}, ran := {READY, REQUEST})
  const C6 := C5.(tables := Tables(DROPPED, TAKEN, GIVEN), sent := {READY, STARTED, REQUEST, GRANT, ASSIGNMENT},
                  pool := [STARTED, ASSIGNMENT], inbox := {READY_DONE, REQUEST_DONE, ANSWER_DONE},
                  ran := {READY, REQUEST, GRANT}, issued := DRAWN_LATER)

  lemma Dropped()
    ensures CommandAccepted(S2.tables, CancelOrder(1)) && CommandAccepted(S1.tables, CancelOrder(1))
    ensures Commanded(S2.tables, CancelOrder(1)) == Change(C3.tables, [])
    ensures Commanded(S1.tables, CancelOrder(1)) == Change(S1.tables.(orders := DROPPED), [])
  {
    assert PENDING[1 := Orders.OrderRow(Orders.Cancelled, None, None)] == DROPPED;
  }

  lemma StepC3()
    ensures Enabled(S2, CANCEL) && Apply(S2, CANCEL) == C3
  {
    Dropped();
    assert Apply(S2, CANCEL).sent == C3.sent && Apply(S2, CANCEL).pool == C3.pool;
  }

  lemma StepC4()
    ensures Enabled(C3, T4) && Apply(C3, T4) == C4
  {
    assert Apply(C3, T4).sent == C4.sent && Apply(C3, T4).pool == C4.pool;
  }

  lemma StepC5()
    ensures Enabled(C4, T5) && Apply(C4, T5) == C5
  {
    RequestGranted(DROPPED, SEARCHING);
    RecordOne(DRAWN, C4.requests, GRANT);
    assert Without(C4.pool, 1) == [STARTED];
    HandleStep(C4, T5, C5.tables, [GRANT], C5.pool, C5.sent, C5.inbox, C5.ran, C5);
  }

  lemma GrantHandled()
    ensures Handled(C5.tables, GRANT, T6.choice) == Some(Change(C6.tables, [ASSIGNMENT]))
  {
    assert SEARCHING[7 := DispatchRow(1, Some(5), DispatchStatus.Assigned, None)] == GIVEN;
  }

  lemma StepC6()
    ensures Enabled(C5, T6) && Apply(C5, T6) == C6
  {
    GrantHandled();
    RecordOne(DRAWN, C5.requests, ASSIGNMENT);
    assert DRAWN[13 := ASSIGNMENT] == DRAWN_LATER;
    assert Without(C5.pool, 1) == [STARTED];
    HandleStep(C5, T6, C6.tables, [ASSIGNMENT], C6.pool, C6.sent, C6.inbox, C6.ran, C6);
  }

  /** The run up to the cancellation. */
  lemma StartedRun() returns (steps: seq<Step>)
    ensures Legal(INITIAL, steps) && Run(INITIAL, steps) == S2
  {
    Step1(); Step2();
    steps := [];
    Prepend(S1, T2, S2, steps);
    steps := [T2] + steps;
    Prepend(INITIAL, T1, S1, steps);
    steps := [T1] + steps;
  }

  /** The run after it. */
  lemma AssignedRun() returns (steps: seq<Step>)
    ensures Legal(C3, steps) && Run(C3, steps) == C6
  {
    StepC4(); StepC5(); StepC6();
    steps := [];
    Prepend(C5, T6, C6, steps);
    steps := [T6] + steps;
    Prepend(C4, T5, C5, steps);
    steps := [T5] + steps;
    Prepend(C3, T4, C4, steps);
    steps := [T4] + steps;
  }

  /** The order is cancelled by hand in this state although its dispatch goes on, and afterwards the steps follow. */
  ghost predicate CancelledTooLate(s: State, after: seq<Step>) {
    && Enabled(s, CANCEL) && CancelsTooLate(s.tables, CancelOrder(1), ENDS)
    && Legal(Apply(s, CANCEL), after)
  }

  /** The order is cancelled with a driver holding it and its dispatch ASSIGNED, and will refuse the assignment. */
  ghost predicate AssignedAnyway(s: State) {
    && s.tables == Tables(DROPPED, TAKEN, GIVEN)
    && ASSIGNMENT in s.pool && Orders.OrdersAfter(s.tables.orders, ASSIGNMENT).Failure?
    && !Honoured(s.tables, ENDS)
  }

  lemma LateCancel(after: seq<Step>)
    requires Legal(C3, after)
    ensures CancelledTooLate(S2, after) && Apply(S2, CANCEL) == C3
  {
    StepC3();
    assert Known(S2.tables, 7, 1) && S2.tables.dispatches[7].status !in ENDS;
  }

  lemma HeldAnyway()
    ensures AssignedAnyway(C6)
  {
    assert 7 in C6.tables.dispatches && OrderCancelled(C6.tables, 1);
  }

  /** A cancellation can come too late: the dispatch is ASSIGNED after it, and the cancelled order refuses. */
  lemma CancelCanBeIgnored()
    ensures exists before, after ::
              && Legal(INITIAL, before) && CancelledTooLate(Run(INITIAL, before), after)
              && AssignedAnyway(Run(Apply(Run(INITIAL, before), CANCEL), after))
  {
    var before := StartedRun();
    var after := AssignedRun();
    LateCancel(after);
    HeldAnyway();
  }

  // ----- started after the cancellation -----

  const D2 := S1.(tables := S1.tables.(orders := DROPPED))
  const D3 := S2.(tables := Tables(DROPPED, NO_DRIVERS, SEARCHING))

  lemma StepD2()
    ensures Enabled(S1, CANCEL) && Apply(S1, CANCEL) == D2
  {
    Dropped();
    assert Apply(S1, CANCEL).sent == D2.sent && Apply(S1, CANCEL).pool == D2.pool;
  }

  lemma LateReadyHandled()
    ensures ChoiceAllowed(D2.tables, READY, T2.choice)
    ensures Handled(D2.tables, READY, T2.choice) == Some(Change(D3.tables, [STARTED, REQUEST]))
  {
    assert !HasDispatch(map[], 1);
  }

  lemma StepD3()
    ensures Enabled(D2, T2) && Apply(D2, T2) == D3
  {
    LateReadyHandled();
    ReadyRecorded();
    HandleStep(D2, T2, D3.tables, [STARTED, REQUEST], D3.pool, D3.sent, D3.inbox, D3.ran, D3);
  }

  lemma DroppedRun() returns (steps: seq<Step>)
    ensures Legal(INITIAL, steps) && Run(INITIAL, steps) == D2
  {
    Step1(); StepD2();
    steps := [];
    Prepend(S1, CANCEL, D2, steps);
    steps := [CANCEL] + steps;
    Prepend(INITIAL, T1, S1, steps);
    steps := [T1] + steps;
  }

  /** The handler started next in this state begins a dispatch for an order that has been cancelled already. */
  ghost predicate StartedTooLate(s: State) {
    && Enabled(s, T2) && StartsTooLate(s.tables, s.pool[T2.at])
    && Apply(s, T2).tables == Tables(DROPPED, NO_DRIVERS, SEARCHING)
    && !Honoured(Apply(s, T2).tables, ENDS)
  }

  lemma LateStart()
    ensures StartedTooLate(D2)
  {
    StepD3();
    assert !HasDispatch(map[], 1);
    assert 7 in D3.tables.dispatches && OrderCancelled(D3.tables, 1);
  }

  /** A start can come too late: the order was cancelled before its dispatch begins. */
  lemma StartCanComeTooLate()
    ensures exists steps :: Legal(INITIAL, steps) && StartedTooLate(Run(INITIAL, steps))
  {
    var steps := DroppedRun();
    LateStart();
    assert Legal(INITIAL, steps) && Run(INITIAL, steps) == D2;
  }
}
