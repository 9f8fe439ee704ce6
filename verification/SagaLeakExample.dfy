/**
 * A run that leaks capacity. The driver service answers a reservation request with a failure and crashes before
 * marking it; a driver registers; the redelivered request succeeds under the same event id. The dispatch
 * service handles the failure, marks the key, and takes the success for a duplicate.
 */
module SagaLeakExample {
  import opened Prelude
  import opened Messages
  import opened Drivers
  import opened Reservations
  import opened Dispatches
  import Orders
  import opened SagaTables
  import opened Sagas
  import opened SagaDelivery
  import opened SagaLeaks

  const READY := OrderReady(10, 1)
  const STARTED := DispatchStarted(11, 1, 7)
  const REQUEST := ReservationRequested(12, 1, 7, None)
  const REFUSAL := ReservationFailed(12, 1, 7, NoAvailableDriver)
  const GRANT := DriverReserved(12, 1, 7, 5)
  const REPORT := DispatchFailed(13, 1, 7, NoAvailableDriver)

  const NO_DRIVERS := DriverDb(map[], map[])
  const IDLE := DriverDb(map[5 := DriverRow(1, [], Available, 0)], map[])
  const TAKEN := DriverDb(map[5 := DriverRow(1, [1], DriverStatus.Reserved, 0)], map[1 := Reservation(7, 5, Active)])

  const PENDING: Orders.OrderTable := map[1 := Orders.CREATED_ROW]
  const SEARCHING: DispatchTable := map[7 := StartedRow(1)]
  const GIVEN_UP: DispatchTable := map[7 := DispatchRow(1, None, DispatchStatus.Failed, Some(NoAvailableDriver))]

  const READY_DONE := InboxKey(DispatchService, 10)
  const REQUEST_DONE := InboxKey(DriverService, 12)
  const ANSWER_DONE := InboxKey(DispatchService, 12)

  const DRAWN: map<EventId, Message> := map[10 := READY, 11 := STARTED, 12 := REQUEST]
  const DRAWN_TOO: map<EventId, Message> := map[10 := READY, 11 := STARTED, 12 := REQUEST, 13 := REPORT]

  const S1 := State(Tables(PENDING, NO_DRIVERS, map[]), {READY}, [READY], {}, {}, {}, map[10 := READY], map[])
  const S2 := State(Tables(PENDING, NO_DRIVERS, SEARCHING), {READY, STARTED, REQUEST}, [STARTED, REQUEST], {},
                    {READY_DONE}, {READY}, DRAWN, map[7 := 12])
  const S3 := S2.(sent := {READY, STARTED, REQUEST, REFUSAL}, pool := [STARTED, REQUEST, REFUSAL],
                  ran := {READY, REQUEST})
  const S4 := S3.(tables := Tables(PENDING, IDLE, SEARCHING))
  const S5 := S4.(tables := Tables(PENDING, TAKEN, SEARCHING), sent := {READY, STARTED, REQUEST, REFUSAL, GRANT},
                  pool := [STARTED, REFUSAL, GRANT], inbox := {READY_DONE, REQUEST_DONE})
  const S6 := S5.(tables := Tables(PENDING, TAKEN, GIVEN_UP), sent := {READY, STARTED, REQUEST, REFUSAL, GRANT, REPORT},
                  pool := [STARTED, GRANT, REPORT], inbox := {READY_DONE, REQUEST_DONE, ANSWER_DONE},
                  ran := {READY, REQUEST, REFUSAL}, issued := DRAWN_TOO)
  const S7 := S6.(pool := [STARTED, REPORT])

  const REPORT_DONE := InboxKey(OrderService, 13)
  const STARTED_DONE := InboxKey(OrderService, 11)
  const S8 := S7.(pool := [STARTED], inbox := {READY_DONE, REQUEST_DONE, ANSWER_DONE, REPORT_DONE},
                  ran := {READY, REQUEST, REFUSAL, REPORT})
  const S9 := S8.(tables := Tables(map[1 := Orders.OrderRow(Orders.Dispatching, None, None)], TAKEN, GIVEN_UP),
                  pool := [], inbox := {READY_DONE, REQUEST_DONE, ANSWER_DONE, REPORT_DONE, STARTED_DONE},
                  ran := {READY, REQUEST, REFUSAL, REPORT, STARTED})

  const T1 := Execute(CreateOrder(1, 10))
  const T2 := Handle(0, Choice(7, 11, 12, None, None), Processed, true)
  const T3 := Handle(1, Choice(0, 20, 21, None, None), Keep, false)
  const T4 := Execute(RegisterDriver(5, 1, 0))
  const T5 := Handle(1, Choice(0, 20, 21, None, Some(5)), Processed, true)
  const T6 := Handle(1, Choice(0, 13, 20, None, None), Processed, true)
  const T7 := Drop(1)
  const T8 := Handle(1, Choice(0, 20, 21, None, None), Processed, true)
  const T9 := Handle(0, Choice(0, 20, 21, None, None), Processed, true)

  lemma RecordOne(issued: map<EventId, Message>, requests: map<DispatchId, EventId>, m: Message)
    ensures Issued(issued, [m]) == if m.eventId in issued then issued else issued[m.eventId := m]
    ensures Requests(requests, [m]) == if m.ReservationRequested? then requests[m.dispatchId := m.eventId] else requests
  {
    assert [m][..0] == [];
  }

  /** A handler run, spelled out: the tables and messages it commits, and the copies and keys left. */
  lemma HandleStep(s: State, step: Step, tables: Tables, out: seq<Message>, pool: seq<Message>, sent: set<Message>,
                   inbox: set<InboxKey>, ran: set<Message>, s': State)
    requires step.Handle? && !step.mark.Forgotten? && step.at < |s.pool|
    requires ChoiceAllowed(s.tables, s.pool[step.at], step.choice)
    requires Handled(s.tables, s.pool[step.at], step.choice) == Some(Change(tables, out))
    requires FreshFor(s, step.choice.first) && FreshFor(s, step.choice.second)
    requires step.choice.first != step.choice.second
    requires pool == (if step.acked then Without(s.pool, step.at) else s.pool) + out
    requires sent == s.sent + (set m | m in out) && ran == s.ran + {s.pool[step.at]}
    requires inbox == Marked(s.inbox, KeyOf(s.pool[step.at]), step.mark)
    requires s' == State(tables, sent, pool, s.dead, inbox, ran, Issued(s.issued, out), Requests(s.requests, out))
    ensures Enabled(s, step) && Apply(s, step) == s'
  {
  }

  lemma Step1()
    ensures Enabled(INITIAL, T1) && Apply(INITIAL, T1) == S1
  {
    RecordOne(map[], map[], READY);
    assert Apply(INITIAL, T1).sent == S1.sent;
  }

  lemma ReadyHandled()
    ensures ChoiceAllowed(S1.tables, READY, T2.choice)
    ensures Handled(S1.tables, READY, T2.choice) == Some(Change(S2.tables, [STARTED, REQUEST]))
  {
    assert !HasDispatch(map[], 1);
  }

  lemma ReadyRecorded()
    ensures Issued(S1.issued, [STARTED, REQUEST]) == DRAWN && Requests(map[], [STARTED, REQUEST]) == map[7 := 12]
  {
    RecordOne(S1.issued, map[], STARTED);
    assert [STARTED, REQUEST][..1] == [STARTED];
  }

  lemma Step2()
    ensures Enabled(S1, T2) && Apply(S1, T2) == S2
  {
    ReadyHandled();
    ReadyRecorded();
    HandleStep(S1, T2, S2.tables, [STARTED, REQUEST], S2.pool, S2.sent, S2.inbox, S2.ran, S2);
  }

  lemma RequestRefused()
    ensures ChoiceAllowed(S2.tables, REQUEST, T3.choice)
    ensures Handled(S2.tables, REQUEST, T3.choice) == Some(Change(S2.tables, [REFUSAL]))
  {
  }

  lemma Step3()
    ensures Enabled(S2, T3) && Apply(S2, T3) == S3
  {
    RequestRefused();
    RecordOne(DRAWN, S2.requests, REFUSAL);
    HandleStep(S2, T3, S3.tables, [REFUSAL], S3.pool, S3.sent, S3.inbox, S3.ran, S3);
  }

  lemma Step4()
    ensures Enabled(S3, T4) && Apply(S3, T4) == S4
  {
    var after := Apply(S3, T4);
    assert after.pool == S4.pool && after.sent == S4.sent;
  }

  lemma Granted()
    ensures PickAllowed(IDLE, REQUEST, Some(5)) && ReserveEffect(IDLE, REQUEST, Some(5)) == Committed(TAKEN, GRANT)
  {
    assert [] + [1] == [1 as OrderId];
    assert ReservedRow(IDLE.drivers[5], 1) == Result.Success(TAKEN.drivers[5]);
    assert IDLE.drivers[5 := TAKEN.drivers[5]] == TAKEN.drivers;
    assert IDLE.reservations[1 := Reservation(7, 5, Active)] == TAKEN.reservations;
  }

  /** Whatever the orders and dispatches, the idle driver is taken. */
  lemma RequestGranted(orders: Orders.OrderTable, dispatches: DispatchTable)
    ensures ChoiceAllowed(Tables(orders, IDLE, dispatches), REQUEST, T5.choice)
    ensures Handled(Tables(orders, IDLE, dispatches), REQUEST, T5.choice)
            == Some(Change(Tables(orders, TAKEN, dispatches), [GRANT]))
  {
    Granted();
  }

  lemma Step5()
    ensures Enabled(S4, T5) && Apply(S4, T5) == S5
  {
    RequestGranted(PENDING, SEARCHING);
    RecordOne(DRAWN, S4.requests, GRANT);
    assert Without(S4.pool, 1) == [STARTED, REFUSAL];
    HandleStep(S4, T5, S5.tables, [GRANT], S5.pool, S5.sent, S5.inbox, S5.ran, S5);
  }

  lemma RefusalHandled()
    ensures Handled(S5.tables, REFUSAL, T6.choice) == Some(Change(S6.tables, [REPORT]))
  {
    assert SEARCHING[7 := FailedRow(StartedRow(1), NoAvailableDriver)] == GIVEN_UP;
  }

  lemma Step6()
    ensures Enabled(S5, T6) && Apply(S5, T6) == S6
  {
    RefusalHandled();
    RecordOne(DRAWN, S5.requests, REPORT);
    assert DRAWN[13 := REPORT] == DRAWN_TOO;
    assert Without(S5.pool, 1) == [STARTED, GRANT];
    HandleStep(S5, T6, S6.tables, [REPORT], S6.pool, S6.sent, S6.inbox, S6.ran, S6);
  }

  lemma Step7()
    ensures Enabled(S6, T7) && Apply(S6, T7) == S7
  {
  }

  lemma ReportHandled()
    ensures Handled(S7.tables, REPORT, T8.choice) == Some(Change(S8.tables, []))
  {
    assert PENDING[1 := Orders.CREATED_ROW] == PENDING;
  }

  lemma Step8()
    ensures Enabled(S7, T8) && Apply(S7, T8) == S8
  {
    ReportHandled();
    assert Without(S7.pool, 1) == [STARTED];
    HandleStep(S7, T8, S8.tables, [], S8.pool, S8.sent, S8.inbox, S8.ran, S8);
  }

  lemma StartHandled()
    ensures Handled(S8.tables, STARTED, T9.choice) == Some(Change(S9.tables, []))
  {
    assert PENDING[1 := Orders.OrderRow(Orders.Dispatching, None, None)] == S9.tables.orders;
  }

  lemma Step9()
    ensures Enabled(S8, T9) && Apply(S8, T9) == S9
  {
    StartHandled();
    assert Without(S8.pool, 0) == [];
    HandleStep(S8, T9, S9.tables, [], S9.pool, S9.sent, S9.inbox, S9.ran, S9);
  }

  lemma Prepend(s: State, step: Step, next: State, steps: seq<Step>)
    requires Enabled(s, step) && Apply(s, step) == next && Legal(next, steps)
    ensures Legal(s, [step] + steps) && Run(s, [step] + steps) == Run(next, steps)
  {
    assert ([step] + steps)[1..] == steps;
  }

  /** Built from its end, the example is a legal run. */
  lemma ExampleRun() returns (steps: seq<Step>)
    ensures Legal(INITIAL, steps) && Run(INITIAL, steps) == S9
  {
    Step1(); Step2(); Step3(); Step4(); Step5(); Step6(); Step7(); Step8(); Step9();
    steps := [];
    Prepend(S8, T9, S9, steps);
    steps := [T9] + steps;
    Prepend(S7, T8, S8, steps);
    steps := [T8] + steps;
    Prepend(S6, T7, S7, steps);
    steps := [T7] + steps;
    Prepend(S5, T6, S6, steps);
    steps := [T6] + steps;
    Prepend(S4, T5, S5, steps);
    steps := [T5] + steps;
    Prepend(S3, T4, S4, steps);
    steps := [T4] + steps;
    Prepend(S2, T3, S3, steps);
    steps := [T3] + steps;
    Prepend(S1, T2, S2, steps);
    steps := [T2] + steps;
    Prepend(INITIAL, T1, S1, steps);
    steps := [T1] + steps;
  }

  /**
   * Without the guard capacity can be lost for good: nothing is left to deliver, the driver still holds the
   * order, and its dispatch has FAILED. Nor does a FAILED dispatch always leave its order PENDING.
   */
  lemma CapacityCanLeak()
    ensures exists steps :: Legal(INITIAL, steps) && Quiet(Run(INITIAL, steps))
                            && !NoLeak(Run(INITIAL, steps))
                            && Run(INITIAL, steps).tables.dispatches == GIVEN_UP
                            && Run(INITIAL, steps).tables.orders ==
                               map[1 := Orders.OrderRow(Orders.Dispatching, None, None)]
  {
    var steps := ExampleRun();
    assert ActiveOn(S9.tables.db, 1) && !Covered(S9, 1);
  }
}
