/**
 * Where an order stands when its dispatch has not been carried through: exactly when a FAILED dispatch leaves its
 * order pending, and exactly which steps leave a CANCELLED order with a dispatch that goes on.
 */
module SagaOrders {
  import opened Prelude
  import opened Messages
  import opened Dispatches
  import Orders
  import opened SagaTables
  import opened Sagas
  import opened SagaDelivery

  // ----- which of the two reports was handled last -----

  /** Whether the last report of a start or a failure handled for the order is one of a start. */
  predicate StartLastAfter(s: State, step: Step, o: OrderId, before: bool) {
    if step.Handle? && step.at < |s.pool| && s.pool[step.at].orderId == o then
      s.pool[step.at].DispatchStarted? || (before && !s.pool[step.at].DispatchFailed?)
    else before
  }

  predicate StartLast(s: State, steps: seq<Step>, o: OrderId, before: bool)
    requires Legal(s, steps)
    decreases |steps|
  {
    if steps == [] then before
    else StartLast(Apply(s, steps[0]), steps[1..], o, StartLastAfter(s, steps[0], o, before))
  }

  /** A dispatching order has had a start last, and after a start an order is not pending. */
  predicate StatusFits(orders: Orders.OrderTable, o: OrderId, startLast: bool) {
    && (startLast ==> o in orders && !orders[o].status.PendingDispatch?)
    && (o in orders && orders[o].status.Dispatching? ==> startLast)
  }

  lemma CommandedFits(t: Tables, c: Command, o: OrderId, startLast: bool)
    requires CommandAccepted(t, c) && StatusFits(t.orders, o, startLast)
    ensures StatusFits(Commanded(t, c).tables.orders, o, startLast)
  {
  }

  lemma HandledFits(t: Tables, m: Message, c: Choice, o: OrderId, startLast: bool)
    requires m.orderId in t.orders && ChoiceAllowed(t, m, c) && Handled(t, m, c).Some?
    requires StatusFits(t.orders, o, startLast)
    ensures
      var startLast' := if m.orderId == o then m.DispatchStarted? || (startLast && !m.DispatchFailed?) else startLast;
      StatusFits(Handled(t, m, c).value.tables.orders, o, startLast')
  {
  }

  lemma StepFits(s: State, step: Step, o: OrderId, startLast: bool)
    requires Inv(s) && Enabled(s, step) && StatusFits(s.tables.orders, o, startLast)
    ensures StatusFits(Apply(s, step).tables.orders, o, StartLastAfter(s, step, o, startLast))
  {
    match step
    case Execute(c) => CommandedFits(s.tables, c, o, startLast);
    case Handle(i, c, _, _) =>
      OrderExists(s.tables, s.pool[i]);
      HandledFits(s.tables, s.pool[i], c, o, startLast);
    case Settle(_, _, _) =>
    case Fail(_, _) =>
    case Drop(_) =>
    case DeadLetter(_) =>
    case Redeliver(_) =>
  }

  lemma {:induction false} RunFits(s: State, steps: seq<Step>, o: OrderId, startLast: bool)
    requires Inv(s) && Legal(s, steps) && StatusFits(s.tables.orders, o, startLast)
    ensures StatusFits(Run(s, steps).tables.orders, o, StartLast(s, steps, o, startLast))
    decreases |steps|
  {
    if steps != [] {
      StepKeepsInv(s, steps[0]);
      StepFits(s, steps[0], o, startLast);
      RunFits(Apply(s, steps[0]), steps[1..], o, StartLastAfter(s, steps[0], o, startLast));
    }
  }

  /**
   * A FAILED dispatch leaves its order pending if and only if the order has not been cancelled by hand and the last
   * of the dispatch's two reports to be handled is not the one of its start; otherwise the order stays dispatching.
   */
  lemma FailedOrderStatus(steps: seq<Step>, id: DispatchId)
    requires Legal(INITIAL, steps) && id in Run(INITIAL, steps).tables.dispatches
    requires Run(INITIAL, steps).tables.dispatches[id].status.Failed?
    ensures
      var t := Run(INITIAL, steps).tables;
      var o := t.dispatches[id].orderId;
      var startLast := StartLast(INITIAL, steps, o, false);
      && o in t.orders
      && (t.orders[o].status.PendingDispatch? <==> !startLast && !t.orders[o].status.Cancelled?)
      && (t.orders[o].status.Dispatching? <==> startLast && !t.orders[o].status.Cancelled?)
  {
    InitialInv();
    RunKeepsInv(INITIAL, steps);
    FailedOrderFree(Run(INITIAL, steps), id);
    RunFits(INITIAL, steps, Run(INITIAL, steps).tables.dispatches[id].orderId, false);
  }

  // ----- cancelled orders -----

  /** Statuses a dispatch never leaves: CANCELLED alone, or CANCELLED and FAILED. */
  predicate Final(ends: set<DispatchStatus>) {
    DispatchStatus.Cancelled in ends && ends <= {DispatchStatus.Cancelled, DispatchStatus.Failed}
  }

  predicate OrderCancelled(t: Tables, o: OrderId) {
    o in t.orders && t.orders[o].status.Cancelled?
  }

  /** The dispatch of a CANCELLED order is in one of the final statuses. */
  ghost predicate Honoured(t: Tables, ends: set<DispatchStatus>) {
    forall id :: id in t.dispatches && OrderCancelled(t, t.dispatches[id].orderId) ==> t.dispatches[id].status in ends
  }

  /** The order is cancelled by hand while its dispatch goes on. */
  ghost predicate CancelsTooLate(t: Tables, c: Command, ends: set<DispatchStatus>) {
    c.CancelOrder? && exists id :: Known(t, id, c.orderId) && t.dispatches[id].status !in ends
  }

  /** A dispatch is started for an order that has been cancelled already. */
  predicate StartsTooLate(t: Tables, m: Message) {
    m.OrderReady? && OrderCancelled(t, m.orderId) && !HasDispatch(t.dispatches, m.orderId)
  }

  ghost predicate Ignores(s: State, step: Step, ends: set<DispatchStatus>) {
    || (step.Execute? && CancelsTooLate(s.tables, step.command, ends))
    || (step.Handle? && step.at < |s.pool| && StartsTooLate(s.tables, s.pool[step.at]))
  }

  lemma FinalStays(t: Tables, t': Tables, id: DispatchId, ends: set<DispatchStatus>)
    requires id in t.dispatches && Progress(t, t') && Final(ends)
    ensures id in t'.dispatches && t'.dispatches[id].orderId == t.dispatches[id].orderId
    ensures t.dispatches[id].status in ends ==> t'.dispatches[id].status in ends
  {
    assert RowEvolves(t.dispatches[id], t'.dispatches[id]);
  }

  lemma TooLateIgnored(t: Tables, c: Command, ends: set<DispatchStatus>)
    requires CommandAccepted(t, c) && CancelsTooLate(t, c, ends)
    ensures !Honoured(Commanded(t, c).tables, ends)
  {
    var id :| Known(t, id, c.orderId) && t.dispatches[id].status !in ends;
    assert id in Commanded(t, c).tables.dispatches && OrderCancelled(Commanded(t, c).tables, c.orderId);
  }

  /** No command adds a dispatch, and only cancelling an order makes it CANCELLED. */
  lemma CommandedOrders(t: Tables, c: Command, o: OrderId)
    requires CommandAccepted(t, c)
    ensures Commanded(t, c).tables.dispatches.Keys == t.dispatches.Keys
    ensures OrderCancelled(Commanded(t, c).tables, o) ==> OrderCancelled(t, o) || (c.CancelOrder? && c.orderId == o)
  {
  }

  lemma CommandedHonours(t: Tables, c: Command, ends: set<DispatchStatus>)
    requires TablesOk(t) && CommandAccepted(t, c) && Honoured(t, ends) && Final(ends)
    ensures Honoured(Commanded(t, c).tables, ends) <==> !CancelsTooLate(t, c, ends)
  {
    var t' := Commanded(t, c).tables;
    CommandedKeeps(t, c);
    if CancelsTooLate(t, c, ends) {
      TooLateIgnored(t, c, ends);
    } else {
      forall id | id in t'.dispatches && OrderCancelled(t', t'.dispatches[id].orderId)
        ensures t'.dispatches[id].status in ends
      {
        CommandedOrders(t, c, t'.dispatches[id].orderId);
        FinalStays(t, t', id, ends);
        assert Known(t, id, t.dispatches[id].orderId);
      }
    }
  }

  lemma ReadyHonours(t: Tables, m: Message, c: Choice, ends: set<DispatchStatus>)
    requires TablesOk(t) && MessageOk(t, m) && m.OrderReady? && ChoiceAllowed(t, m, c) && Honoured(t, ends)
    requires Final(ends)
    ensures Honoured(Handled(t, m, c).value.tables, ends) <==> !StartsTooLate(t, m)
  {
    var t' := Handled(t, m, c).value.tables;
    if StartsTooLate(t, m) {
      assert c.dispatchId in t'.dispatches && t'.dispatches[c.dispatchId].status.SearchingDriver?;
      assert OrderCancelled(t', t'.dispatches[c.dispatchId].orderId);
    }
  }

  /** Only a dispatch's own cancellation makes a handler cancel an order. */
  lemma HandledCancels(t: Tables, m: Message, c: Choice, o: OrderId)
    requires ChoiceAllowed(t, m, c) && Handled(t, m, c).Some?
    requires !OrderCancelled(t, o) && OrderCancelled(Handled(t, m, c).value.tables, o)
    ensures m.DispatchCancelled? && m.orderId == o
  {
  }

  lemma NoNewDispatch(t: Tables, m: Message, c: Choice, id: DispatchId)
    requires ChoiceAllowed(t, m, c) && Handled(t, m, c).Some? && !m.OrderReady?
    requires id in Handled(t, m, c).value.tables.dispatches
    ensures id in t.dispatches
  {
  }

  lemma OtherHonours(t: Tables, m: Message, c: Choice, ends: set<DispatchStatus>)
    requires TablesOk(t) && MessageOk(t, m) && !m.OrderReady? && ChoiceAllowed(t, m, c) && Handled(t, m, c).Some?
    requires Honoured(t, ends) && Final(ends)
    ensures Honoured(Handled(t, m, c).value.tables, ends)
  {
    var t' := Handled(t, m, c).value.tables;
    HandledKeeps(t, m, c);
    forall id | id in t'.dispatches && OrderCancelled(t', t'.dispatches[id].orderId)
      ensures t'.dispatches[id].status in ends
    {
      NoNewDispatch(t, m, c, id);
      FinalStays(t, t', id, ends);
      if !OrderCancelled(t, t.dispatches[id].orderId) {
        HandledCancels(t, m, c, t.dispatches[id].orderId);
        FinalStays(t, t', m.dispatchId, ends);
      }
    }
  }

  /** A step honours every cancellation if and only if it neither cancels nor starts too late. */
  lemma StepHonoursExactly(s: State, step: Step, ends: set<DispatchStatus>)
    requires Inv(s) && Enabled(s, step) && Honoured(s.tables, ends) && Final(ends)
    ensures Honoured(Apply(s, step).tables, ends) <==> !Ignores(s, step, ends)
  {
    match step
    case Execute(c) => CommandedHonours(s.tables, c, ends);
    case Handle(i, c, _, _) =>
      if s.pool[i].OrderReady? {
        ReadyHonours(s.tables, s.pool[i], c, ends);
      } else {
        OtherHonours(s.tables, s.pool[i], c, ends);
      }
    case Settle(_, _, _) =>
    case Fail(_, _) =>
    case Drop(_) =>
    case DeadLetter(_) =>
    case Redeliver(_) =>
  }

  ghost predicate AlwaysHonoured(s: State, steps: seq<Step>, ends: set<DispatchStatus>)
    requires Legal(s, steps)
    decreases |steps|
  {
    Honoured(s.tables, ends) && (steps != [] ==> AlwaysHonoured(Apply(s, steps[0]), steps[1..], ends))
  }

  ghost predicate NothingIgnored(s: State, steps: seq<Step>, ends: set<DispatchStatus>)
    requires Legal(s, steps)
    decreases |steps|
  {
    steps != [] ==> !Ignores(s, steps[0], ends) && NothingIgnored(Apply(s, steps[0]), steps[1..], ends)
  }

  /** In every state of a run each CANCELLED order has a final dispatch or none, exactly when no step comes too late. */
  lemma {:induction false} RunHonoursExactly(s: State, steps: seq<Step>, ends: set<DispatchStatus>)
    requires Inv(s) && Honoured(s.tables, ends) && Final(ends) && Legal(s, steps)
    ensures AlwaysHonoured(s, steps, ends) <==> NothingIgnored(s, steps, ends)
    decreases |steps|
  {
    if steps != [] {
      StepKeepsInv(s, steps[0]);
      StepHonoursExactly(s, steps[0], ends);
      if Honoured(Apply(s, steps[0]).tables, ends) {
        RunHonoursExactly(Apply(s, steps[0]), steps[1..], ends);
      }
    }
  }

  /** From the start: exactly the runs without such a step leave no CANCELLED order with a dispatch that goes on. */
  lemma CancellationsHonoured(steps: seq<Step>, ends: set<DispatchStatus>)
    requires Final(ends) && Legal(INITIAL, steps)
    ensures AlwaysHonoured(INITIAL, steps, ends) <==> NothingIgnored(INITIAL, steps, ends)
  {
    InitialInv();
    RunHonoursExactly(INITIAL, steps, ends);
  }
}
