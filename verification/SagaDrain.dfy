/** The saga drains: apart from commands, redeliveries and failed runs, every step brings it nearer to rest. */
module SagaDrain {
  import opened Prelude
  import opened Messages
  import opened Reservations
  import opened Dispatches
  import opened SagaTables
  import opened Sagas

  /** More than the handlers of a message and of everything it leads to can send. */
  function Weight(m: Message): nat {
    match m
    case OrderReady(_, _) => 11
    case ReservationRequested(_, _, _, _) => 5
    case DriverReserved(_, _, _, _) => 4
    case ReservationFailed(_, _, _, _) => 4
    case ReleaseRequested(_, _, _, _) => 3
    case DriverReleased(_, _, _, _) => 2
    case DispatchStarted(_, _, _) => 1
    case DispatchAssigned(_, _, _, _) => 1
    case DispatchFailed(_, _, _, _) => 1
    case DispatchCancelled(_, _, _) => 1
  }

  function WeightOf(q: seq<Message>): nat {
    if q == [] then 0 else WeightOf(q[..|q| - 1]) + Weight(q[|q| - 1])
  }

  /** The dispatches that a timeout or a cancellation can still make send something. */
  function Open(table: DispatchTable): set<DispatchId> {
    set id | id in table && (table[id].status.SearchingDriver? || table[id].status.Assigned?)
  }

  function Measure(s: State): nat {
    WeightOf(s.pool) + 4 * |Open(s.tables.dispatches)|
  }

  /** What the environment adds: new work, redeliveries, runs without acknowledgement, and administration. */
  predicate External(step: Step) {
    match step
    case Execute(c) => !c.Timeout? && !c.CancelDispatch?
    case Handle(_, _, _, acked) => !acked
    case Settle(_, _, acked) => !acked
    case Fail(_, _) => true
    case Drop(_) => false
    case DeadLetter(_) => false
    case Redeliver(_) => true
  }

  function Externals(steps: seq<Step>): nat {
    if steps == [] then 0 else (if External(steps[0]) then 1 else 0) + Externals(steps[1..])
  }

  // ----- weights -----

  lemma {:induction false} WeightOfAppended(a: seq<Message>, b: seq<Message>)
    ensures WeightOf(a + b) == WeightOf(a) + WeightOf(b)
    decreases |b|
  {
    if b == [] {
      assert a + b == a;
    } else {
      WeightOfAppended(a, b[..|b| - 1]);
      assert (a + b)[..|a + b| - 1] == a + b[..|b| - 1];
    }
  }

  lemma WeightOfOne(m: Message)
    ensures WeightOf([m]) == Weight(m)
  {
    assert [m][..0] == [];
  }

  lemma WeightOfTwo(a: Message, b: Message)
    ensures WeightOf([a, b]) == Weight(a) + Weight(b)
  {
    WeightOfOne(a);
    assert [a, b][..1] == [a];
  }

  lemma {:induction false} WeightWithout(q: seq<Message>, i: nat)
    requires i < |q|
    ensures WeightOf(q) == WeightOf(Without(q, i)) + Weight(q[i])
  {
    var head, last := q[..|q| - 1], q[|q| - 1];
    if i == |q| - 1 {
      assert Without(q, i) == head;
    } else {
      WeightWithout(head, i);
      assert Without(q, i) == Without(head, i) + [last];
      assert (Without(head, i) + [last])[..|q| - 2] == Without(head, i);
    }
  }

  // ----- the open dispatches -----

  lemma OpenUpdated(table: DispatchTable, id: DispatchId, row: DispatchRow)
    ensures
      var before, after := |Open(table)|, |Open(table[id := row])|;
      var open := row.status.SearchingDriver? || row.status.Assigned?;
      after == before + (if open then 1 else 0) - (if id in Open(table) then 1 else 0)
  {
    var open := row.status.SearchingDriver? || row.status.Assigned?;
    assert Open(table[id := row]) == if open then Open(table) + {id} else Open(table) - {id};
  }

  /** What a transaction sends is paid for by the message handled and the dispatches it closes. */
  predicate Pays(budget: nat, table: DispatchTable, after: DispatchTable, out: seq<Message>) {
    WeightOf(out) + 4 * |Open(after)| + 1 <= budget + 4 * |Open(table)|
  }

  lemma StartPays(table: DispatchTable, o: OrderId, id: DispatchId, candidates: Option<seq<DriverId>>, e: EventId,
                  f: EventId)
    ensures var w := StartEffect(table, o, id, candidates, e, f); Pays(11, table, w.table, w.out)
  {
    OpenUpdated(table, id, StartedRow(o));
    WeightOfTwo(DispatchStarted(e, o, id), ReservationRequested(f, o, id, candidates));
  }

  lemma ResultPays(table: DispatchTable, id: DispatchId, driver: Option<DriverId>, reason: Option<FailureReason>,
                   e: EventId)
    ensures var w := CompleteReservationEffect(table, id, driver, reason, e); Pays(4, table, w.table, w.out)
  {
    var w := CompleteReservationEffect(table, id, driver, reason, e);
    if w.out != [] {
      WeightOfOne(w.out[0]);
      OpenUpdated(table, id, w.table[id]);
      assert w.table == table || w.table == table[id := w.table[id]];
    }
  }

  lemma CompensatedPays(table: DispatchTable, id: DispatchId, e: EventId)
    ensures var w := CompleteCompensationEffect(table, id, e); Pays(2, table, w.table, w.out)
  {
    if id in table {
      OpenUpdated(table, id, CompensatedRow(table[id]));
      WeightOfOne(DispatchCancelled(e, table[id].orderId, id));
    }
  }

  lemma ReplyPays(t: Tables, m: Message, pick: Option<DriverId>)
    requires m.ReservationRequested? && PickAllowed(t.db, m, pick) && OnRequest(t, m, pick).Some?
    ensures var c := OnRequest(t, m, pick).value; Pays(5, t.dispatches, c.tables.dispatches, c.out)
  {
    WeightOfOne(ReserveEffect(t.db, m, pick).reply);
  }

  /** Every handler run sends less than the weight of its message. */
  lemma HandledPays(t: Tables, m: Message, c: Choice)
    requires ChoiceAllowed(t, m, c) && Handled(t, m, c).Some?
    ensures var after := Handled(t, m, c).value; Pays(Weight(m), t.dispatches, after.tables.dispatches, after.out)
  {
    match m
    case OrderReady(_, o) => StartPays(t.dispatches, o, c.dispatchId, c.candidates, c.first, c.second);
    case DriverReserved(_, _, id, d) => ResultPays(t.dispatches, id, Some(d), None, c.first);
    case ReservationFailed(_, _, id, why) => ResultPays(t.dispatches, id, None, Some(why), c.first);
    case DriverReleased(_, _, id, _) => CompensatedPays(t.dispatches, id, c.first);
    case ReservationRequested(_, _, _, _) => ReplyPays(t, m, c.pick);
    case ReleaseRequested(_, _, _, _) => WeightOfOne(ReleaseEffect(t.db, m).reply);
    case DispatchStarted(_, _, _) =>
    case DispatchAssigned(_, _, _, _) =>
    case DispatchFailed(_, _, _, _) =>
    case DispatchCancelled(_, _, _) =>
  }

  /** A timeout or a cancellation sends less than the dispatch it closes stands for. */
  lemma CommandedPays(t: Tables, c: Command)
    requires CommandAccepted(t, c)
    ensures var after := Commanded(t, c);
            && (c.Timeout? || c.CancelDispatch? ==> Pays(0, t.dispatches, after.tables.dispatches, after.out))
            && WeightOf(after.out) + 4 * |Open(after.tables.dispatches)| <= 11 + 4 * |Open(t.dispatches)|
  {
    var after := Commanded(t, c);
    if c.Timeout? || c.CancelDispatch? {
      WeightOfOne(after.out[0]);
      OpenUpdated(t.dispatches, c.dispatchId, after.tables.dispatches[c.dispatchId]);
    } else if c.CreateOrder? {
      WeightOfOne(after.out[0]);
    }
  }

  // ----- the bound -----

  lemma ExecuteMeasure(s: State, c: Command)
    requires CommandEnabled(s, c)
    ensures Measure(Apply(s, Execute(c))) + 1 <= Measure(s) + if External(Execute(c)) then 12 else 0
  {
    CommandedPays(s.tables, c);
    WeightOfAppended(s.pool, Commanded(s.tables, c).out);
  }

  lemma HandleMeasure(s: State, i: nat, c: Choice, mark: Mark, acked: bool)
    requires Enabled(s, Handle(i, c, mark, acked))
    ensures Measure(Apply(s, Handle(i, c, mark, acked))) + 1 <= Measure(s) + if acked then 0 else 12
  {
    HandledPays(s.tables, s.pool[i], c);
    WeightWithout(s.pool, i);
    WeightOfAppended(if acked then Without(s.pool, i) else s.pool, Handled(s.tables, s.pool[i], c).value.out);
  }

  lemma StepMeasure(s: State, step: Step)
    requires Enabled(s, step)
    ensures Measure(Apply(s, step)) + 1 <= Measure(s) + if External(step) then 12 else 0
  {
    match step
    case Execute(c) => ExecuteMeasure(s, c);
    case Handle(i, c, mark, acked) => HandleMeasure(s, i, c, mark, acked);
    case Settle(i, _, _) => WeightWithout(s.pool, i);
    case Fail(_, _) =>
    case Drop(i) => WeightWithout(s.pool, i);
    case DeadLetter(i) => WeightWithout(s.pool, i);
    case Redeliver(m) =>
      WeightOfOne(m);
      WeightOfAppended(s.pool, [m]);
  }

  /** A run is no longer than what is pending at its start and what the environment adds allow. */
  lemma {:induction false} RunsEnd(s: State, steps: seq<Step>)
    requires Legal(s, steps)
    ensures |steps| + Measure(Run(s, steps)) <= Measure(s) + 12 * Externals(steps)
    decreases |steps|
  {
    if steps != [] {
      StepMeasure(s, steps[0]);
      RunsEnd(Apply(s, steps[0]), steps[1..]);
    }
  }
}
