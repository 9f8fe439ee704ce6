/**
 * Deliveries without interruption, as runs of the consumer's steps: one delivery from its inbox look-up to its
 * acknowledgement, and an event that fails until it is dead-lettered.
 */
module Deliveries {
  import opened Prelude
  import opened Messages
  import opened Reliability

  /** The copy after one more run of its handler. */
  function RanOnce(copy: Copy): Copy { copy.(runs := copy.runs + 1) }

  /** The requeueing step, whatever came before it. */
  function Requeued(copy: Copy, maxRetries: nat): (multiset<Copy>, multiset<Copy>) {
    if copy.retry < maxRetries then (multiset{copy.(retry := copy.retry + 1)}, multiset{})
    else (multiset{}, multiset{copy})
  }

  /**
   * What one delivery comes to: a duplicate is dropped, a success is recorded in the inbox, and a failure
   * removes the inbox row and queues the copy again, in the dead-letter queue once its retries are used up.
   */
  predicate DeliveryEffect(copy: Copy, key: EventId, succeeds: bool, maxRetries: nat,
                           inbox: map<EventId, InboxStatus>, inbox': map<EventId, InboxStatus>,
                           toRetries: multiset<Copy>, toDlq: multiset<Copy>) {
    if key in inbox && inbox[key].Processed? then
      inbox' == inbox && toRetries == multiset{} && toDlq == multiset{}
    else if succeeds then
      inbox' == inbox[key := Processed] && toRetries == multiset{} && toDlq == multiset{}
    else
      var ran := RanOnce(copy);
      && inbox' == inbox - {key}
      && toRetries == Requeued(ran, maxRetries).0 && toDlq == Requeued(ran, maxRetries).1
  }

  // ----- the consumer's steps one after the other -----

  predicate Takes(s: State, c: ConsumerId) {
    c in s.deliveries && s.deliveries[c].copy.row in s.outbox
  }

  /** The consumer's next action on top of an outcome. */
  function Then(o: Outcome, action: ConsumerAction, key: EventId, maxRetries: nat): Outcome
    requires o.delivery.Some?
  {
    var n := Acted(action, o.delivery.value, key, o.inbox, maxRetries);
    Outcome(n.delivery, o.toMain + n.toMain, o.toRetries + n.toRetries, o.toDlq + n.toDlq,
            n.inbox, o.succeeded || n.succeeded, o.smooth && n.smooth)
  }

  /** The consumer's next action is a step of the machine. */
  lemma ThenIsStep(s: State, c: ConsumerId, o: Outcome, action: ConsumerAction, maxRetries: nat)
    requires Takes(s, c) && o.delivery.Some? && StageOf(action) == Some(o.delivery.value.stage)
    requires o.delivery.value.copy.row == s.deliveries[c].copy.row
    ensures
      var key := KeyOf(s, c);
      && Enabled(Took(s, c, o, key), Consume(c, action))
      && Apply(Took(s, c, o, key), Consume(c, action), maxRetries) == Took(s, c, Then(o, action, key, maxRetries), key)
  {
    var key := KeyOf(s, c);
    var middle := Took(s, c, o, key);
    var n := Acted(action, o.delivery.value, key, o.inbox, maxRetries);
    assert KeyOf(middle, c) == key;
    TookTwice(s, c, o, n, key);
  }

  lemma TookTwice(s: State, c: ConsumerId, o: Outcome, n: Outcome, key: EventId)
    requires o.delivery.Some?
    ensures
      Took(Took(s, c, o, key), c, n, key)
      == Took(s, c, Outcome(n.delivery, o.toMain + n.toMain, o.toRetries + n.toRetries, o.toDlq + n.toDlq,
                            n.inbox, o.succeeded || n.succeeded, o.smooth && n.smooth), key)
  {
    assert s.main + o.toMain + n.toMain == s.main + (o.toMain + n.toMain);
    assert s.retries + o.toRetries + n.toRetries == s.retries + (o.toRetries + n.toRetries);
    assert s.dlq + o.toDlq + n.toDlq == s.dlq + (o.toDlq + n.toDlq);
    var first := s.deliveries[c := o.delivery.value];
    if n.delivery.Some? {
      assert first[c := n.delivery.value] == s.deliveries[c := n.delivery.value];
    } else {
      assert first - {c} == s.deliveries - {c};
    }
  }

  function ConsumeAll(c: ConsumerId, actions: seq<ConsumerAction>): seq<Step> {
    if actions == [] then [] else [Consume(c, actions[0])] + ConsumeAll(c, actions[1..])
  }

  /** The actions can be taken one after the other and lead from one outcome to the other. */
  predicate Leads(o: Outcome, actions: seq<ConsumerAction>, key: EventId, maxRetries: nat, last: Outcome)
    decreases |actions|
  {
    if actions == [] then o == last
    else
      && o.delivery.Some? && StageOf(actions[0]) == Some(o.delivery.value.stage)
      && Leads(Then(o, actions[0], key, maxRetries), actions[1..], key, maxRetries, last)
  }

  lemma {:induction false} LeadsIsRun(s: State, c: ConsumerId, o: Outcome, actions: seq<ConsumerAction>,
                                      maxRetries: nat, last: Outcome)
    requires Takes(s, c) && Leads(o, actions, KeyOf(s, c), maxRetries, last)
    requires o.delivery.Some? ==> o.delivery.value.copy.row == s.deliveries[c].copy.row
    ensures
      var from := Took(s, c, o, KeyOf(s, c));
      && Legal(from, ConsumeAll(c, actions), maxRetries)
      && Run(from, ConsumeAll(c, actions), maxRetries) == Took(s, c, last, KeyOf(s, c))
    decreases |actions|
  {
    if actions != [] {
      var next := Then(o, actions[0], KeyOf(s, c), maxRetries);
      ThenIsStep(s, c, o, actions[0], maxRetries);
      ThenKeepsRow(o, actions[0], KeyOf(s, c), maxRetries);
      LeadsIsRun(s, c, next, actions[1..], maxRetries, last);
      assert ConsumeAll(c, actions)[1..] == ConsumeAll(c, actions[1..]);
    }
  }

  lemma ThenKeepsRow(o: Outcome, action: ConsumerAction, key: EventId, maxRetries: nat)
    requires o.delivery.Some?
    ensures var next := Then(o, action, key, maxRetries);
            next.delivery.Some? ==> next.delivery.value.copy.row == o.delivery.value.copy.row
  {
  }

  lemma LeadsFirst(o: Outcome, action: ConsumerAction, next: Outcome, rest: seq<ConsumerAction>,
                   key: EventId, maxRetries: nat, last: Outcome)
    requires o.delivery.Some? && StageOf(action) == Some(o.delivery.value.stage)
    requires next == Then(o, action, key, maxRetries) && Leads(next, rest, key, maxRetries, last)
    ensures Leads(o, [action] + rest, key, maxRetries, last)
  {
    assert ([action] + rest)[1..] == rest;
  }

  // ----- what each action leaves -----

  /** A delivery at a stage, with nothing queued so far. */
  function At(copy: Copy, stage: Stage, inbox: map<EventId, InboxStatus>): Outcome {
    Goes(Delivery(copy, stage), stage, inbox)
  }

  lemma Checked(copy: Copy, key: EventId, inbox: map<EventId, InboxStatus>, maxRetries: nat)
    ensures Then(At(copy, Checking, inbox), Check, key, maxRetries)
            == At(copy, AfterLookup(inbox, key, Inserting), inbox)
  {
  }

  lemma Inserted(copy: Copy, key: EventId, inbox: map<EventId, InboxStatus>, maxRetries: nat)
    requires key !in inbox
    ensures Then(At(copy, Inserting, inbox), Insert, key, maxRetries)
            == At(copy, Operating, inbox[key := InboxStatus.Processing])
  {
  }

  lemma Failed(copy: Copy, key: EventId, inbox: map<EventId, InboxStatus>, maxRetries: nat)
    ensures Then(At(copy, Operating, inbox), OperationFails, key, maxRetries)
            == At(RanOnce(copy), Deleting, inbox)
  {
  }

  lemma Deleted(copy: Copy, key: EventId, inbox: map<EventId, InboxStatus>, maxRetries: nat)
    ensures Then(At(copy, Deleting, inbox), DeleteRow, key, maxRetries) == At(copy, Requeueing, inbox - {key})
  {
  }

  lemma QueuedAgain(copy: Copy, key: EventId, inbox: map<EventId, InboxStatus>, maxRetries: nat)
    ensures
      var q := Requeued(copy, maxRetries);
      Then(At(copy, Requeueing, inbox), Requeue, key, maxRetries)
      == At(copy, Acking, inbox).(toRetries := q.0, toDlq := q.1)
  {
    var q := Requeued(copy, maxRetries);
    var n := Acted(Requeue, Delivery(copy, Requeueing), key, inbox, maxRetries);
    assert n == At(copy, Acking, inbox).(toRetries := q.0, toDlq := q.1);
    assert multiset{} + q.0 == q.0 && multiset{} + q.1 == q.1;
  }

  lemma Succeeded(copy: Copy, key: EventId, inbox: map<EventId, InboxStatus>, maxRetries: nat)
    ensures Then(At(copy, Operating, inbox), OperationSucceeds, key, maxRetries)
            == At(RanOnce(copy), Marking, inbox).(succeeded := true)
  {
  }

  lemma RowMarked(copy: Copy, key: EventId, inbox: map<EventId, InboxStatus>, maxRetries: nat)
    requires key in inbox
    ensures Then(At(copy, Marking, inbox).(succeeded := true), MarkProcessed, key, maxRetries)
            == At(copy, Acking, inbox[key := Processed]).(succeeded := true)
  {
  }

  lemma Acknowledged(o: Outcome, copy: Copy, key: EventId, maxRetries: nat)
    requires o.delivery == Some(Delivery(copy, Acking))
    ensures Then(o, Ack, key, maxRetries) == o.(delivery := None)
    ensures Leads(o, [Ack], key, maxRetries, o.(delivery := None))
  {
    var next := Then(o, Ack, key, maxRetries);
    assert next == o.(delivery := None);
    LeadsFirst(o, Ack, next, [], key, maxRetries, next);
    assert [Ack] + [] == [Ack];
  }

  // ----- whole deliveries -----

  const SUCCEEDS := [OperationSucceeds, MarkProcessed, Ack]

  const FAILS := [OperationFails, DeleteRow, Requeue, Ack]

  /** What is left of a successful delivery once it has been acknowledged. */
  function Handled(copy: Copy, inbox: map<EventId, InboxStatus>): Outcome {
    At(copy, Acking, inbox).(succeeded := true, delivery := None)
  }

  lemma SuccessLeads(copy: Copy, key: EventId, inbox: map<EventId, InboxStatus>, maxRetries: nat)
    requires key in inbox
    ensures Leads(At(copy, Operating, inbox), SUCCEEDS, key, maxRetries,
                  Handled(RanOnce(copy), inbox[key := Processed]))
  {
    var ran := RanOnce(copy);
    var marking := At(ran, Marking, inbox).(succeeded := true);
    var acking := At(ran, Acking, inbox[key := Processed]).(succeeded := true);
    Acknowledged(acking, ran, key, maxRetries);
    RowMarked(ran, key, inbox, maxRetries);
    LeadsFirst(marking, MarkProcessed, acking, [Ack], key, maxRetries, acking.(delivery := None));
    Succeeded(copy, key, inbox, maxRetries);
    LeadsFirst(At(copy, Operating, inbox), OperationSucceeds, marking, [MarkProcessed] + [Ack], key, maxRetries,
               acking.(delivery := None));
    assert [OperationSucceeds] + ([MarkProcessed] + [Ack]) == SUCCEEDS;
  }

  /** What is left of a failed delivery once its copy has been queued again and acknowledged. */
  function Dropped(copy: Copy, inbox: map<EventId, InboxStatus>, maxRetries: nat): Outcome {
    var q := Requeued(copy, maxRetries);
    At(copy, Acking, inbox).(toRetries := q.0, toDlq := q.1, delivery := None)
  }

  lemma RequeueLeads(copy: Copy, key: EventId, inbox: map<EventId, InboxStatus>, maxRetries: nat)
    ensures Leads(At(copy, Requeueing, inbox), [Requeue, Ack], key, maxRetries, Dropped(copy, inbox, maxRetries))
  {
    var q := Requeued(copy, maxRetries);
    var acking := At(copy, Acking, inbox).(toRetries := q.0, toDlq := q.1);
    Acknowledged(acking, copy, key, maxRetries);
    QueuedAgain(copy, key, inbox, maxRetries);
    LeadsFirst(At(copy, Requeueing, inbox), Requeue, acking, [Ack], key, maxRetries, Dropped(copy, inbox, maxRetries));
    assert [Requeue] + [Ack] == [Requeue, Ack];
  }

  lemma DeleteLeads(copy: Copy, key: EventId, inbox: map<EventId, InboxStatus>, maxRetries: nat)
    ensures Leads(At(copy, Deleting, inbox), [DeleteRow, Requeue, Ack], key, maxRetries,
                  Dropped(copy, inbox - {key}, maxRetries))
  {
    var left := inbox - {key};
    RequeueLeads(copy, key, left, maxRetries);
    Deleted(copy, key, inbox, maxRetries);
    LeadsFirst(At(copy, Deleting, inbox), DeleteRow, At(copy, Requeueing, left), [Requeue, Ack], key, maxRetries,
               Dropped(copy, left, maxRetries));
    assert [DeleteRow] + [Requeue, Ack] == [DeleteRow, Requeue, Ack];
  }

  lemma FailureLeads(copy: Copy, key: EventId, inbox: map<EventId, InboxStatus>, maxRetries: nat)
    ensures Leads(At(copy, Operating, inbox), FAILS, key, maxRetries,
                  Dropped(RanOnce(copy), inbox - {key}, maxRetries))
  {
    var ran := RanOnce(copy);
    DeleteLeads(ran, key, inbox, maxRetries);
    Failed(copy, key, inbox, maxRetries);
    LeadsFirst(At(copy, Operating, inbox), OperationFails, At(ran, Deleting, inbox), [DeleteRow, Requeue, Ack],
               key, maxRetries, Dropped(ran, inbox - {key}, maxRetries));
    assert [OperationFails] + [DeleteRow, Requeue, Ack] == FAILS;
  }

  /** What the consumer does before its handler runs. */
  function Admission(key: EventId, inbox: map<EventId, InboxStatus>): seq<ConsumerAction> {
    if key in inbox then [Check] else [Check, Insert]
  }

  function Claimed(key: EventId, inbox: map<EventId, InboxStatus>): map<EventId, InboxStatus> {
    if key in inbox then inbox else inbox[key := InboxStatus.Processing]
  }

  lemma AdmissionLeads(copy: Copy, key: EventId, inbox: map<EventId, InboxStatus>, maxRetries: nat,
                       rest: seq<ConsumerAction>, last: Outcome)
    requires !(key in inbox && inbox[key].Processed?)
    requires Leads(At(copy, Operating, Claimed(key, inbox)), rest, key, maxRetries, last)
    ensures Leads(At(copy, Checking, inbox), Admission(key, inbox) + rest, key, maxRetries, last)
  {
    Checked(copy, key, inbox, maxRetries);
    var checked := At(copy, AfterLookup(inbox, key, Inserting), inbox);
    if key in inbox {
      LeadsFirst(At(copy, Checking, inbox), Check, checked, rest, key, maxRetries, last);
    } else {
      Inserted(copy, key, inbox, maxRetries);
      LeadsFirst(checked, Insert, At(copy, Operating, Claimed(key, inbox)), rest, key, maxRetries, last);
      LeadsFirst(At(copy, Checking, inbox), Check, checked, [Insert] + rest, key, maxRetries, last);
      assert [Check] + ([Insert] + rest) == [Check, Insert] + rest;
    }
  }

  /** The consumer's steps for one delivery whose handler, if it runs, succeeds or fails. */
  function DeliverySteps(s: State, c: ConsumerId, succeeds: bool): seq<Step>
    requires Takes(s, c)
  {
    var key := KeyOf(s, c);
    ConsumeAll(c, if key in s.inbox && s.inbox[key].Processed? then [Check, Ack]
                  else Admission(key, s.inbox) + if succeeds then SUCCEEDS else FAILS)
  }

  /** The state after a copy has been handled successfully and acknowledged. */
  function AfterSuccess(s: State, c: ConsumerId, inbox: map<EventId, InboxStatus>, key: EventId): State {
    s.(deliveries := s.deliveries - {c}, inbox := inbox, done := s.done + {key})
  }

  /** The state after a copy whose handler has failed has been queued again and acknowledged. */
  function AfterFailure(s: State, c: ConsumerId, ran: Copy, inbox: map<EventId, InboxStatus>, maxRetries: nat): State {
    var q := Requeued(ran, maxRetries);
    s.(deliveries := s.deliveries - {c}, inbox := inbox, retries := s.retries + q.0, dlq := s.dlq + q.1)
  }

  /** The whole state those steps leave. */
  function AfterDelivery(s: State, c: ConsumerId, succeeds: bool, maxRetries: nat): State
    requires Takes(s, c)
  {
    var key := KeyOf(s, c);
    if key in s.inbox && s.inbox[key].Processed? then s.(deliveries := s.deliveries - {c})
    else if succeeds then AfterSuccess(s, c, s.inbox[key := Processed], key)
    else AfterFailure(s, c, RanOnce(s.deliveries[c].copy), s.inbox - {key}, maxRetries)
  }

  /** Those steps have the effect of one delivery on the inbox and the queues. */
  lemma AfterDeliveryEffect(s: State, c: ConsumerId, succeeds: bool, maxRetries: nat)
      returns (toRetries: multiset<Copy>, toDlq: multiset<Copy>)
    requires Takes(s, c)
    ensures
      var s' := AfterDelivery(s, c, succeeds, maxRetries);
      && DeliveryEffect(s.deliveries[c].copy, KeyOf(s, c), succeeds, maxRetries, s.inbox, s'.inbox, toRetries, toDlq)
      && s'.retries == s.retries + toRetries && s'.dlq == s.dlq + toDlq && s'.main == s.main
  {
    var key := KeyOf(s, c);
    if (key in s.inbox && s.inbox[key].Processed?) || succeeds {
      toRetries, toDlq := multiset{}, multiset{};
    } else {
      var q := Requeued(RanOnce(s.deliveries[c].copy), maxRetries);
      toRetries, toDlq := q.0, q.1;
    }
  }

  lemma StartsAt(s: State, c: ConsumerId)
    requires Takes(s, c) && s.deliveries[c].stage.Checking?
    ensures Took(s, c, At(s.deliveries[c].copy, Checking, s.inbox), KeyOf(s, c)) == s
  {
    assert s.deliveries[c := s.deliveries[c]] == s.deliveries;
  }

  /** A delivery of a processed event is acknowledged and changes nothing else. */
  lemma UninterruptedDuplicate(s: State, c: ConsumerId, succeeds: bool, maxRetries: nat)
    requires Takes(s, c) && s.deliveries[c].stage.Checking?
    requires KeyOf(s, c) in s.inbox && s.inbox[KeyOf(s, c)].Processed?
    ensures Legal(s, DeliverySteps(s, c, succeeds), maxRetries)
    ensures Run(s, DeliverySteps(s, c, succeeds), maxRetries) == AfterDelivery(s, c, succeeds, maxRetries)
  {
    var key, copy := KeyOf(s, c), s.deliveries[c].copy;
    var acking := At(copy, Acking, s.inbox);
    StartsAt(s, c);
    Checked(copy, key, s.inbox, maxRetries);
    Acknowledged(acking, copy, key, maxRetries);
    LeadsFirst(At(copy, Checking, s.inbox), Check, acking, [Ack], key, maxRetries, acking.(delivery := None));
    assert [Check] + [Ack] == [Check, Ack];
    LeadsIsRun(s, c, At(copy, Checking, s.inbox), [Check, Ack], maxRetries, acking.(delivery := None));
  }

  lemma SuccessfulDelivery(copy: Copy, key: EventId, inbox: map<EventId, InboxStatus>, maxRetries: nat)
    requires !(key in inbox && inbox[key].Processed?)
    ensures Leads(At(copy, Checking, inbox), Admission(key, inbox) + SUCCEEDS, key, maxRetries,
                  Handled(RanOnce(copy), inbox[key := Processed]))
  {
    var claimed, ran := Claimed(key, inbox), RanOnce(copy);
    SuccessLeads(copy, key, claimed, maxRetries);
    assert claimed[key := Processed] == inbox[key := Processed];
    AdmissionLeads(copy, key, inbox, maxRetries, SUCCEEDS, Handled(ran, inbox[key := Processed]));
  }

  lemma FailedDelivery(copy: Copy, key: EventId, inbox: map<EventId, InboxStatus>, maxRetries: nat)
    requires !(key in inbox && inbox[key].Processed?)
    ensures Leads(At(copy, Checking, inbox), Admission(key, inbox) + FAILS, key, maxRetries,
                  Dropped(RanOnce(copy), inbox - {key}, maxRetries))
  {
    var claimed, ran := Claimed(key, inbox), RanOnce(copy);
    FailureLeads(copy, key, claimed, maxRetries);
    assert claimed - {key} == inbox - {key};
    AdmissionLeads(copy, key, inbox, maxRetries, FAILS, Dropped(ran, inbox - {key}, maxRetries));
  }

  /** A delivery whose handler succeeds leaves its event processed and nothing queued. */
  lemma UninterruptedSuccess(s: State, c: ConsumerId, maxRetries: nat)
    requires Takes(s, c) && s.deliveries[c].stage.Checking?
    requires !(KeyOf(s, c) in s.inbox && s.inbox[KeyOf(s, c)].Processed?)
    ensures Legal(s, DeliverySteps(s, c, true), maxRetries)
    ensures Run(s, DeliverySteps(s, c, true), maxRetries) == AfterDelivery(s, c, true, maxRetries)
  {
    var key, copy := KeyOf(s, c), s.deliveries[c].copy;
    var last := Handled(RanOnce(s.deliveries[c].copy), s.inbox[key := Processed]);
    SuccessfulDelivery(copy, key, s.inbox, maxRetries);
    DeliveryRun(s, c, Admission(key, s.inbox) + SUCCEEDS, maxRetries, last);
    TookHandled(s, c, RanOnce(s.deliveries[c].copy), s.inbox[key := Processed], key);
  }

  /** A delivery whose handler fails leaves no inbox row and one copy, to be retried or dead-lettered. */
  lemma UninterruptedFailure(s: State, c: ConsumerId, maxRetries: nat)
    requires Takes(s, c) && s.deliveries[c].stage.Checking?
    requires !(KeyOf(s, c) in s.inbox && s.inbox[KeyOf(s, c)].Processed?)
    ensures Legal(s, DeliverySteps(s, c, false), maxRetries)
    ensures Run(s, DeliverySteps(s, c, false), maxRetries) == AfterDelivery(s, c, false, maxRetries)
  {
    var key, copy := KeyOf(s, c), s.deliveries[c].copy;
    var last := Dropped(RanOnce(s.deliveries[c].copy), s.inbox - {key}, maxRetries);
    FailedDelivery(copy, key, s.inbox, maxRetries);
    DeliveryRun(s, c, Admission(key, s.inbox) + FAILS, maxRetries, last);
    TookDropped(s, c, RanOnce(s.deliveries[c].copy), s.inbox - {key}, key, maxRetries);
  }

  lemma DeliveryRun(s: State, c: ConsumerId, actions: seq<ConsumerAction>, maxRetries: nat, last: Outcome)
    requires Takes(s, c) && s.deliveries[c].stage.Checking?
    requires Leads(At(s.deliveries[c].copy, Checking, s.inbox), actions, KeyOf(s, c), maxRetries, last)
    ensures Legal(s, ConsumeAll(c, actions), maxRetries)
    ensures Run(s, ConsumeAll(c, actions), maxRetries) == Took(s, c, last, KeyOf(s, c))
  {
    StartsAt(s, c);
    LeadsIsRun(s, c, At(s.deliveries[c].copy, Checking, s.inbox), actions, maxRetries, last);
  }

  lemma TookHandled(s: State, c: ConsumerId, copy: Copy, inbox: map<EventId, InboxStatus>, key: EventId)
    ensures Took(s, c, Handled(copy, inbox), key) == AfterSuccess(s, c, inbox, key)
  {
    assert s.main + multiset{} == s.main && s.retries + multiset{} == s.retries && s.dlq + multiset{} == s.dlq;
  }

  lemma TookDropped(s: State, c: ConsumerId, copy: Copy, inbox: map<EventId, InboxStatus>, key: EventId,
                    maxRetries: nat)
    ensures Took(s, c, Dropped(copy, inbox, maxRetries), key) == AfterFailure(s, c, copy, inbox, maxRetries)
  {
    var o := Dropped(copy, inbox, maxRetries);
    assert o.delivery == None && o.toMain == multiset{} && o.smooth && !o.succeeded;
    assert s.main + multiset{} == s.main;
  }

  // ----- failing to the end -----

  lemma {:induction false} RunTwice(s: State, a: seq<Step>, b: seq<Step>, maxRetries: nat)
    requires Legal(s, a, maxRetries) && Legal(Run(s, a, maxRetries), b, maxRetries)
    ensures Legal(s, a + b, maxRetries) && Run(s, a + b, maxRetries) == Run(Run(s, a, maxRetries), b, maxRetries)
    decreases |a|
  {
    if a == [] {
      assert a + b == b;
    } else {
      RunTwice(Apply(s, a[0], maxRetries), a[1..], b, maxRetries);
      assert (a + b)[0] == a[0] && (a + b)[1..] == a[1..] + b;
    }
  }

  predicate RunsHandler(action: ConsumerAction) { action.OperationFails? || action.OperationSucceeds? }

  /** How often a handler runs. */
  function HandlerRuns(steps: seq<Step>): nat {
    if steps == [] then 0
    else (if steps[0].Consume? && RunsHandler(steps[0].action) then 1 else 0) + HandlerRuns(steps[1..])
  }

  lemma {:induction false} HandlerRunsOf(a: seq<Step>, b: seq<Step>)
    ensures HandlerRuns(a + b) == HandlerRuns(a) + HandlerRuns(b)
    decreases |a|
  {
    if a == [] {
      assert a + b == b;
    } else {
      HandlerRunsOf(a[1..], b);
      assert (a + b)[0] == a[0] && (a + b)[1..] == a[1..] + b;
    }
  }

  lemma HandlerRunsNext(c: ConsumerId, action: ConsumerAction, rest: seq<ConsumerAction>)
    ensures HandlerRuns(ConsumeAll(c, [action] + rest))
            == (if RunsHandler(action) then 1 else 0) + HandlerRuns(ConsumeAll(c, rest))
  {
    assert ([action] + rest)[1..] == rest;
    assert ConsumeAll(c, [action] + rest) == [Consume(c, action)] + ConsumeAll(c, rest);
    assert ([Consume(c, action)] + ConsumeAll(c, rest))[1..] == ConsumeAll(c, rest);
  }

  lemma FailsRunsOnce(c: ConsumerId)
    ensures HandlerRuns(ConsumeAll(c, FAILS)) == 1
  {
    HandlerRunsNext(c, Ack, []);
    HandlerRunsNext(c, Requeue, [Ack]);
    HandlerRunsNext(c, DeleteRow, [Requeue, Ack]);
    HandlerRunsNext(c, OperationFails, [DeleteRow, Requeue, Ack]);
    assert [Ack] + [] == [Ack] && [Requeue] + [Ack] == [Requeue, Ack];
    assert [DeleteRow] + [Requeue, Ack] == [DeleteRow, Requeue, Ack];
    assert [OperationFails] + [DeleteRow, Requeue, Ack] == FAILS;
  }

  /** One more failing delivery of a copy that waits in the main queue. */
  function FailingDelivery(s: State, c: ConsumerId, copy: Copy): seq<Step>
    requires c !in s.deliveries && copy.row in s.outbox && copy in s.main
  {
    var taken := Apply(s, Deliver(c, copy), 0);
    [Deliver(c, copy)] + DeliverySteps(taken, c, false)
  }

  lemma FailingDeliveryRuns(s: State, c: ConsumerId, copy: Copy, maxRetries: nat)
    requires c !in s.deliveries && copy.row in s.outbox && copy in s.main
    requires var key := s.outbox[copy.row].key; !(key in s.inbox && s.inbox[key].Processed?)
    ensures
      var q := Requeued(RanOnce(copy), maxRetries);
      var steps := FailingDelivery(s, c, copy);
      && Legal(s, steps, maxRetries)
      && Run(s, steps, maxRetries) == s.(main := s.main - multiset{copy}, inbox := s.inbox - {s.outbox[copy.row].key},
                                         retries := s.retries + q.0, dlq := s.dlq + q.1)
  {
    var taken := Apply(s, Deliver(c, copy), maxRetries);
    UninterruptedFailure(taken, c, maxRetries);
    assert FailingDelivery(s, c, copy)[1..] == DeliverySteps(taken, c, false);
    assert taken.deliveries - {c} == s.deliveries;
  }

  lemma FailingHandlerRuns(s: State, c: ConsumerId, copy: Copy)
    requires c !in s.deliveries && copy.row in s.outbox && copy in s.main
    requires var key := s.outbox[copy.row].key; !(key in s.inbox && s.inbox[key].Processed?)
    ensures HandlerRuns(FailingDelivery(s, c, copy)) == 1
  {
    var key := s.outbox[copy.row].key;
    var taken := Apply(s, Deliver(c, copy), 0);
    var steps := ConsumeAll(c, Admission(key, s.inbox) + FAILS);
    assert DeliverySteps(taken, c, false) == steps;
    FailsRunsOnce(c);
    HandlerRunsNext(c, Insert, FAILS);
    HandlerRunsNext(c, Check, FAILS);
    HandlerRunsNext(c, Check, [Insert] + FAILS);
    assert [Check] + ([Insert] + FAILS) == [Check, Insert] + FAILS;
    assert ([Deliver(c, copy)] + steps)[1..] == steps;
  }

  lemma RetryDueRun(s: State, copy: Copy, rest: seq<Step>, maxRetries: nat)
    requires copy in s.retries && Legal(Apply(s, RetryDue(copy), maxRetries), rest, maxRetries)
    ensures Legal(s, [RetryDue(copy)] + rest, maxRetries)
    ensures Run(s, [RetryDue(copy)] + rest, maxRetries) == Run(Apply(s, RetryDue(copy), maxRetries), rest, maxRetries)
    ensures HandlerRuns([RetryDue(copy)] + rest) == HandlerRuns(rest)
  {
    assert ([RetryDue(copy)] + rest)[1..] == rest;
  }

  lemma RequeuedOnce(copy: Copy, again: Copy, maxRetries: nat)
    requires copy.retry < maxRetries && again == Copy(copy.row, copy.retry + 1, copy.runs + 1)
    ensures Requeued(RanOnce(copy), maxRetries) == (multiset{again}, multiset{})
  {
    assert RanOnce(copy).(retry := copy.retry + 1) == again;
  }

  /** The state once a failed copy with a retry left waits in the retry queue. */
  function Retrying(s: State, copy: Copy, again: Copy): State
    requires copy.row in s.outbox
  {
    s.(main := s.main - multiset{copy}, inbox := s.inbox - {s.outbox[copy.row].key},
       retries := s.retries + multiset{again})
  }

  lemma FailedOnce(s: State, c: ConsumerId, copy: Copy, again: Copy, maxRetries: nat)
    requires c !in s.deliveries && copy.row in s.outbox && copy in s.main && copy.retry < maxRetries
    requires again == Copy(copy.row, copy.retry + 1, copy.runs + 1)
    requires var key := s.outbox[copy.row].key; !(key in s.inbox && s.inbox[key].Processed?)
    ensures Legal(s, FailingDelivery(s, c, copy), maxRetries)
    ensures Run(s, FailingDelivery(s, c, copy), maxRetries) == Retrying(s, copy, again)
  {
    FailingDeliveryRuns(s, c, copy, maxRetries);
    RequeuedOnce(copy, again, maxRetries);
    assert s.dlq + multiset{} == s.dlq;
  }

  /** And once its delay is over. */
  lemma DueAgain(s: State, copy: Copy, again: Copy, maxRetries: nat)
    requires copy.row in s.outbox
    ensures again in Retrying(s, copy, again).retries
    ensures Apply(Retrying(s, copy, again), RetryDue(again), maxRetries)
            == s.(main := s.main - multiset{copy} + multiset{again}, inbox := s.inbox - {s.outbox[copy.row].key})
  {
    assert s.retries + multiset{again} - multiset{again} == s.retries;
  }

  /** A copy once it has used up its retries: one handler run for each retry left, and one more. */
  function DeadCopy(copy: Copy, maxRetries: nat): Copy
    requires copy.retry <= maxRetries
  {
    Copy(copy.row, maxRetries, copy.runs + (maxRetries - copy.retry) + 1)
  }

  /** Nothing else changes when a copy of the main queue ends as `dead` in the dead-letter queue, but its inbox row. */
  function DeadLettered(s: State, copy: Copy, dead: Copy): State
    requires copy.row in s.outbox
  {
    s.(main := s.main - multiset{copy}, dlq := s.dlq + multiset{dead}, inbox := s.inbox - {s.outbox[copy.row].key})
  }

  lemma LastFailure(s: State, c: ConsumerId, copy: Copy, maxRetries: nat)
    requires c !in s.deliveries && copy.row in s.outbox && copy in s.main && copy.retry == maxRetries
    requires var key := s.outbox[copy.row].key; !(key in s.inbox && s.inbox[key].Processed?)
    ensures Legal(s, FailingDelivery(s, c, copy), maxRetries)
    ensures Run(s, FailingDelivery(s, c, copy), maxRetries) == DeadLettered(s, copy, DeadCopy(copy, maxRetries))
  {
    FailingDeliveryRuns(s, c, copy, maxRetries);
    assert RanOnce(copy) == DeadCopy(copy, maxRetries);
    assert s.retries + multiset{} == s.retries;
  }

  lemma DeadLetteredLater(s: State, due: State, copy: Copy, again: Copy, dead: Copy)
    requires copy.row in s.outbox && again.row == copy.row
    requires due == s.(main := s.main - multiset{copy} + multiset{again}, inbox := s.inbox - {s.outbox[copy.row].key})
    ensures DeadLettered(due, again, dead) == DeadLettered(s, copy, dead)
  {
    assert due.main - multiset{again} == s.main - multiset{copy};
    assert due.inbox - {s.outbox[copy.row].key} == due.inbox;
  }

  /**
   * Delivered again after every retry, an event whose handler keeps failing reaches the dead-letter queue after one
   * handler run for each retry left and one more.
   */
  lemma {:induction false} FailingRun(s: State, c: ConsumerId, copy: Copy, maxRetries: nat) returns (steps: seq<Step>)
    requires c !in s.deliveries && copy.row in s.outbox && copy in s.main && copy.retry <= maxRetries
    requires var key := s.outbox[copy.row].key; !(key in s.inbox && s.inbox[key].Processed?)
    ensures Legal(s, steps, maxRetries)
    ensures Run(s, steps, maxRetries) == DeadLettered(s, copy, DeadCopy(copy, maxRetries))
    ensures HandlerRuns(steps) == maxRetries - copy.retry + 1
    decreases maxRetries - copy.retry
  {
    var first := FailingDelivery(s, c, copy);
    FailingHandlerRuns(s, c, copy);
    if copy.retry == maxRetries {
      LastFailure(s, c, copy, maxRetries);
      steps := first;
    } else {
      var again := Copy(copy.row, copy.retry + 1, copy.runs + 1);
      FailedOnce(s, c, copy, again, maxRetries);
      DueAgain(s, copy, again, maxRetries);
      var after := Retrying(s, copy, again);
      var due := Apply(after, RetryDue(again), maxRetries);
      var rest := FailingRun(due, c, again, maxRetries);
      assert DeadCopy(again, maxRetries) == DeadCopy(copy, maxRetries);
      DeadLetteredLater(s, due, copy, again, DeadCopy(copy, maxRetries));
      FirstThenRest(s, first, after, again, rest, maxRetries);
      steps := first + ([RetryDue(again)] + rest);
    }
  }

  lemma FirstThenRest(s: State, first: seq<Step>, after: State, again: Copy, rest: seq<Step>, maxRetries: nat)
    requires Legal(s, first, maxRetries) && Run(s, first, maxRetries) == after && again in after.retries
    requires Legal(Apply(after, RetryDue(again), maxRetries), rest, maxRetries)
    ensures
      var steps := first + ([RetryDue(again)] + rest);
      && Legal(s, steps, maxRetries)
      && Run(s, steps, maxRetries) == Run(Apply(after, RetryDue(again), maxRetries), rest, maxRetries)
      && HandlerRuns(steps) == HandlerRuns(first) + HandlerRuns(rest)
  {
    RetryDueRun(after, again, rest, maxRetries);
    RunTwice(s, first, [RetryDue(again)] + rest, maxRetries);
    HandlerRunsOf(first, [RetryDue(again)] + rest);
  }

  // ----- the worker's steps -----

  /** A row fetched, sent and marked by a worker is published and has one fresh copy in the main queue. */
  lemma PublishingRun(s: State, w: WorkerId, r: RowId, maxRetries: nat)
    requires w !in s.workers && r in s.outbox && !s.outbox[r].published
    ensures
      var steps := [Fetch(w, r), Work(w, Publish), Work(w, MarkPublished)];
      && Legal(s, steps, maxRetries)
      && Run(s, steps, maxRetries) == s.(main := s.main + multiset{Copy(r, 0, 0)},
                                         outbox := s.outbox[r := OutboxRow(s.outbox[r].key, true)])
  {
    var fetched := s.(workers := s.workers[w := Fetched(r)]);
    var sent := s.(main := s.main + multiset{Copy(r, 0, 0)}, workers := s.workers[w := Sent(r)]);
    assert Apply(s, Fetch(w, r), maxRetries) == fetched;
    assert fetched.workers[w := Sent(r)] == sent.workers;
    assert Apply(fetched, Work(w, Publish), maxRetries) == sent;
    assert sent.workers - {w} == s.workers;
    WorkerSteps(s, fetched, sent, Fetch(w, r), Work(w, Publish), Work(w, MarkPublished), maxRetries);
  }

  /** A row the broker does not take stays pending and has no copy. */
  lemma RefusedRun(s: State, w: WorkerId, r: RowId, maxRetries: nat)
    requires w !in s.workers && r in s.outbox && !s.outbox[r].published
    ensures
      var steps := [Fetch(w, r), Work(w, PublishFails)];
      Legal(s, steps, maxRetries) && Run(s, steps, maxRetries) == s
  {
    var fetched := s.(workers := s.workers[w := Fetched(r)]);
    assert Apply(s, Fetch(w, r), maxRetries) == fetched;
    assert fetched.workers - {w} == s.workers && s.outbox[r := s.outbox[r].(published := false)] == s.outbox;
    assert Apply(fetched, Work(w, PublishFails), maxRetries) == s;
    StepFirst(fetched, Work(w, PublishFails), s, [], maxRetries);
    StepFirst(s, Fetch(w, r), fetched, [Work(w, PublishFails)] + [], maxRetries);
    assert [Fetch(w, r)] + ([Work(w, PublishFails)] + []) == [Fetch(w, r), Work(w, PublishFails)];
  }

  lemma StepFirst(s: State, step: Step, next: State, rest: seq<Step>, maxRetries: nat)
    requires Enabled(s, step) && next == Apply(s, step, maxRetries) && Legal(next, rest, maxRetries)
    ensures Legal(s, [step] + rest, maxRetries) && Run(s, [step] + rest, maxRetries) == Run(next, rest, maxRetries)
  {
    assert ([step] + rest)[1..] == rest;
  }

  lemma WorkerSteps(s: State, s1: State, s2: State, a: Step, b: Step, c: Step, maxRetries: nat)
    requires Enabled(s, a) && s1 == Apply(s, a, maxRetries)
    requires Enabled(s1, b) && s2 == Apply(s1, b, maxRetries) && Enabled(s2, c)
    ensures Legal(s, [a, b, c], maxRetries) && Run(s, [a, b, c], maxRetries) == Apply(s2, c, maxRetries)
  {
    StepFirst(s2, c, Apply(s2, c, maxRetries), [], maxRetries);
    StepFirst(s1, b, s2, [c] + [], maxRetries);
    StepFirst(s, a, s1, [b] + ([c] + []), maxRetries);
    assert [a] + ([b] + ([c] + [])) == [a, b, c];
  }
}
