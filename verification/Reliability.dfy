/**
 * Reliable messaging: outbox rows published by workers, deliveries handled behind an inbox, bounded
 * retries and a dead-letter queue, with crashes possible between any two steps.
 */
module Reliability {
  import opened Prelude
  import opened Messages

  type RowId = nat
  type ConsumerId = nat
  type WorkerId = nat

  datatype InboxStatus = Processing | Processed

  /** An outbox row; `key` is the event id in its payload, under which the consumer's inbox files it. */
  datatype OutboxRow = OutboxRow(key: EventId, published: bool)

  /** A copy of a row at the broker: its retry header, and how often its handler has run so far. */
  datatype Copy = Copy(row: RowId, retry: nat, runs: nat)

  /** How far a consumer has got with an unacknowledged copy. */
  datatype Stage = Checking | Inserting | Operating | Marking | Deleting | Requeueing | Acking

  datatype Delivery = Delivery(copy: Copy, stage: Stage)

  datatype Publishing = Fetched(row: RowId) | Sent(row: RowId)

  /**
   * `done` holds the keys for which a handler run has succeeded; `smooth` tells that so far no consumer
   * has crashed and no inbox query has failed.
   */
  datatype State = State(
    outbox: map<RowId, OutboxRow>,
    workers: map<WorkerId, Publishing>,
    main: multiset<Copy>,
    retries: multiset<Copy>,
    dlq: multiset<Copy>,
    deliveries: map<ConsumerId, Delivery>,
    inbox: map<EventId, InboxStatus>,
    done: set<EventId>,
    smooth: bool)

  const EMPTY := State(map[], map[], multiset{}, multiset{}, multiset{}, map[], map[], {}, true)

  /** What an outbox worker can do with the row it has fetched. */
  datatype WorkerAction = Publish | MarkPublished | PublishFails | WorkerCrashes

  /** What a consumer can do with the copy it holds; the names ending in Fails are failing queries. */
  datatype ConsumerAction =
    | Check | CheckFails
    | Insert | InsertFails | LookupFails
    | OperationSucceeds | OperationFails
    | MarkProcessed | MarkFails
    | DeleteRow | DeleteFails
    | Requeue
    | Ack
    | ConsumerCrashes

  datatype Step =
    | CommitRow(row: RowId, key: EventId)
    | Fetch(worker: WorkerId, row: RowId)
    | Work(worker: WorkerId, work: WorkerAction)
    | Deliver(consumer: ConsumerId, copy: Copy)
    | Consume(consumer: ConsumerId, action: ConsumerAction)
    | RetryDue(copy: Copy)

  // ----- one consumer action -----

  /** What a consumer action leaves: its delivery, if still unacknowledged, new copies, and the inbox. */
  datatype Outcome = Outcome(
    delivery: Option<Delivery>,
    toMain: multiset<Copy>, toRetries: multiset<Copy>, toDlq: multiset<Copy>,
    inbox: map<EventId, InboxStatus>, succeeded: bool, smooth: bool)

  function StageOf(action: ConsumerAction): Option<Stage> {
    match action
    case Check | CheckFails => Some(Checking)
    case Insert | InsertFails | LookupFails => Some(Inserting)
    case OperationSucceeds | OperationFails => Some(Operating)
    case MarkProcessed | MarkFails => Some(Marking)
    case DeleteRow | DeleteFails => Some(Deleting)
    case Requeue => Some(Requeueing)
    case Ack => Some(Acking)
    case ConsumerCrashes => None
  }

  function Goes(d: Delivery, stage: Stage, inbox: map<EventId, InboxStatus>): Outcome {
    Outcome(Some(d.(stage := stage)), multiset{}, multiset{}, multiset{}, inbox, false, true)
  }

  /** Where the inbox row sends a delivery: to its acknowledgement when the event is processed. */
  function AfterLookup(inbox: map<EventId, InboxStatus>, key: EventId, absent: Stage): Stage {
    if key !in inbox then absent else if inbox[key].Processed? then Acking else Operating
  }

  /** The handler has been run once more for this copy. */
  function Ran(d: Delivery): Delivery { d.(copy := d.copy.(runs := d.copy.runs + 1)) }

  function Acted(action: ConsumerAction, d: Delivery, key: EventId, inbox: map<EventId, InboxStatus>,
                 maxRetries: nat): Outcome {
    match action
    case Check => Goes(d, AfterLookup(inbox, key, Inserting), inbox)
    case CheckFails => Goes(d, Requeueing, inbox).(smooth := false)
    case Insert =>
      // a row inserted by somebody else in between makes the insert fail, and is looked up again
      if key in inbox then Goes(d, AfterLookup(inbox, key, Operating), inbox)
      else Goes(d, Operating, inbox[key := Processing])
    case InsertFails => Goes(d, AfterLookup(inbox, key, Operating), inbox)
    case LookupFails => Goes(d, Requeueing, inbox).(smooth := false)
    case OperationSucceeds => Goes(Ran(d), Marking, inbox).(succeeded := true)
    case OperationFails => Goes(Ran(d), Deleting, inbox)
    case MarkProcessed => Goes(d, Acking, if key in inbox then inbox[key := Processed] else inbox)
    case MarkFails => Goes(d, Deleting, inbox)
    case DeleteRow => Goes(d, Requeueing, inbox - {key})
    case DeleteFails => Goes(d, Requeueing, inbox)
    case Requeue =>
      if d.copy.retry < maxRetries
      then Goes(d, Acking, inbox).(toRetries := multiset{d.copy.(retry := d.copy.retry + 1)})
      else Goes(d, Acking, inbox).(toDlq := multiset{d.copy})
    case Ack => Goes(d, Acking, inbox).(delivery := None)
    case ConsumerCrashes => Goes(d, Acking, inbox).(delivery := None, toMain := multiset{d.copy}, smooth := false)
  }

  // ----- the steps -----

  predicate Enabled(s: State, step: Step) {
    match step
    case CommitRow(r, _) => r !in s.outbox
    case Fetch(w, r) => w !in s.workers && r in s.outbox && !s.outbox[r].published
    case Work(w, work) =>
      && w in s.workers && s.workers[w].row in s.outbox
      && (work.Publish? || work.PublishFails? ==> s.workers[w].Fetched?)
      && (work.MarkPublished? ==> s.workers[w].Sent?)
    case Deliver(c, copy) => c !in s.deliveries && copy in s.main
    case Consume(c, action) =>
      && c in s.deliveries && s.deliveries[c].copy.row in s.outbox
      && (StageOf(action).Some? ==> s.deliveries[c].stage == StageOf(action).value)
    case RetryDue(copy) => copy in s.retries
  }

  function Worked(s: State, w: WorkerId, work: WorkerAction): State
    requires w in s.workers && s.workers[w].row in s.outbox
  {
    var r := s.workers[w].row;
    match work
    case Publish => s.(main := s.main + multiset{Copy(r, 0, 0)}, workers := s.workers[w := Sent(r)])
    case MarkPublished => s.(outbox := s.outbox[r := s.outbox[r].(published := true)], workers := s.workers - {w})
    case PublishFails =>
      // saving the failed attempt writes back the status that was read with the row
      s.(outbox := s.outbox[r := s.outbox[r].(published := false)], workers := s.workers - {w})
    case WorkerCrashes => s.(workers := s.workers - {w})
  }

  function Took(s: State, c: ConsumerId, o: Outcome, key: EventId): State {
    State(s.outbox, s.workers, s.main + o.toMain, s.retries + o.toRetries, s.dlq + o.toDlq,
      if o.delivery.Some? then s.deliveries[c := o.delivery.value] else s.deliveries - {c},
      o.inbox, if o.succeeded then s.done + {key} else s.done, s.smooth && o.smooth)
  }

  function KeyOf(s: State, c: ConsumerId): EventId
    requires c in s.deliveries && s.deliveries[c].copy.row in s.outbox
  {
    s.outbox[s.deliveries[c].copy.row].key
  }

  function Apply(s: State, step: Step, maxRetries: nat): State
    requires Enabled(s, step)
  {
    match step
    case CommitRow(r, key) => s.(outbox := s.outbox[r := OutboxRow(key, false)])
    case Fetch(w, r) => s.(workers := s.workers[w := Fetched(r)])
    case Work(w, work) => Worked(s, w, work)
    case Deliver(c, copy) =>
      s.(main := s.main - multiset{copy}, deliveries := s.deliveries[c := Delivery(copy, Checking)])
    case Consume(c, action) =>
      Took(s, c, Acted(action, s.deliveries[c], KeyOf(s, c), s.inbox, maxRetries), KeyOf(s, c))
    case RetryDue(copy) => s.(retries := s.retries - multiset{copy}, main := s.main + multiset{copy})
  }

  // ----- no message is lost -----

  /** A copy of the row waits in a queue. */
  ghost predicate Queued(s: State, r: RowId) {
    exists copy: Copy :: copy.row == r && (copy in s.main || copy in s.retries || copy in s.dlq)
  }

  /** A consumer is still to do something about a copy of the row other than acknowledge it. */
  ghost predicate InHand(s: State, r: RowId) {
    exists c :: c in s.deliveries && s.deliveries[c].copy.row == r && s.deliveries[c].stage != Acking
  }

  /** The row is at the broker or in a consumer's hands, or its event has been handled successfully. */
  ghost predicate Safe(s: State, r: RowId) {
    r in s.outbox && (Queued(s, r) || InHand(s, r) || s.outbox[r].key in s.done)
  }

  /** Whoever is about to acknowledge a copy of the row knows that the row is safe without it. */
  ghost predicate DeliveryOk(s: State, d: Delivery) {
    && d.copy.row in s.outbox
    && (d.stage.Acking? ==> Safe(s, d.copy.row))
    && (d.stage.Marking? ==> s.outbox[d.copy.row].key in s.done)
  }

  ghost predicate WorkerOk(s: State, p: Publishing) {
    p.row in s.outbox && (p.Sent? ==> Safe(s, p.row))
  }

  ghost predicate CopiesKnown(s: State) {
    forall copy: Copy :: copy in s.main || copy in s.retries || copy in s.dlq ==> copy.row in s.outbox
  }

  ghost predicate ProcessedDone(inbox: map<EventId, InboxStatus>, done: set<EventId>) {
    forall k :: k in inbox && inbox[k].Processed? ==> k in done
  }

  ghost predicate Inv(s: State) {
    && (forall r :: r in s.outbox && s.outbox[r].published ==> Safe(s, r))
    && (forall w :: w in s.workers ==> WorkerOk(s, s.workers[w]))
    && (forall c :: c in s.deliveries ==> DeliveryOk(s, s.deliveries[c]))
    && CopiesKnown(s)
    && ProcessedDone(s.inbox, s.done)
  }

  /** Nothing that keeps rows safe is taken away: rows, queued copies, working deliveries, successes. */
  ghost predicate Keeps(s: State, s': State) {
    && (forall r :: r in s.outbox ==> r in s'.outbox && s'.outbox[r].key == s.outbox[r].key)
    && (forall copy :: copy in s.main || copy in s.retries || copy in s.dlq ==>
          Queued(s', copy.row) || InHand(s', copy.row))
    && (forall c :: c in s.deliveries && s.deliveries[c].stage != Acking ==> Safe(s', s.deliveries[c].copy.row))
    && s.done <= s'.done
  }

  lemma KeepsSafe(s: State, s': State, r: RowId)
    requires Keeps(s, s') && Safe(s, r)
    ensures Safe(s', r)
  {
    if Queued(s, r) {
      var copy: Copy :| copy.row == r && (copy in s.main || copy in s.retries || copy in s.dlq);
    } else if InHand(s, r) {
      var c :| c in s.deliveries && s.deliveries[c].copy.row == r && s.deliveries[c].stage != Acking;
    }
  }

  /** The inbox marks an event processed only after a handler run for it has succeeded. */
  lemma ActedProcessed(action: ConsumerAction, d: Delivery, key: EventId, inbox: map<EventId, InboxStatus>,
                       done: set<EventId>, maxRetries: nat)
    requires StageOf(action).Some? ==> d.stage == StageOf(action).value
    requires ProcessedDone(inbox, done) && (d.stage.Marking? ==> key in done)
    ensures
      var o := Acted(action, d, key, inbox, maxRetries);
      var done' := if o.succeeded then done + {key} else done;
      ProcessedDone(o.inbox, done') && (o.delivery.Some? && o.delivery.value.stage.Marking? ==> key in done')
  {
  }

  /**
   * A consumer lets go of a copy, or stops working on it, only when its event has been handled
   * successfully or a copy is queued again.
   */
  lemma ActedSafely(action: ConsumerAction, d: Delivery, key: EventId, inbox: map<EventId, InboxStatus>,
                    done: set<EventId>, maxRetries: nat)
    requires StageOf(action).Some? ==> d.stage == StageOf(action).value
    requires ProcessedDone(inbox, done) && (d.stage.Marking? ==> key in done)
    ensures
      var o := Acted(action, d, key, inbox, maxRetries);
      && (o.delivery.Some? ==> o.delivery.value.copy.row == d.copy.row)
      && (d.stage.Acking?
          || (o.delivery.Some? && o.delivery.value.stage != Acking)
          || key in (if o.succeeded then done + {key} else done)
          || exists copy: Copy ::
               copy.row == d.copy.row && (copy in o.toMain || copy in o.toRetries || copy in o.toDlq))
      && (forall copy: Copy :: copy in o.toMain || copy in o.toRetries || copy in o.toDlq ==> copy.row == d.copy.row)
  {
    var o := Acted(action, d, key, inbox, maxRetries);
    match action
    case Requeue => assert d.copy.(retry := d.copy.retry + 1) in o.toRetries || d.copy in o.toDlq;
    case ConsumerCrashes => assert d.copy in o.toMain;
    case _ =>
  }

  lemma TookKeeps(s: State, c: ConsumerId, o: Outcome, key: EventId)
    requires c in s.deliveries && s.deliveries[c].copy.row in s.outbox && key == KeyOf(s, c)
    requires o.delivery.Some? ==> o.delivery.value.copy.row == s.deliveries[c].copy.row
    requires s.deliveries[c].stage.Acking? || (o.delivery.Some? && o.delivery.value.stage != Acking)
          || key in (if o.succeeded then s.done + {key} else s.done)
          || exists copy: Copy ::
               copy.row == s.deliveries[c].copy.row && (copy in o.toMain || copy in o.toRetries || copy in o.toDlq)
    requires forall e :: e in s.deliveries ==> s.deliveries[e].copy.row in s.outbox
    ensures Keeps(s, Took(s, c, o, key))
  {
    var s' := Took(s, c, o, key);
    forall copy | copy in s.main || copy in s.retries || copy in s.dlq
      ensures Queued(s', copy.row)
    {
      assert copy in s'.main || copy in s'.retries || copy in s'.dlq;
    }
    forall e | e in s.deliveries && s.deliveries[e].stage != Acking
      ensures Safe(s', s.deliveries[e].copy.row)
    {
      var row := s.deliveries[e].copy.row;
      if e != c {
        assert e in s'.deliveries && s'.deliveries[e] == s.deliveries[e];
        assert InHand(s', row);
      } else if o.delivery.Some? && o.delivery.value.stage != Acking {
        assert c in s'.deliveries && s'.deliveries[c] == o.delivery.value;
        assert InHand(s', row);
      } else if key !in s'.done {
        var copy: Copy :| copy.row == row && (copy in o.toMain || copy in o.toRetries || copy in o.toDlq);
        assert copy in s'.main || copy in s'.retries || copy in s'.dlq;
        assert Queued(s', row);
      }
    }
  }

  /** After a step that keeps rows safe, the invariant is a matter of what the step itself added. */
  lemma KeptInv(s: State, s': State)
    requires Inv(s) && Keeps(s, s') && CopiesKnown(s') && ProcessedDone(s'.inbox, s'.done)
    requires forall r :: r in s'.outbox && s'.outbox[r].published ==>
               (r in s.outbox && s.outbox[r].published) || Safe(s', r)
    requires forall w :: w in s'.workers ==>
               (w in s.workers && s'.workers[w] == s.workers[w]) || WorkerOk(s', s'.workers[w])
    requires forall e :: e in s'.deliveries ==>
               (e in s.deliveries && s'.deliveries[e] == s.deliveries[e]) || DeliveryOk(s', s'.deliveries[e])
    ensures Inv(s')
  {
    forall r | r in s'.outbox && s'.outbox[r].published
      ensures Safe(s', r)
    {
      if r in s.outbox && s.outbox[r].published {
        KeepsSafe(s, s', r);
      }
    }
    forall w | w in s'.workers
      ensures WorkerOk(s', s'.workers[w])
    {
      if w in s.workers && s'.workers[w] == s.workers[w] {
        assert WorkerOk(s, s.workers[w]);
        if s.workers[w].Sent? {
          KeepsSafe(s, s', s.workers[w].row);
        }
      }
    }
    forall e | e in s'.deliveries
      ensures DeliveryOk(s', s'.deliveries[e])
    {
      if e in s.deliveries && s'.deliveries[e] == s.deliveries[e] {
        assert DeliveryOk(s, s.deliveries[e]);
        if s.deliveries[e].stage.Acking? {
          KeepsSafe(s, s', s.deliveries[e].copy.row);
        }
      }
    }
  }

  lemma ConsumeKeepsInv(s: State, c: ConsumerId, action: ConsumerAction, maxRetries: nat)
    requires Inv(s) && Enabled(s, Consume(c, action))
    ensures Inv(Apply(s, Consume(c, action), maxRetries))
  {
    var d, key := s.deliveries[c], KeyOf(s, c);
    assert DeliveryOk(s, d);
    ActedSafely(action, d, key, s.inbox, s.done, maxRetries);
    ActedProcessed(action, d, key, s.inbox, s.done, maxRetries);
    AckLast(action, d, key, s.inbox, maxRetries);
    assert forall e :: e in s.deliveries ==> DeliveryOk(s, s.deliveries[e]);
    TookKeeps(s, c, Acted(action, d, key, s.inbox, maxRetries), key);
    TookKeepsInv(s, c, Acted(action, d, key, s.inbox, maxRetries), key);
  }

  lemma TookKeepsInv(s: State, c: ConsumerId, o: Outcome, key: EventId)
    requires Inv(s) && c in s.deliveries && s.deliveries[c].copy.row in s.outbox && key == KeyOf(s, c)
    requires Keeps(s, Took(s, c, o, key)) && ProcessedDone(o.inbox, Took(s, c, o, key).done)
    requires o.delivery.Some? ==>
               && o.delivery.value.copy.row == s.deliveries[c].copy.row && s.deliveries[c].stage != Acking
               && (o.delivery.value.stage.Marking? ==> key in Took(s, c, o, key).done)
    requires forall copy: Copy :: copy in o.toMain || copy in o.toRetries || copy in o.toDlq ==>
               copy.row == s.deliveries[c].copy.row
    ensures Inv(Took(s, c, o, key))
  {
    var s' := Took(s, c, o, key);
    forall copy | copy in s'.main || copy in s'.retries || copy in s'.dlq
      ensures copy.row in s'.outbox
    {
      assert copy in s.main || copy in s.retries || copy in s.dlq || copy in o.toMain || copy in o.toRetries
             || copy in o.toDlq;
    }
    KeptInv(s, s');
  }

  /** Once it is to be acknowledged, a delivery only ends. */
  lemma AckLast(action: ConsumerAction, d: Delivery, key: EventId, inbox: map<EventId, InboxStatus>, maxRetries: nat)
    requires StageOf(action).Some? ==> d.stage == StageOf(action).value
    ensures Acted(action, d, key, inbox, maxRetries).delivery.Some? ==> d.stage != Acking
  {
  }

  lemma GrowthKeeps(s: State, s': State)
    requires forall r :: r in s.outbox ==> r in s'.outbox && s'.outbox[r].key == s.outbox[r].key
    requires s.main <= s'.main && s'.retries == s.retries && s'.dlq == s.dlq && s'.deliveries == s.deliveries
    requires s'.done == s.done
    requires forall e :: e in s.deliveries ==> s.deliveries[e].copy.row in s.outbox
    ensures Keeps(s, s')
  {
    forall copy | copy in s.main || copy in s.retries || copy in s.dlq
      ensures Queued(s', copy.row)
    {
      assert copy in s'.main || copy in s'.retries || copy in s'.dlq;
    }
    forall e | e in s.deliveries && s.deliveries[e].stage != Acking
      ensures Safe(s', s.deliveries[e].copy.row)
    {
      assert InHand(s', s.deliveries[e].copy.row);
    }
  }

  lemma RowsInHandKnown(s: State)
    requires Inv(s)
    ensures forall e :: e in s.deliveries ==> s.deliveries[e].copy.row in s.outbox
  {
    forall e | e in s.deliveries
      ensures s.deliveries[e].copy.row in s.outbox
    {
      assert DeliveryOk(s, s.deliveries[e]);
    }
  }

  lemma PublishKeepsInv(s: State, w: WorkerId)
    requires Inv(s) && Enabled(s, Work(w, Publish))
    ensures Inv(Worked(s, w, Publish))
  {
    var s', row := Worked(s, w, Publish), s.workers[w].row;
    RowsInHandKnown(s);
    GrowthKeeps(s, s');
    assert Copy(row, 0, 0) in s'.main;
    assert Queued(s', row);
    KeptInv(s, s');
  }

  /** The worker that has sent the row knows it to be safe. */
  lemma SentSafe(s: State, s': State, w: WorkerId)
    requires w in s.workers && s.workers[w].Sent? && WorkerOk(s, s.workers[w]) && Keeps(s, s')
    ensures Safe(s', s.workers[w].row)
  {
    KeepsSafe(s, s', s.workers[w].row);
  }

  lemma MarkPublishedKeepsInv(s: State, w: WorkerId)
    requires Inv(s) && Enabled(s, Work(w, MarkPublished))
    ensures Inv(Worked(s, w, MarkPublished))
  {
    var s' := Worked(s, w, MarkPublished);
    RowsInHandKnown(s);
    GrowthKeeps(s, s');
    SentSafe(s, s', w);
    KeptInv(s, s');
  }

  lemma GiveUpKeepsInv(s: State, w: WorkerId, work: WorkerAction)
    requires Inv(s) && Enabled(s, Work(w, work)) && (work.PublishFails? || work.WorkerCrashes?)
    ensures Inv(Worked(s, w, work))
  {
    RowsInHandKnown(s);
    GrowthKeeps(s, Worked(s, w, work));
    KeptInv(s, Worked(s, w, work));
  }

  lemma DeliverKeeps(s: State, c: ConsumerId, copy: Copy, maxRetries: nat)
    requires Inv(s) && Enabled(s, Deliver(c, copy))
    ensures Keeps(s, Apply(s, Deliver(c, copy), maxRetries))
  {
    var s' := Apply(s, Deliver(c, copy), maxRetries);
    forall x | x in s.main || x in s.retries || x in s.dlq
      ensures Queued(s', x.row) || InHand(s', x.row)
    {
      if x == copy {
        assert s'.deliveries[c].copy.row == x.row;
      } else {
        assert x in s'.main || x in s'.retries || x in s'.dlq;
      }
    }
    forall e | e in s.deliveries && s.deliveries[e].stage != Acking
      ensures Safe(s', s.deliveries[e].copy.row)
    {
      assert DeliveryOk(s, s.deliveries[e]);
      assert e in s'.deliveries && s'.deliveries[e] == s.deliveries[e];
      assert InHand(s', s.deliveries[e].copy.row);
    }
  }

  lemma RetryDueKeeps(s: State, copy: Copy, maxRetries: nat)
    requires Inv(s) && Enabled(s, RetryDue(copy))
    ensures Keeps(s, Apply(s, RetryDue(copy), maxRetries))
  {
    var s' := Apply(s, RetryDue(copy), maxRetries);
    forall x | x in s.main || x in s.retries || x in s.dlq
      ensures Queued(s', x.row)
    {
      assert x in s'.main || x in s'.retries || x in s'.dlq;
    }
    forall e | e in s.deliveries && s.deliveries[e].stage != Acking
      ensures Safe(s', s.deliveries[e].copy.row)
    {
      assert DeliveryOk(s, s.deliveries[e]);
      assert InHand(s', s.deliveries[e].copy.row);
    }
  }

  lemma CommitRowKeepsInv(s: State, r: RowId, key: EventId, maxRetries: nat)
    requires Inv(s) && Enabled(s, CommitRow(r, key))
    ensures Inv(Apply(s, CommitRow(r, key), maxRetries))
  {
    RowsInHandKnown(s);
    GrowthKeeps(s, Apply(s, CommitRow(r, key), maxRetries));
    KeptInv(s, Apply(s, CommitRow(r, key), maxRetries));
  }

  lemma FetchKeepsInv(s: State, w: WorkerId, r: RowId, maxRetries: nat)
    requires Inv(s) && Enabled(s, Fetch(w, r))
    ensures Inv(Apply(s, Fetch(w, r), maxRetries))
  {
    RowsInHandKnown(s);
    GrowthKeeps(s, Apply(s, Fetch(w, r), maxRetries));
    KeptInv(s, Apply(s, Fetch(w, r), maxRetries));
  }

  lemma StepKeepsInv(s: State, step: Step, maxRetries: nat)
    requires Inv(s) && Enabled(s, step)
    ensures Inv(Apply(s, step, maxRetries))
  {
    match step
    case CommitRow(r, key) => CommitRowKeepsInv(s, r, key, maxRetries);
    case Fetch(w, r) => FetchKeepsInv(s, w, r, maxRetries);
    case Work(w, work) =>
      if work.Publish? {
        PublishKeepsInv(s, w);
      } else if work.MarkPublished? {
        MarkPublishedKeepsInv(s, w);
      } else {
        GiveUpKeepsInv(s, w, work);
      }
    case Deliver(c, copy) =>
      DeliverKeeps(s, c, copy, maxRetries);
      KeptInv(s, Apply(s, step, maxRetries));
    case Consume(c, action) => ConsumeKeepsInv(s, c, action, maxRetries);
    case RetryDue(copy) =>
      RetryDueKeeps(s, copy, maxRetries);
      KeptInv(s, Apply(s, step, maxRetries));
  }

  // ----- runs -----

  predicate Legal(s: State, steps: seq<Step>, maxRetries: nat)
    decreases |steps|
  {
    steps == [] || (Enabled(s, steps[0]) && Legal(Apply(s, steps[0], maxRetries), steps[1..], maxRetries))
  }

  function Run(s: State, steps: seq<Step>, maxRetries: nat): State
    requires Legal(s, steps, maxRetries)
    decreases |steps|
  {
    if steps == [] then s else Run(Apply(s, steps[0], maxRetries), steps[1..], maxRetries)
  }

  lemma {:induction false} RunKeepsInv(s: State, steps: seq<Step>, maxRetries: nat)
    requires Inv(s) && Legal(s, steps, maxRetries)
    ensures Inv(Run(s, steps, maxRetries))
    decreases |steps|
  {
    if steps != [] {
      StepKeepsInv(s, steps[0], maxRetries);
      RunKeepsInv(Apply(s, steps[0], maxRetries), steps[1..], maxRetries);
    }
  }

  /**
   * Whatever crashes: a committed event is still pending in the outbox, or at the broker (in the main,
   * retry or dead-letter queue) or in a consumer's hands, or a handler run for its event id has succeeded.
   */
  lemma NothingLost(steps: seq<Step>, maxRetries: nat, r: RowId)
    requires Legal(EMPTY, steps, maxRetries) && r in Run(EMPTY, steps, maxRetries).outbox
    ensures var s := Run(EMPTY, steps, maxRetries);
            !s.outbox[r].published || Queued(s, r) || InHand(s, r) || s.outbox[r].key in s.done
  {
    RunKeepsInv(EMPTY, steps, maxRetries);
  }

  /** And an event is reported as a duplicate, or its row marked processed, only after such a success. */
  lemma ProcessedMeansDone(steps: seq<Step>, maxRetries: nat, key: EventId)
    requires Legal(EMPTY, steps, maxRetries)
    requires key in Run(EMPTY, steps, maxRetries).inbox && Run(EMPTY, steps, maxRetries).inbox[key].Processed?
    ensures key in Run(EMPTY, steps, maxRetries).done
  {
    RunKeepsInv(EMPTY, steps, maxRetries);
  }

  // ----- bounded retries -----

  /** A copy in the main or retry queue: within the limit, and in a smooth run handled once for each retry. */
  predicate WaitingOk(copy: Copy, smooth: bool, maxRetries: nat) {
    copy.retry <= maxRetries && (smooth ==> copy.runs == copy.retry)
  }

  predicate DeadOk(copy: Copy, smooth: bool, maxRetries: nat) {
    copy.retry == maxRetries && (smooth ==> copy.runs == maxRetries + 1)
  }

  predicate HeldOk(d: Delivery, smooth: bool, maxRetries: nat) {
    && d.copy.retry <= maxRetries
    && (smooth && d.stage in {Checking, Inserting, Operating} ==> d.copy.runs == d.copy.retry)
    && (smooth && d.stage in {Marking, Deleting, Requeueing} ==> d.copy.runs == d.copy.retry + 1)
  }

  ghost predicate RetryInv(s: State, maxRetries: nat) {
    && (forall copy :: copy in s.main || copy in s.retries ==> WaitingOk(copy, s.smooth, maxRetries))
    && (forall copy :: copy in s.dlq ==> DeadOk(copy, s.smooth, maxRetries))
    && (forall c :: c in s.deliveries ==> HeldOk(s.deliveries[c], s.smooth, maxRetries))
  }

  lemma ActedCounts(action: ConsumerAction, d: Delivery, key: EventId, inbox: map<EventId, InboxStatus>, smooth: bool,
                    maxRetries: nat)
    requires StageOf(action).Some? ==> d.stage == StageOf(action).value
    requires HeldOk(d, smooth, maxRetries)
    ensures
      var o := Acted(action, d, key, inbox, maxRetries);
      && (o.delivery.Some? ==> HeldOk(o.delivery.value, smooth && o.smooth, maxRetries))
      && (forall copy :: copy in o.toMain || copy in o.toRetries ==> WaitingOk(copy, smooth && o.smooth, maxRetries))
      && (forall copy :: copy in o.toDlq ==> DeadOk(copy, smooth && o.smooth, maxRetries))
  {
    if action.Requeue? {
    } else if action.ConsumerCrashes? {
    } else {
    }
  }

  lemma ConsumeKeepsRetryInv(s: State, c: ConsumerId, action: ConsumerAction, maxRetries: nat)
    requires RetryInv(s, maxRetries) && Enabled(s, Consume(c, action))
    ensures RetryInv(Apply(s, Consume(c, action), maxRetries), maxRetries)
  {
    ActedCounts(action, s.deliveries[c], KeyOf(s, c), s.inbox, s.smooth, maxRetries);
    var o := Acted(action, s.deliveries[c], KeyOf(s, c), s.inbox, maxRetries);
    TookKeepsRetryInv(s, c, o, KeyOf(s, c), maxRetries);
  }

  lemma TookKeepsRetryInv(s: State, c: ConsumerId, o: Outcome, key: EventId, maxRetries: nat)
    requires RetryInv(s, maxRetries)
    requires o.delivery.Some? ==> HeldOk(o.delivery.value, s.smooth && o.smooth, maxRetries)
    requires forall copy :: copy in o.toMain || copy in o.toRetries ==>
               WaitingOk(copy, s.smooth && o.smooth, maxRetries)
    requires forall copy :: copy in o.toDlq ==> DeadOk(copy, s.smooth && o.smooth, maxRetries)
    ensures RetryInv(Took(s, c, o, key), maxRetries)
  {
    var s' := Took(s, c, o, key);
    forall copy | copy in s'.main || copy in s'.retries
      ensures WaitingOk(copy, s'.smooth, maxRetries)
    {
      assert copy in s.main || copy in s.retries || copy in o.toMain || copy in o.toRetries;
    }
    forall copy | copy in s'.dlq
      ensures DeadOk(copy, s'.smooth, maxRetries)
    {
      assert copy in s.dlq || copy in o.toDlq;
    }
  }

  lemma StepKeepsRetryInv(s: State, step: Step, maxRetries: nat)
    requires RetryInv(s, maxRetries) && Enabled(s, step)
    ensures RetryInv(Apply(s, step, maxRetries), maxRetries)
  {
    if step.Consume? {
      ConsumeKeepsRetryInv(s, step.consumer, step.action, maxRetries);
    }
  }

  lemma {:induction false} RunKeepsRetryInv(s: State, steps: seq<Step>, maxRetries: nat)
    requires RetryInv(s, maxRetries) && Legal(s, steps, maxRetries)
    ensures RetryInv(Run(s, steps, maxRetries), maxRetries)
    decreases |steps|
  {
    if steps != [] {
      StepKeepsRetryInv(s, steps[0], maxRetries);
      RunKeepsRetryInv(Apply(s, steps[0], maxRetries), steps[1..], maxRetries);
    }
  }

  /**
   * No copy's retry count exceeds the limit, only copies that used it up are dead-lettered, and without
   * crashes and failing inbox queries the handler ran exactly maxRetries + 1 times for each of them.
   */
  lemma RetriesBounded(steps: seq<Step>, maxRetries: nat, copy: Copy)
    requires Legal(EMPTY, steps, maxRetries)
    ensures var s := Run(EMPTY, steps, maxRetries);
            && (copy in s.main || copy in s.retries ==> copy.retry <= maxRetries)
            && (copy in s.dlq ==> copy.retry == maxRetries && (s.smooth ==> copy.runs == maxRetries + 1))
  {
    RunKeepsRetryInv(EMPTY, steps, maxRetries);
  }

  /**
   * An event whose handler never succeeds ends in the dead-letter queue: once no copy of its row is queued for
   * delivery or in a consumer's hands, a copy is dead-lettered that has used up its retries, and without crashes and
   * failing inbox queries its handler has run exactly maxRetries + 1 times.
   */
  lemma AlwaysFailing(steps: seq<Step>, maxRetries: nat, r: RowId)
    requires Legal(EMPTY, steps, maxRetries) && r in Run(EMPTY, steps, maxRetries).outbox
    requires
      var s := Run(EMPTY, steps, maxRetries);
      && s.outbox[r].published && s.outbox[r].key !in s.done && !InHand(s, r)
      && forall copy: Copy :: copy in s.main || copy in s.retries ==> copy.row != r
    ensures
      var s := Run(EMPTY, steps, maxRetries);
      exists copy: Copy ::
        copy in s.dlq && copy.row == r && copy.retry == maxRetries && (s.smooth ==> copy.runs == maxRetries + 1)
  {
    NothingLost(steps, maxRetries, r);
    var s := Run(EMPTY, steps, maxRetries);
    var copy: Copy :| copy.row == r && (copy in s.main || copy in s.retries || copy in s.dlq);
    RetriesBounded(steps, maxRetries, copy);
  }
}
