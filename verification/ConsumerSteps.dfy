/**
 * A delivery handled by the consumer's code is a delivery handled by its steps: whichever queries fail, and whether
 * or not another consumer wins the insert, both leave the same inbox, the same queues and the same number of runs.
 */
module ConsumerSteps {
  import opened Prelude
  import opened Messages
  import opened Reliability
  import opened Deliveries
  import opened Consumers

  /** A delivery at a stage, with nothing queued so far. */
  function On(copy: Copy, stage: Stage, inbox: map<EventId, InboxStatus>, succeeded: bool, smooth: bool): Outcome {
    Outcome(Some(Delivery(copy, stage)), multiset{}, multiset{}, multiset{}, inbox, succeeded, smooth)
  }

  /** Where a delivery ends that has thrown: queued again and about to be acknowledged. */
  function Again(copy: Copy, inbox: map<EventId, InboxStatus>, succeeded: bool, smooth: bool,
                 maxRetries: nat): Outcome {
    var q := Requeued(copy, maxRetries);
    Outcome(Some(Delivery(copy, Acking)), multiset{}, q.0, q.1, inbox, succeeded, smooth)
  }

  // ----- from the end backwards -----

  lemma NothingLeads(o: Outcome, key: EventId, maxRetries: nat)
    ensures Leads(o, [], key, maxRetries, o)
  {
  }

  lemma Requeues(copy: Copy, key: EventId, inbox: map<EventId, InboxStatus>, succeeded: bool, smooth: bool,
                 maxRetries: nat)
    ensures Leads(On(copy, Requeueing, inbox, succeeded, smooth), [Requeue], key, maxRetries,
                  Again(copy, inbox, succeeded, smooth, maxRetries))
  {
    var o, q := On(copy, Requeueing, inbox, succeeded, smooth), Requeued(copy, maxRetries);
    var next := Then(o, Requeue, key, maxRetries);
    assert multiset{} + q.0 == q.0 && multiset{} + q.1 == q.1;
    assert next == Again(copy, inbox, succeeded, smooth, maxRetries);
    LeadsFirst(o, Requeue, next, [], key, maxRetries, next);
    assert [Requeue] + [] == [Requeue];
  }

  function Deletion(q: Queries): ConsumerAction { if q.deleteFails then DeleteFails else DeleteRow }

  function Left(inbox: map<EventId, InboxStatus>, key: EventId, q: Queries): map<EventId, InboxStatus> {
    if q.deleteFails then inbox else inbox - {key}
  }

  lemma Deletes(copy: Copy, key: EventId, inbox: map<EventId, InboxStatus>, succeeded: bool, smooth: bool, q: Queries,
                maxRetries: nat)
    ensures Leads(On(copy, Deleting, inbox, succeeded, smooth), [Deletion(q), Requeue], key, maxRetries,
                  Again(copy, Left(inbox, key, q), succeeded, smooth, maxRetries))
  {
    var o, next := On(copy, Deleting, inbox, succeeded, smooth),
      On(copy, Requeueing, Left(inbox, key, q), succeeded, smooth);
    assert Then(o, Deletion(q), key, maxRetries) == next;
    Requeues(copy, key, Left(inbox, key, q), succeeded, smooth, maxRetries);
    LeadsFirst(o, Deletion(q), next, [Requeue], key, maxRetries,
               Again(copy, Left(inbox, key, q), succeeded, smooth, maxRetries));
    assert [Deletion(q)] + [Requeue] == [Deletion(q), Requeue];
  }

  /** The steps from the handler on. */
  function RunSteps(succeeds: bool, q: Queries): seq<ConsumerAction> {
    if !succeeds then [OperationFails, Deletion(q), Requeue]
    else if q.markFails then [OperationSucceeds, MarkFails, Deletion(q), Requeue]
    else [OperationSucceeds, MarkProcessed]
  }

  function MarkedInbox(inbox: map<EventId, InboxStatus>, key: EventId): map<EventId, InboxStatus> {
    if key in inbox then inbox[key := Processed] else inbox
  }

  function AfterRun(copy: Copy, key: EventId, inbox: map<EventId, InboxStatus>, smooth: bool, succeeds: bool,
                    q: Queries,
                    maxRetries: nat): Outcome {
    if succeeds && !q.markFails then On(RanOnce(copy), Acking, MarkedInbox(inbox, key), true, smooth)
    else Again(RanOnce(copy), Left(inbox, key, q), succeeds, smooth, maxRetries)
  }

  lemma FailedRuns(copy: Copy, key: EventId, inbox: map<EventId, InboxStatus>, smooth: bool, q: Queries,
                   maxRetries: nat)
    ensures Leads(On(copy, Operating, inbox, false, smooth), RunSteps(false, q), key, maxRetries,
                  AfterRun(copy, key, inbox, smooth, false, q, maxRetries))
  {
    var o, next := On(copy, Operating, inbox, false, smooth), On(RanOnce(copy), Deleting, inbox, false, smooth);
    assert Then(o, OperationFails, key, maxRetries) == next;
    Deletes(RanOnce(copy), key, inbox, false, smooth, q, maxRetries);
    LeadsFirst(o, OperationFails, next, [Deletion(q), Requeue], key, maxRetries,
               AfterRun(copy, key, inbox, smooth, false, q, maxRetries));
    assert [OperationFails] + [Deletion(q), Requeue] == RunSteps(false, q);
  }

  lemma MarkFailing(copy: Copy, key: EventId, inbox: map<EventId, InboxStatus>, smooth: bool, q: Queries,
                    maxRetries: nat)
    ensures Leads(On(copy, Marking, inbox, true, smooth), [MarkFails, Deletion(q), Requeue], key, maxRetries,
                  Again(copy, Left(inbox, key, q), true, smooth, maxRetries))
  {
    var o, next := On(copy, Marking, inbox, true, smooth), On(copy, Deleting, inbox, true, smooth);
    assert Then(o, MarkFails, key, maxRetries) == next;
    Deletes(copy, key, inbox, true, smooth, q, maxRetries);
    LeadsFirst(o, MarkFails, next, [Deletion(q), Requeue], key, maxRetries,
               Again(copy, Left(inbox, key, q), true, smooth, maxRetries));
    assert [MarkFails] + [Deletion(q), Requeue] == [MarkFails, Deletion(q), Requeue];
  }

  lemma Marks(copy: Copy, key: EventId, inbox: map<EventId, InboxStatus>, smooth: bool, maxRetries: nat)
    ensures Leads(On(copy, Marking, inbox, true, smooth), [MarkProcessed], key, maxRetries,
                  On(copy, Acking, MarkedInbox(inbox, key), true, smooth))
  {
    var o, last := On(copy, Marking, inbox, true, smooth), On(copy, Acking, MarkedInbox(inbox, key), true, smooth);
    assert Then(o, MarkProcessed, key, maxRetries) == last;
    LeadsFirst(o, MarkProcessed, last, [], key, maxRetries, last);
    assert [MarkProcessed] + [] == [MarkProcessed];
  }

  lemma SucceededRuns(copy: Copy, key: EventId, inbox: map<EventId, InboxStatus>, smooth: bool, q: Queries,
                      maxRetries: nat)
    ensures Leads(On(copy, Operating, inbox, false, smooth), RunSteps(true, q), key, maxRetries,
                  AfterRun(copy, key, inbox, smooth, true, q, maxRetries))
  {
    var o, next := On(copy, Operating, inbox, false, smooth), On(RanOnce(copy), Marking, inbox, true, smooth);
    assert Then(o, OperationSucceeds, key, maxRetries) == next;
    if q.markFails {
      MarkFailing(RanOnce(copy), key, inbox, smooth, q, maxRetries);
      LeadsFirst(o, OperationSucceeds, next, [MarkFails, Deletion(q), Requeue], key, maxRetries,
                 AfterRun(copy, key, inbox, smooth, true, q, maxRetries));
      assert [OperationSucceeds] + [MarkFails, Deletion(q), Requeue] == RunSteps(true, q);
    } else {
      Marks(RanOnce(copy), key, inbox, smooth, maxRetries);
      LeadsFirst(o, OperationSucceeds, next, [MarkProcessed], key, maxRetries,
                 AfterRun(copy, key, inbox, smooth, true, q, maxRetries));
      assert [OperationSucceeds] + [MarkProcessed] == RunSteps(true, q);
    }
  }

  lemma Runs(copy: Copy, key: EventId, inbox: map<EventId, InboxStatus>, smooth: bool, succeeds: bool, q: Queries,
             maxRetries: nat)
    ensures Leads(On(copy, Operating, inbox, false, smooth), RunSteps(succeeds, q), key, maxRetries,
                  AfterRun(copy, key, inbox, smooth, succeeds, q, maxRetries))
  {
    if succeeds {
      SucceededRuns(copy, key, inbox, smooth, q, maxRetries);
    } else {
      FailedRuns(copy, key, inbox, smooth, q, maxRetries);
    }
  }

  // ----- the inbox row -----

  /** What the insert step does on the inbox as it then is. */
  function InsertStep(q: Queries): ConsumerAction {
    if !q.insertion.Inserts? && q.secondLookupFails then LookupFails
    else if q.insertion.InsertFails? then ConsumerAction.InsertFails
    else Insert
  }

  function InsertSteps(inbox: map<EventId, InboxStatus>, key: EventId, succeeds: bool,
                       q: Queries): seq<ConsumerAction> {
    if InsertStep(q) == LookupFails then [LookupFails, Requeue]
    else if key in inbox && inbox[key].Processed? then [InsertStep(q)]
    else [InsertStep(q)] + RunSteps(succeeds, q)
  }

  lemma InsertThrows(copy: Copy, key: EventId, inbox: map<EventId, InboxStatus>, maxRetries: nat)
    ensures Leads(On(copy, Stage.Inserting, inbox, false, true), [LookupFails, Requeue], key, maxRetries,
                  Again(copy, inbox, false, false, maxRetries))
  {
    var o, next := On(copy, Stage.Inserting, inbox, false, true), On(copy, Requeueing, inbox, false, false);
    assert Then(o, LookupFails, key, maxRetries) == next;
    Requeues(copy, key, inbox, false, false, maxRetries);
    LeadsFirst(o, LookupFails, next, [Requeue], key, maxRetries, Again(copy, inbox, false, false, maxRetries));
    assert [LookupFails] + [Requeue] == [LookupFails, Requeue];
  }

  lemma InsertFindsDuplicate(copy: Copy, key: EventId, inbox: map<EventId, InboxStatus>, q: Queries, maxRetries: nat)
    requires InsertStep(q) != LookupFails && key in inbox && inbox[key].Processed?
    ensures Leads(On(copy, Stage.Inserting, inbox, false, true), [InsertStep(q)], key, maxRetries,
                  On(copy, Acking, inbox, false, true))
  {
    var o, last := On(copy, Stage.Inserting, inbox, false, true), On(copy, Acking, inbox, false, true);
    assert Then(o, InsertStep(q), key, maxRetries) == last;
    LeadsFirst(o, InsertStep(q), last, [], key, maxRetries, last);
    assert [InsertStep(q)] + [] == [InsertStep(q)];
  }

  lemma InsertGoesOn(copy: Copy, key: EventId, inbox: map<EventId, InboxStatus>, claimed: map<EventId, InboxStatus>,
                     succeeds: bool, q: Queries, maxRetries: nat)
    requires InsertStep(q) != LookupFails && !(key in inbox && inbox[key].Processed?)
    requires q.insertion.Raced? ==> key in inbox
    requires claimed == if InsertStep(q) == Insert && key !in inbox then inbox[key := InboxStatus.Processing] else inbox
    ensures Leads(On(copy, Stage.Inserting, inbox, false, true), [InsertStep(q)] + RunSteps(succeeds, q), key,
                  maxRetries,
                  AfterRun(copy, key, claimed, true, succeeds, q, maxRetries))
  {
    var o, next := On(copy, Stage.Inserting, inbox, false, true), On(copy, Operating, claimed, false, true);
    assert Then(o, InsertStep(q), key, maxRetries) == next;
    Runs(copy, key, claimed, true, succeeds, q, maxRetries);
    LeadsFirst(o, InsertStep(q), next, RunSteps(succeeds, q), key, maxRetries,
               AfterRun(copy, key, claimed, true, succeeds, q, maxRetries));
  }

  /**
   * The steps from the insert on, taken on an inbox in which the other consumer's row, if it won, is there already and
   * else there is none: they end as the code's contract says.
   */
  lemma Inserting(copy: Copy, key: EventId, before: map<EventId, InboxStatus>, inbox: map<EventId, InboxStatus>,
                  succeeds: bool, q: Queries, maxRetries: nat) returns (last: Outcome)
    requires key !in before && !q.lookupFails
    requires inbox == if q.insertion.Raced? then before[key := q.insertion.status] else before
    ensures Leads(On(copy, Stage.Inserting, inbox, false, true), InsertSteps(inbox, key, succeeds, q), key, maxRetries,
                  last)
    ensures last == EndOf(copy, key, before, succeeds, q, maxRetries)
  {
    last := EndOf(copy, key, before, succeeds, q, maxRetries);
    if InsertStep(q) == LookupFails {
      InsertThrows(copy, key, inbox, maxRetries);
    } else if key in inbox && inbox[key].Processed? {
      InsertFindsDuplicate(copy, key, inbox, q, maxRetries);
    } else {
      InsertGoesOn(copy, key, inbox, AfterInsertion(before, key, q), succeeds, q, maxRetries);
    }
  }

  /** Where the steps of a delivery end that finds no inbox row at its first look-up. */
  function EndOf(copy: Copy, key: EventId, inbox: map<EventId, InboxStatus>, succeeds: bool, q: Queries,
                 maxRetries: nat): Outcome {
    var claimed := AfterInsertion(inbox, key, q);
    var found := if q.insertion.Inserts? then inbox else claimed;
    if InsertStep(q) == LookupFails then Again(copy, found, false, false, maxRetries)
    else if key in found && found[key].Processed? then On(copy, Acking, found, false, true)
    else AfterRun(copy, key, claimed, true, succeeds, q, maxRetries)
  }

  lemma EndAgrees(copy: Copy, key: EventId, inbox: map<EventId, InboxStatus>, succeeds: bool, q: Queries,
                  maxRetries: nat)
    requires key !in inbox && !q.lookupFails
    ensures Agrees(copy, key, inbox, succeeds, q, maxRetries, EndOf(copy, key, inbox, succeeds, q, maxRetries))
  {
    var claimed := AfterInsertion(inbox, key, q);
    if InsertStep(q) == LookupFails {
      assert LookupThrows(inbox, key, q);
    } else if key in claimed && claimed[key].Processed? {
      assert q.insertion.Raced?;
    } else {
      RunAgrees(copy, key, inbox, claimed, succeeds, q, maxRetries);
    }
  }

  lemma RunAgrees(copy: Copy, key: EventId, inbox: map<EventId, InboxStatus>, claimed: map<EventId, InboxStatus>,
                  succeeds: bool, q: Queries, maxRetries: nat)
    requires claimed == AfterInsertion(inbox, key, q) && !LookupThrows(inbox, key, q)
    requires !(key in claimed && claimed[key].Processed?)
    ensures Agrees(copy, key, inbox, succeeds, q, maxRetries,
                   AfterRun(copy, key, claimed, true, succeeds, q, maxRetries))
  {
  }

  /** An outcome of the steps is the one the consumer's code promises for these queries. */
  predicate Agrees(copy: Copy, key: EventId, inbox: map<EventId, InboxStatus>, succeeds: bool, q: Queries,
                   maxRetries: nat,
                   last: Outcome) {
    var claimed := AfterInsertion(inbox, key, q);
    var duplicate := !LookupThrows(inbox, key, q) && key in claimed && claimed[key].Processed?;
    var ran := !LookupThrows(inbox, key, q) && !duplicate;
    var done := ran && succeeds && !q.markFails;
    var queued := if duplicate || done then (multiset{}, multiset{})
                  else Requeued(if ran then RanOnce(copy) else copy, maxRetries);
    && last.delivery == Some(Delivery(if ran then RanOnce(copy) else copy, Acking))
    && last.toMain == multiset{} && last.toRetries == queued.0 && last.toDlq == queued.1
    && last.succeeded == (ran && succeeds)
    && last.inbox == (if !ran then claimed
                      else if done then MarkedInbox(claimed, key)
                      else if q.deleteFails then claimed else claimed - {key})
  }

  /** The steps of a delivery up to the insert, and after it. */
  function FirstStep(q: Queries): ConsumerAction { if q.lookupFails then CheckFails else Check }

  function LaterSteps(inbox: map<EventId, InboxStatus>, raced: map<EventId, InboxStatus>, key: EventId, succeeds: bool,
                      q: Queries): seq<ConsumerAction> {
    if q.lookupFails then [Requeue]
    else if key !in inbox then InsertSteps(raced, key, succeeds, q)
    else if inbox[key].Processed? then []
    else RunSteps(succeeds, q)
  }

  /**
   * For every combination of failing queries the consumer's steps end as its code does; between the first and the
   * others another consumer may insert its row.
   */
  lemma StepsAgree(copy: Copy, key: EventId, inbox: map<EventId, InboxStatus>, succeeds: bool, q: Queries,
                   maxRetries: nat)
      returns (middle: Outcome, last: Outcome)
    ensures
      var raced := if !q.lookupFails && key !in inbox
        && q.insertion.Raced? then inbox[key := q.insertion.status] else inbox;
      && Leads(On(copy, Checking, inbox, false, true), [FirstStep(q)], key, maxRetries, middle)
      && Leads(middle.(inbox := raced), LaterSteps(inbox, raced, key, succeeds, q), key, maxRetries, last)
    ensures Agrees(copy, key, inbox, succeeds, q, maxRetries, last)
  {
    var o := On(copy, Checking, inbox, false, true);
    var stage := if q.lookupFails then Requeueing else AfterLookup(inbox, key, Stage.Inserting);
    middle := On(copy, stage, inbox, false, !q.lookupFails);
    assert Then(o, FirstStep(q), key, maxRetries) == middle;
    LeadsFirst(o, FirstStep(q), middle, [], key, maxRetries, middle);
    assert [FirstStep(q)] + [] == [FirstStep(q)];
    if q.lookupFails {
      last := Again(copy, inbox, false, false, maxRetries);
      Requeues(copy, key, inbox, false, false, maxRetries);
    } else if key !in inbox {
      var raced := if q.insertion.Raced? then inbox[key := q.insertion.status] else inbox;
      last := Inserting(copy, key, inbox, raced, succeeds, q, maxRetries);
      EndAgrees(copy, key, inbox, succeeds, q, maxRetries);
    } else if inbox[key].Processed? {
      last := middle;
    } else {
      last := AfterRun(copy, key, inbox, true, succeeds, q, maxRetries);
      Runs(copy, key, inbox, true, succeeds, q, maxRetries);
      RunAgrees(copy, key, inbox, inbox, succeeds, q, maxRetries);
    }
  }
}
