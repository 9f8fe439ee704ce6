/**
 * The consumer as an object: one delivery handled from its inbox look-up to its acknowledgement, with the inbox
 * queries that may fail and the insert that another consumer may win.
 */
module Consumers {
  import opened Prelude
  import opened Messages
  import opened Reliability
  import opened Deliveries

  datatype Processing = Done | Duplicate | Threw

  /** What becomes of an insert: it succeeds, a row of another consumer is there first, or the query fails. */
  datatype Insertion = Inserts | Raced(status: InboxStatus) | InsertFails

  datatype Queries = Queries(
    lookupFails: bool, insertion: Insertion, secondLookupFails: bool, markFails: bool, deleteFails: bool)

  /** No query fails and nobody else is at work. */
  const UNDISTURBED := Queries(false, Inserts, false, false, false)

  /** The inbox once the insert, if one is tried, has been decided. */
  function AfterInsertion(inbox: map<EventId, InboxStatus>, key: EventId, q: Queries): map<EventId, InboxStatus> {
    if q.lookupFails || key in inbox then inbox
    else
      match q.insertion
      case Inserts => inbox[key := InboxStatus.Processing]
      case Raced(status) => inbox[key := status]
      case InsertFails => inbox
  }

  /** A look-up throws: the first, or the second after an insert that did not succeed. */
  predicate LookupThrows(inbox: map<EventId, InboxStatus>, key: EventId, q: Queries) {
    q.lookupFails || (key !in inbox && !q.insertion.Inserts? && q.secondLookupFails)
  }

  class Consumer {
    const maxRetries: nat
    var inbox: map<EventId, InboxStatus>
    var retryQueue: seq<Copy>
    var dlq: seq<Copy>

    constructor (maxRetries: nat)
      ensures this.maxRetries == maxRetries && inbox == map[] && retryQueue == [] && dlq == []
    {
      this.maxRetries := maxRetries;
      inbox, retryQueue, dlq := map[], [], [];
    }

    /**
     * Runs the operation unless a look-up throws or finds the event processed. A failed event stays eligible for
     * retry; `ran` tells whether the operation was run.
     */
    method Process(key: EventId, succeeds: bool, q: Queries) returns (r: Processing, ran: bool)
      modifies this`inbox
      ensures var claimed := AfterInsertion(old(inbox), key, q);
              && (r.Duplicate? <==> !LookupThrows(old(inbox), key, q) && key in claimed && claimed[key].Processed?)
              && (ran <==> !LookupThrows(old(inbox), key, q) && !r.Duplicate?)
              && (r.Done? <==> ran && succeeds && !q.markFails)
              && (!ran ==> inbox == claimed)
              && (r.Done? ==> inbox == if key in claimed then claimed[key := Processed] else claimed)
              && (ran && r.Threw? ==> inbox == if q.deleteFails then claimed else claimed - {key})
    {
      ran := false;
      if q.lookupFails { return Threw, ran; }
      if key in inbox && inbox[key].Processed? { return Duplicate, ran; }
      if key !in inbox {
        if q.insertion.Inserts? {
          inbox := inbox[key := InboxStatus.Processing];
        } else {
          if q.insertion.Raced? {
            inbox := inbox[key := q.insertion.status];
          }
          if q.secondLookupFails { return Threw, ran; }
          if key in inbox && inbox[key].Processed? { return Duplicate, ran; }
        }
      }
      ran := true;
      if succeeds && !q.markFails {
        if key in inbox {
          inbox := inbox[key := Processed];
        }
        return Done, ran;
      }
      if !q.deleteFails {
        inbox := inbox - {key};
      }
      r := Threw;
    }

    /**
     * Handles a delivery to its acknowledgement. Whenever processing throws, exactly one copy is queued again; when
     * nothing disturbs it, the delivery has the effect of the consumer's steps one after the other.
     */
    method Handle(copy: Copy, key: EventId, succeeds: bool, q: Queries) returns (r: Processing, ran: bool)
      modifies this
      ensures var queued := if r.Threw? then Requeued(if ran then RanOnce(copy) else copy, maxRetries)
                            else (multiset{}, multiset{});
              && multiset(retryQueue) == multiset(old(retryQueue)) + queued.0
              && multiset(dlq) == multiset(old(dlq)) + queued.1
              && (q == UNDISTURBED ==>
                    DeliveryEffect(copy, key, succeeds, maxRetries, old(inbox), inbox, queued.0, queued.1))
    {
      r, ran := Process(key, succeeds, q);
      if r.Threw? {
        var again := if ran then RanOnce(copy) else copy;
        if again.retry < maxRetries {
          retryQueue := retryQueue + [again.(retry := again.retry + 1)];
        } else {
          dlq := dlq + [again];
        }
      }
    }
  }
}
