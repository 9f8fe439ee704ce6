/** The outbox worker: what one flush publishes, and when a failed event is tried again. */
module Outbox {
  type RowId = nat

  datatype OutboxEvent = OutboxEvent(id: RowId, published: bool, attempts: nat, availableAt: int)

  function Power2(n: nat): nat { if n == 0 then 1 else 2 * Power2(n - 1) }

  /** Milliseconds before a failed event is tried again. */
  function BackoffMs(attempts: nat): int {
    var delay := 500 * Power2(if attempts < 6 then attempts else 6);
    if delay < 30_000 then delay else 30_000
  }

  lemma {:induction false} PowerGrows(m: nat, n: nat)
    requires m <= n
    ensures 1 <= Power2(m) <= Power2(n)
    decreases n
  {
    if m < n {
      PowerGrows(m, n - 1);
    } else if n > 0 {
      PowerGrows(n - 1, n - 1);
    }
  }

  /** The delay grows with the attempts, from one second after the first to at most thirty. */
  lemma BackoffBounds(m: nat, n: nat)
    requires 1 <= m <= n
    ensures 1000 <= BackoffMs(m) <= BackoffMs(n) <= 30_000
  {
    PowerGrows(1, if m < 6 then m else 6);
    PowerGrows(if m < 6 then m else 6, if n < 6 then n else 6);
  }

  /** One second after the first attempt, and doubled after each further one up to half a minute. */
  lemma BackoffDoubles(attempts: nat)
    requires attempts >= 1
    ensures BackoffMs(1) == 1000
    ensures BackoffMs(attempts + 1) == if 2 * BackoffMs(attempts) < 30_000 then 2 * BackoffMs(attempts) else 30_000
  {
    assert Power2(6) == 64 && Power2(1) == 2;
    if attempts < 6 {
      assert Power2(attempts + 1) == 2 * Power2(attempts);
    }
  }

  predicate Due(e: OutboxEvent, now: int) { !e.published && e.availableAt <= now }

  /** The event after one attempt to publish it. */
  function Attempted(e: OutboxEvent, accepted: bool, now: int): OutboxEvent {
    if accepted then e.(published := true, attempts := e.attempts + 1)
    else e.(attempts := e.attempts + 1, availableAt := now + BackoffMs(e.attempts + 1))
  }

  /** The positions of the first `take` due events. */
  function Batch(events: seq<OutboxEvent>, now: int, take: nat): (r: seq<nat>)
    ensures forall i :: 0 <= i < |r| ==> r[i] < |events|
  {
    if events == [] then []
    else
      var rest := Batch(events[..|events| - 1], now, take);
      if |rest| < take && Due(events[|events| - 1], now) then rest + [|events| - 1] else rest
  }

  /** The batch holds due events, oldest first, and leaves out a due event only when it is full of older ones. */
  lemma {:induction false} BatchIsOldest(events: seq<OutboxEvent>, now: int, take: nat)
    ensures var r := Batch(events, now, take);
            && |r| <= take
            && (forall i :: 0 <= i < |r| ==> !events[r[i]].published && events[r[i]].availableAt <= now)
            && (forall i, j :: 0 <= i < j < |r| ==> r[i] < r[j])
            && (forall k :: 0 <= k < |events| && !events[k].published && events[k].availableAt <= now && k !in r ==>
                  |r| == take && forall i :: 0 <= i < |r| ==> r[i] < k)
  {
    if events != [] {
      BatchIsOldest(events[..|events| - 1], now, take);
    }
  }

  /** The outbox table, oldest row first, and what has been sent to the broker. */
  class OutboxWorker {
    var events: seq<OutboxEvent>
    var sent: seq<RowId>
    var running: bool
    const batchSize: nat

    constructor (batchSize: nat)
      ensures events == [] && sent == [] && !running && this.batchSize == batchSize
    {
      this.batchSize := batchSize;
      events, sent, running := [], [], false;
    }

    /** One event: published and marked, or put off when the broker does not take it. */
    method Attempt(k: nat, accepted: set<RowId>, now: int)
      requires k < |events|
      modifies this`events, this`sent
      ensures var event := old(events)[k];
              && events == old(events)[k := Attempted(event, event.id in accepted, now)]
              && sent == old(sent) + if event.id in accepted then [event.id] else []
    {
      var event := events[k];
      if event.id in accepted {
        sent := sent + [event.id];
        events := events[k := event.(published := true, attempts := event.attempts + 1)];
      } else {
        var attempts := event.attempts + 1;
        events := events[k := event.(attempts := attempts, availableAt := now + BackoffMs(attempts))];
      }
    }

    /**
     * Publishes the due events of one batch; the broker takes the ids in `accepted`. Each event of
     * the batch is attempted once, in order; the others are untouched.
     */
    method Flush(now: int, accepted: set<RowId>)
      modifies this
      ensures running == old(running)
      ensures old(running) ==> events == old(events) && sent == old(sent)
      ensures |events| == |old(events)|
      ensures !old(running) ==>
        var batch := Batch(old(events), now, batchSize);
        && events == AttemptedAll(old(events), batch, |batch|, accepted, now)
        && sent == old(sent) + SentOf(old(events), batch, |batch|, accepted)
    {
      if running { return; }
      running := true;
      var batch := Batch(events, now, batchSize);
      ghost var before, sentBefore := events, sent;
      for n := 0 to |batch|
        invariant running && |events| == |before|
        invariant events == AttemptedAll(before, batch, n, accepted, now)
        invariant sent == sentBefore + SentOf(before, batch, n, accepted)
      {
        SameIds(before, batch, n, accepted, now, batch[n]);
        Attempt(batch[n], accepted, now);
      }
      running := false;
    }
  }

  predicate DistinctPositions(batch: seq<nat>, size: nat) {
    && (forall i :: 0 <= i < |batch| ==> batch[i] < size)
    && forall i, j :: 0 <= i < j < |batch| ==> batch[i] != batch[j]
  }

  /** The events after the first n positions of the batch have been attempted one after the other. */
  function AttemptedAll(events: seq<OutboxEvent>, batch: seq<nat>, n: nat, accepted: set<RowId>,
                        now: int): (r: seq<OutboxEvent>)
    requires n <= |batch| && forall i :: 0 <= i < |batch| ==> batch[i] < |events|
    ensures |r| == |events|
  {
    if n == 0 then events
    else
      var rest := AttemptedAll(events, batch, n - 1, accepted, now);
      var event := rest[batch[n - 1]];
      rest[batch[n - 1] := Attempted(event, event.id in accepted, now)]
  }

  lemma {:induction false} SameIds(events: seq<OutboxEvent>, batch: seq<nat>, n: nat, accepted: set<RowId>, now: int,
                                   k: nat)
    requires n <= |batch| && forall i :: 0 <= i < |batch| ==> batch[i] < |events|
    requires k < |events|
    ensures AttemptedAll(events, batch, n, accepted, now)[k].id == events[k].id
  {
    if n > 0 {
      SameIds(events, batch, n - 1, accepted, now, k);
    }
  }

  /** Each event of the batch is attempted exactly once, from the state it was found in; the others are untouched. */
  lemma {:induction false} AttemptedOnce(events: seq<OutboxEvent>, batch: seq<nat>, n: nat, accepted: set<RowId>,
                                         now: int)
    requires n <= |batch| && DistinctPositions(batch, |events|)
    ensures var after := AttemptedAll(events, batch, n, accepted, now);
            && (forall i :: 0 <= i < n ==>
                  after[batch[i]] == Attempted(events[batch[i]], events[batch[i]].id in accepted, now))
            && (forall k :: 0 <= k < |events| && k !in batch[..n] ==> after[k] == events[k])
  {
    if n > 0 {
      AttemptedOnce(events, batch, n - 1, accepted, now);
      assert batch[..n] == batch[..n - 1] + [batch[n - 1]];
    }
  }

  /** The ids the broker accepted among the first n events of the batch, in order. */
  function SentOf(events: seq<OutboxEvent>, batch: seq<nat>, n: nat, accepted: set<RowId>): seq<RowId>
    requires n <= |batch|
    requires forall i :: 0 <= i < |batch| ==> batch[i] < |events|
  {
    if n == 0 then []
    else
      var id := events[batch[n - 1]].id;
      SentOf(events, batch, n - 1, accepted) + if id in accepted then [id] else []
  }

  /** An event leaves the pending state only by being sent. */
  lemma {:induction false} PublishedWasSent(events: seq<OutboxEvent>, batch: seq<nat>, n: nat, accepted: set<RowId>,
                                            now: int, k: nat)
    requires n <= |batch| && forall i :: 0 <= i < |batch| ==> batch[i] < |events|
    requires k < |events| && !events[k].published && AttemptedAll(events, batch, n, accepted, now)[k].published
    ensures events[k].id in SentOf(events, batch, n, accepted)
  {
    if AttemptedAll(events, batch, n - 1, accepted, now)[k].published {
      PublishedWasSent(events, batch, n - 1, accepted, now, k);
    } else {
      SameIds(events, batch, n - 1, accepted, now, k);
    }
  }

  /** The places of the batch, up to the n-th, at which an accepted event stands. */
  function AcceptedAt(events: seq<OutboxEvent>, batch: seq<nat>, n: nat, accepted: set<RowId>): seq<nat>
    requires n <= |batch| && forall i :: 0 <= i < |batch| ==> batch[i] < |events|
  {
    if n == 0 then []
    else AcceptedAt(events, batch, n - 1, accepted) + if events[batch[n - 1]].id in accepted then [n - 1] else []
  }

  lemma {:induction false} AcceptedAtExactly(events: seq<OutboxEvent>, batch: seq<nat>, n: nat, accepted: set<RowId>,
                                             j: nat)
    requires n <= |batch| && forall i :: 0 <= i < |batch| ==> batch[i] < |events|
    ensures j in AcceptedAt(events, batch, n, accepted) <==> j < n && events[batch[j]].id in accepted
  {
    if n > 0 {
      AcceptedAtExactly(events, batch, n - 1, accepted, j);
    }
  }

  /** The ids sent are those of the accepted events of the batch, each once and in the order of the batch. */
  lemma {:induction false} SentInOrder(events: seq<OutboxEvent>, batch: seq<nat>, n: nat, accepted: set<RowId>)
    requires n <= |batch| && forall i :: 0 <= i < |batch| ==> batch[i] < |events|
    ensures
      var at, ids := AcceptedAt(events, batch, n, accepted), SentOf(events, batch, n, accepted);
      && |ids| == |at|
      && (forall i :: 0 <= i < |at| ==> at[i] < n)
      && (forall i :: 0 <= i < |at| ==> ids[i] == events[batch[at[i]]].id)
      && (forall i, j :: 0 <= i < j < |at| ==> at[i] < at[j])
  {
    if n > 0 {
      SentInOrder(events, batch, n - 1, accepted);
    }
  }

  /**
   * What one flush does to the event at position k. An event of the batch has one more attempt: accepted, it is
   * published; not accepted, it stays pending and is due again after the delay for its attempts, which is between one
   * and thirty seconds. Any other event is kept as it is.
   */
  lemma FlushedEvent(events: seq<OutboxEvent>, now: int, take: nat, accepted: set<RowId>, k: nat)
    requires k < |events|
    ensures
      var batch := Batch(events, now, take);
      var event := AttemptedAll(events, batch, |batch|, accepted, now)[k];
      && event.id == events[k].id
      && (k !in batch ==> event == events[k])
      && (k in batch ==> event.attempts == events[k].attempts + 1)
      && (k in batch && event.id in accepted ==> event.published && event.availableAt == events[k].availableAt)
      && (k in batch && event.id !in accepted ==>
            && !event.published && event.availableAt == now + BackoffMs(event.attempts)
            && now + 1000 <= event.availableAt <= now + 30_000)
  {
    var batch := Batch(events, now, take);
    BatchIsOldest(events, now, take);
    AttemptedOnce(events, batch, |batch|, accepted, now);
    assert batch[..|batch|] == batch;
    BackoffBounds(events[k].attempts + 1, events[k].attempts + 1);
  }

  /** An accepted event of the batch is never in a batch again, so no later flush sends it. */
  lemma AcceptedIsDone(events: seq<OutboxEvent>, now: int, take: nat, accepted: set<RowId>, k: nat, later: int,
                       next: nat)
    requires k in Batch(events, now, take) && k < |events| && events[k].id in accepted
    ensures
      var batch := Batch(events, now, take);
      k !in Batch(AttemptedAll(events, batch, |batch|, accepted, now), later, next)
  {
    var batch := Batch(events, now, take);
    var after := AttemptedAll(events, batch, |batch|, accepted, now);
    FlushedEvent(events, now, take, accepted, k);
    BatchIsOldest(after, later, next);
  }
}
