/**
 * The circuit breaker for outbound calls. An `execute` call is split at its only
 * suspension point: `Begin` runs up to the protected operation and `Complete`
 * from its settlement on, so overlapping calls are interleavings of the two.
 */
module CircuitBreaking {
  import opened Prelude

  datatype BreakerState = Closed | Open | HalfOpen
  /** How the protected operation settled, and whether a failure counts. */
  datatype Outcome = Succeeded | CountedFailure | IgnoredFailure
  datatype Config = Config(failureThreshold: int, resetTimeoutMs: int, halfOpenMaxCalls: int)
  datatype Breaker = Breaker(state: BreakerState, consecutiveFailures: int, openedAtMs: int, halfOpenInFlight: int)

  const INITIAL := Breaker(Closed, 0, 0, 0)

  predicate ValidConfig(c: Config) { c.failureThreshold >= 1 && c.resetTimeoutMs >= 1 }

  // ----- the transitions on values -----

  function Transition(b: Breaker, next: BreakerState): Breaker {
    if next == b.state then b
    else b.(state := next, halfOpenInFlight := if next != HalfOpen then 0 else b.halfOpenInFlight)
  }

  function Trip(b: Breaker, now: int): Breaker {
    Transition(b.(consecutiveFailures := 0, openedAtMs := now), Open)
  }

  /** A counted failure trips the breaker in HALF_OPEN, and otherwise when it is the threshold-th. */
  predicate Trips(c: Config, b: Breaker) {
    b.state.HalfOpen? || b.consecutiveFailures + 1 >= c.failureThreshold
  }

  function MovedToHalfOpen(c: Config, b: Breaker, now: int): Breaker {
    if b.state.Open? && now - b.openedAtMs >= c.resetTimeoutMs then Transition(b, HalfOpen) else b
  }

  predicate Admits(c: Config, b: Breaker) {
    b.state.Closed? || (b.state.HalfOpen? && b.halfOpenInFlight < c.halfOpenMaxCalls)
  }

  function Begun(c: Config, b: Breaker, now: int): Breaker {
    var ready := MovedToHalfOpen(c, b, now);
    if ready.state.HalfOpen? && Admits(c, ready) then ready.(halfOpenInFlight := ready.halfOpenInFlight + 1) else ready
  }

  /** What the settlement of a call does before `finally` runs. */
  function Decided(c: Config, b: Breaker, outcome: Outcome, now: int): Breaker {
    if outcome != CountedFailure then Transition(b.(consecutiveFailures := 0), Closed)
    else if Trips(c, b) then Trip(b, now)
    else b.(consecutiveFailures := b.consecutiveFailures + 1)
  }

  /** What `finally` does: give back a half-open permit, if there is one. */
  function Finalized(b: Breaker): Breaker {
    if b.state.HalfOpen? && b.halfOpenInFlight > 0 then b.(halfOpenInFlight := b.halfOpenInFlight - 1) else b
  }

  function Settled(c: Config, b: Breaker, outcome: Outcome, now: int): Breaker {
    Finalized(Decided(c, b, outcome, now))
  }

  // ----- the breaker object -----

  class CircuitBreaker {
    const config: Config
    var state: BreakerState
    var consecutiveFailures: int
    var openedAtMs: int
    var halfOpenInFlight: int

    ghost function View(): Breaker
      reads this
    {
      Breaker(state, consecutiveFailures, openedAtMs, halfOpenInFlight)
    }

    constructor (config: Config)
      requires ValidConfig(config)
      ensures this.config == config && View() == INITIAL
    {
      this.config := config;
      state, consecutiveFailures, openedAtMs, halfOpenInFlight := Closed, 0, 0, 0;
    }

    static method Create(config: Config) returns (r: Result<CircuitBreaker, string>)
      ensures r.Success? <==> config.failureThreshold >= 1 && config.resetTimeoutMs >= 1
      ensures r.Success? ==> fresh(r.value) && r.value.config == config && r.value.View() == INITIAL
    {
      if config.failureThreshold < 1 { return Failure("failureThreshold must be >= 1"); }
      if config.resetTimeoutMs < 1 { return Failure("resetTimeoutMs must be >= 1"); }
      var breaker := new CircuitBreaker(config);
      r := Success(breaker);
    }

    /** Up to the protected operation; refuses the call when it is not admitted. */
    method Begin(now: int) returns (admitted: bool)
      modifies this
      ensures View() == Begun(config, old(View()), now)
      ensures admitted <==> Admits(config, MovedToHalfOpen(config, old(View()), now))
    {
      MoveToHalfOpenWhenReady(now);
      if state.Open? { return false; }
      if state.HalfOpen? {
        if halfOpenInFlight >= config.halfOpenMaxCalls { return false; }
        halfOpenInFlight := halfOpenInFlight + 1;
      }
      admitted := true;
    }

    /** From the settlement of the operation to the end of `execute`, its `finally` included. */
    method Complete(outcome: Outcome, now: int)
      modifies this
      ensures View() == Settled(config, old(View()), outcome, now)
    {
      if outcome == CountedFailure {
        OnFailure(now);
      } else {
        OnSuccess();
      }
      GiveBackPermit();
    }

    method GiveBackPermit()
      modifies this
      ensures View() == Finalized(old(View()))
    {
      if state.HalfOpen? && halfOpenInFlight > 0 { halfOpenInFlight := halfOpenInFlight - 1; }
    }

    method MoveToHalfOpenWhenReady(now: int)
      modifies this
      ensures View() == MovedToHalfOpen(config, old(View()), now)
    {
      if !state.Open? { return; }
      if now - openedAtMs < config.resetTimeoutMs { return; }
      MoveTo(HalfOpen);
    }

    method OnSuccess()
      modifies this
      ensures View() == Decided(config, old(View()), Succeeded, 0)
    {
      consecutiveFailures := 0;
      if !state.Closed? { MoveTo(Closed); }
    }

    method OnFailure(now: int)
      modifies this
      ensures View() == Decided(config, old(View()), CountedFailure, now)
    {
      if state.HalfOpen? {
        OpenNow(now);
        return;
      }
      consecutiveFailures := consecutiveFailures + 1;
      if consecutiveFailures >= config.failureThreshold { OpenNow(now); }
    }

    method OpenNow(now: int)
      modifies this
      ensures View() == Trip(old(View()), now)
    {
      consecutiveFailures := 0;
      openedAtMs := now;
      MoveTo(Open);
    }

    method MoveTo(next: BreakerState)
      modifies this
      ensures View() == Transition(old(View()), next)
    {
      if next == state { return; }
      state := next;
      if next != HalfOpen { halfOpenInFlight := 0; }
    }
  }

  // ----- runs of overlapping calls -----

  type CallId = nat

  datatype Event = Start(call: CallId, now: int) | Finish(call: CallId, outcome: Outcome, now: int)

  /** What a settlement did to the count of failures. */
  datatype Mark = Cleared | Counted | Tripped

  /**
   * The breaker with its history: the calls ever admitted, those still running, the probes admitted
   * since HALF_OPEN was last entered (never taken out again), and a mark for each settlement.
   */
  datatype System = System(breaker: Breaker, admitted: set<CallId>, running: set<CallId>, probes: set<CallId>,
                           log: seq<Mark>)

  const FRESH := System(INITIAL, {}, {}, {}, [])

  predicate Enabled(s: System, e: Event) {
    match e
    case Start(call, _) => call !in s.admitted
    case Finish(call, _, _) => call in s.running
  }

  function Step(c: Config, s: System, e: Event): System {
    match e
    case Start(call, now) =>
      var ready := MovedToHalfOpen(c, s.breaker, now);
      var probes := if ready.state != s.breaker.state then {} else s.probes;
      if !Admits(c, ready) then s.(breaker := Begun(c, s.breaker, now), probes := probes)
      else System(
        Begun(c, s.breaker, now),
        s.admitted + {call},
        s.running + {call},
        if ready.state.HalfOpen? then probes + {call} else probes,
        s.log)
    case Finish(call, outcome, now) =>
      var mark := if outcome != CountedFailure then Cleared else if Trips(c, s.breaker) then Tripped else Counted;
      s.(breaker := Settled(c, s.breaker, outcome, now), running := s.running - {call}, log := s.log + [mark])
  }

  /** The events happen one after the other, each enabled when it happens. */
  predicate Legal(c: Config, s: System, events: seq<Event>)
    decreases |events|
  {
    events == [] || (Enabled(s, events[0]) && Legal(c, Step(c, s, events[0]), events[1..]))
  }

  function Run(c: Config, s: System, events: seq<Event>): System
    decreases |events|
  {
    if events == [] then s else Run(c, Step(c, s, events[0]), events[1..])
  }

  /** Counted failures since the last success, ignored failure or opening. */
  function Streak(log: seq<Mark>): nat {
    if log == [] || log[|log| - 1] != Counted then 0 else Streak(log[..|log| - 1]) + 1
  }

  ghost predicate Inv(c: Config, s: System) {
    && s.running <= s.admitted && s.probes <= s.admitted
    && (!s.breaker.state.HalfOpen? ==> s.breaker.halfOpenInFlight == 0)
    && (s.breaker.state.HalfOpen? ==>
          s.probes <= s.running && s.probes != {} && s.breaker.halfOpenInFlight == |s.probes| <= c.halfOpenMaxCalls)
    && s.breaker.consecutiveFailures == Streak(s.log) < c.failureThreshold
  }

  /** A settlement always leaves HALF_OPEN, so `finally` never has a permit to give back. */
  lemma FinallyNeverFires(c: Config, b: Breaker, outcome: Outcome, now: int)
    ensures !Settled(c, b, outcome, now).state.HalfOpen?
    ensures Settled(c, b, outcome, now) == Decided(c, b, outcome, now)
  {
  }

  lemma StreakStep(log: seq<Mark>, m: Mark)
    ensures Streak(log + [m]) == if m == Counted then Streak(log) + 1 else 0
  {
    assert (log + [m])[..|log|] == log;
  }

  lemma StartKeepsInv(c: Config, s: System, call: CallId, now: int)
    requires ValidConfig(c) && c.halfOpenMaxCalls >= 1 && Inv(c, s) && call !in s.admitted
    ensures Inv(c, Step(c, s, Start(call, now)))
  {
    var ready := MovedToHalfOpen(c, s.breaker, now);
    if Admits(c, ready) && ready.state.HalfOpen? {
      var probes := if ready.state != s.breaker.state then {} else s.probes;
      assert |probes + {call}| == |probes| + 1;
    }
  }

  lemma FinishKeepsInv(c: Config, s: System, call: CallId, outcome: Outcome, now: int)
    requires ValidConfig(c) && Inv(c, s) && call in s.running
    ensures Inv(c, Step(c, s, Finish(call, outcome, now)))
  {
    StreakStep(s.log, if outcome != CountedFailure then Cleared else if Trips(c, s.breaker) then Tripped else Counted);
  }

  lemma StepKeepsInv(c: Config, s: System, e: Event)
    requires ValidConfig(c) && c.halfOpenMaxCalls >= 1 && Inv(c, s) && Enabled(s, e)
    ensures Inv(c, Step(c, s, e))
  {
    match e
    case Start(call, now) => StartKeepsInv(c, s, call, now);
    case Finish(call, outcome, now) => FinishKeepsInv(c, s, call, outcome, now);
  }

  /**
   * In every interleaving: a half-open breaker counts exactly the probes admitted since it became
   * half-open, within the limit, and all of them still run; the failure count is the streak of counted
   * failures and stays below the threshold.
   */
  lemma {:induction false} InvHolds(c: Config, s: System, events: seq<Event>)
    requires ValidConfig(c) && c.halfOpenMaxCalls >= 1 && Inv(c, s) && Legal(c, s, events)
    ensures Inv(c, Run(c, s, events))
    decreases |events|
  {
    if events != [] {
      StepKeepsInv(c, s, events[0]);
      InvHolds(c, Step(c, s, events[0]), events[1..]);
    }
  }

  lemma FreshInv(c: Config)
    requires ValidConfig(c)
    ensures Inv(c, FRESH)
  {
  }

  /**
   * How a completion decides a half-open breaker: a counted failure opens it again from that moment, anything else
   * closes it; the failures are forgotten and all permits returned.
   */
  predicate Decides(b: Breaker, outcome: Outcome, now: int, after: Breaker) {
    match outcome
    case CountedFailure => after == Breaker(Open, 0, now, 0)
    case Succeeded => after == Breaker(Closed, 0, b.openedAtMs, 0)
    case IgnoredFailure => after == Breaker(Closed, 0, b.openedAtMs, 0)
  }

  /** Whatever call completes first while the breaker is half-open decides it. */
  lemma FirstCompletionDecides(c: Config, events: seq<Event>, call: CallId, outcome: Outcome, now: int)
    requires ValidConfig(c) && c.halfOpenMaxCalls >= 1 && Legal(c, FRESH, events)
    requires Run(c, FRESH, events).breaker.state.HalfOpen? && call in Run(c, FRESH, events).running
    ensures Decides(Run(c, FRESH, events).breaker, outcome, now,
                    Step(c, Run(c, FRESH, events), Finish(call, outcome, now)).breaker)
  {
  }

  /** In every state a success or an ignored failure closes the breaker and forgets the failures counted so far. */
  lemma SuccessCloses(c: Config, events: seq<Event>, call: CallId, outcome: Outcome, now: int)
    requires ValidConfig(c) && c.halfOpenMaxCalls >= 1 && Legal(c, FRESH, events)
    requires call in Run(c, FRESH, events).running && outcome != CountedFailure
    ensures
      var b := Run(c, FRESH, events).breaker;
      Step(c, Run(c, FRESH, events), Finish(call, outcome, now)).breaker == Breaker(Closed, 0, b.openedAtMs, 0)
  {
    FreshInv(c);
    InvHolds(c, FRESH, events);
  }

  /**
   * When a call is admitted, and what that does: always by a closed breaker, which stays as it is; by an open one
   * exactly after its reset time, as the first probe; by a half-open one exactly while fewer probes run than allowed.
   */
  lemma AdmittedExactly(c: Config, events: seq<Event>, call: CallId, now: int)
    requires ValidConfig(c) && c.halfOpenMaxCalls >= 1 && Legal(c, FRESH, events)
    requires call !in Run(c, FRESH, events).admitted
    ensures
      var s := Run(c, FRESH, events);
      var next := Step(c, s, Start(call, now));
      match s.breaker.state
      case Closed => call in next.running && next.breaker == s.breaker
      case Open =>
        if now - s.breaker.openedAtMs < c.resetTimeoutMs then next == s
        else
          && call in next.running && next.probes == {call}
          && next.breaker == s.breaker.(state := HalfOpen, halfOpenInFlight := 1)
      case HalfOpen =>
        if |s.probes| >= c.halfOpenMaxCalls then next == s
        else
          && call in next.running && next.probes == s.probes + {call}
          && next.breaker == s.breaker.(halfOpenInFlight := |s.probes| + 1)
  {
    FreshInv(c);
    InvHolds(c, FRESH, events);
  }

  /** A call refused while half-open: some probe is running, and its settlement decides the breaker. */
  lemma RefusalHasLiveProbe(c: Config, events: seq<Event>, call: CallId, now: int)
    requires ValidConfig(c) && c.halfOpenMaxCalls >= 1 && Legal(c, FRESH, events)
    requires
      var ready := MovedToHalfOpen(c, Run(c, FRESH, events).breaker, now);
      ready.state.HalfOpen? && !Admits(c, ready)
    ensures
      var s := Run(c, FRESH, events);
      exists probe :: probe in s.probes && probe in s.running
        && forall outcome, t :: Decides(s.breaker, outcome, t, Step(c, s, Finish(probe, outcome, t)).breaker)
  {
    var s := Run(c, FRESH, events);
    FreshInv(c);
    InvHolds(c, FRESH, events);
    assert s.breaker.state.HalfOpen?;
    var probe :| probe in s.probes;
    forall outcome, t
      ensures Decides(s.breaker, outcome, t, Step(c, s, Finish(probe, outcome, t)).breaker)
    {
      FinallyNeverFires(c, s.breaker, outcome, t);
    }
  }

  /** Without a permit to give, an idle half-open breaker refuses every call for ever. */
  lemma {:induction false} NoPermitStaysShut(c: Config, s: System, events: seq<Event>)
    requires c.halfOpenMaxCalls < 1 && s.breaker.state.HalfOpen? && s.breaker.halfOpenInFlight == 0 && s.running == {}
    requires Legal(c, s, events)
    ensures Run(c, s, events).breaker.state.HalfOpen? && Run(c, s, events).admitted == s.admitted
    decreases |events|
  {
    if events != [] {
      NoPermitStaysShut(c, Step(c, s, events[0]), events[1..]);
    }
  }

  /**
   * So a breaker that is ready to try again can get past HALF_OPEN exactly when the limit is at least 1:
   * with nothing running, the next call is admitted if and only if it is.
   */
  lemma RetryNeedsPermit(c: Config, s: System, call: CallId, now: int)
    requires s.breaker.state.Open? && s.breaker.halfOpenInFlight == 0 && now - s.breaker.openedAtMs >= c.resetTimeoutMs
    ensures call in Step(c, s, Start(call, now)).running - s.running ==> c.halfOpenMaxCalls >= 1
    ensures c.halfOpenMaxCalls >= 1 ==> call in Step(c, s, Start(call, now)).running
    ensures Step(c, s, Start(call, now)).breaker.state.HalfOpen?
  {
  }

  // ----- opening and staying open -----

  /** A counted failure opens the breaker exactly when it is the threshold-th of its streak, or a probe's. */
  lemma TripsAtThreshold(c: Config, events: seq<Event>, call: CallId, now: int)
    requires ValidConfig(c) && c.halfOpenMaxCalls >= 1 && Legal(c, FRESH, events)
    requires call in Run(c, FRESH, events).running && !Run(c, FRESH, events).breaker.state.HalfOpen?
    ensures
      var s := Run(c, FRESH, events);
      var after := Step(c, s, Finish(call, CountedFailure, now)).breaker;
      && (Streak(s.log) + 1 == c.failureThreshold ==>
            after.state.Open? && after.openedAtMs == now && after.consecutiveFailures == 0)
      && (Streak(s.log) + 1 != c.failureThreshold ==>
            after.state == s.breaker.state && after.consecutiveFailures == Streak(s.log) + 1)
  {
    FreshInv(c);
    InvHolds(c, FRESH, events);
  }

  function Failures(calls: seq<CallId>, times: seq<int>): seq<Event>
    requires |times| == 2 * |calls|
  {
    if calls == [] then []
    else [Start(calls[0], times[0]), Finish(calls[0], CountedFailure, times[1])] + Failures(calls[1..], times[2..])
  }

  lemma RunPair(c: Config, s: System, e: Event, f: Event, rest: seq<Event>)
    ensures Run(c, s, [e, f] + rest) == Run(c, Step(c, Step(c, s, e), f), rest)
  {
    var events := [e, f] + rest;
    assert events[1..][1..] == rest;
  }

  /** One call after the other, each failing: the breaker opens at exactly the threshold-th failure. */
  lemma {:induction false} SequentialFailures(c: Config, s: System, calls: seq<CallId>, times: seq<int>)
    requires ValidConfig(c) && |times| == 2 * |calls| && s.breaker.state.Closed?
    requires 0 <= s.breaker.consecutiveFailures && s.breaker.consecutiveFailures + |calls| <= c.failureThreshold
    requires s.breaker.consecutiveFailures < c.failureThreshold
    ensures
      var b := Run(c, s, Failures(calls, times)).breaker;
      if s.breaker.consecutiveFailures + |calls| == c.failureThreshold
      then b.state.Open? && b.openedAtMs == times[|times| - 1]
      else b.state.Closed? && b.consecutiveFailures == s.breaker.consecutiveFailures + |calls|
    decreases |calls|
  {
    if calls != [] {
      var e, f := Start(calls[0], times[0]), Finish(calls[0], CountedFailure, times[1]);
      var next := Step(c, Step(c, s, e), f);
      RunPair(c, s, e, f, Failures(calls[1..], times[2..]));
      if |calls| == 1 {
        assert Failures(calls[1..], times[2..]) == [];
      } else {
        SequentialFailures(c, next, calls[1..], times[2..]);
      }
    }
  }

  predicate WithinWindow(events: seq<Event>, from: int, to: int) {
    forall k :: 0 <= k < |events| ==> from <= events[k].now < to
  }

  predicate NoReprieve(events: seq<Event>) {
    forall k :: 0 <= k < |events| && events[k].Finish? ==> events[k].outcome == CountedFailure
  }

  /**
   * Within the reset time of an opening, the breaker stays open through every prefix of a run exactly
   * when no call settles with a success or an ignored failure; and then no operation is started.
   */
  lemma {:induction false} OpenWindow(c: Config, s: System, events: seq<Event>, from: int)
    requires ValidConfig(c) && s.breaker.state.Open? && from <= s.breaker.openedAtMs && Legal(c, s, events)
    requires WithinWindow(events, from, from + c.resetTimeoutMs)
    ensures NoReprieve(events) <==> forall n :: 0 <= n <= |events| ==> Run(c, s, events[..n]).breaker.state.Open?
    ensures NoReprieve(events) ==> Run(c, s, events).admitted == s.admitted
    decreases |events|
  {
    if events != [] {
      var next := Step(c, s, events[0]);
      var rest := events[1..];
      forall n | 1 <= n <= |events|
        ensures Run(c, s, events[..n]) == Run(c, next, rest[..n - 1])
      {
        assert events[..n][1..] == rest[..n - 1];
      }
      assert events[..0] == [] && rest[..0] == [];
      if next.breaker.state.Open? {
        OpenWindow(c, next, rest, from);
        assert NoReprieve(events) <==> NoReprieve(rest) by {
          assert forall k :: 0 <= k < |rest| ==> rest[k] == events[k + 1];
          assert forall k :: 1 <= k < |events| ==> events[k] == rest[k - 1];
        }
        assert forall n :: 0 <= n <= |rest| ==> Run(c, s, events[..n + 1]) == Run(c, next, rest[..n]);
      } else {
        assert !Run(c, s, events[..1]).breaker.state.Open?;
      }
    }
  }

  /** With nothing running, an open breaker stays as it is within the reset time and starts no operation. */
  lemma {:induction false} IdleStaysOpen(c: Config, s: System, events: seq<Event>)
    requires s.breaker.state.Open? && s.running == {} && Legal(c, s, events)
    requires WithinWindow(events, s.breaker.openedAtMs, s.breaker.openedAtMs + c.resetTimeoutMs)
    ensures Run(c, s, events).breaker == s.breaker
    ensures Run(c, s, events).admitted == s.admitted && Run(c, s, events).running == {}
    decreases |events|
  {
    if events != [] {
      var next, rest := Step(c, s, events[0]), events[1..];
      assert next.breaker == s.breaker && next.running == {} && next.admitted == s.admitted;
      assert forall k :: 0 <= k < |rest| ==> rest[k] == events[k + 1];
      IdleStaysOpen(c, next, rest);
    }
  }

  /** Calls that fail one after the other leave none running. */
  lemma {:induction false} FailuresFinish(c: Config, s: System, calls: seq<CallId>, times: seq<int>)
    requires |times| == 2 * |calls| && s.running == {} && Legal(c, s, Failures(calls, times))
    ensures Run(c, s, Failures(calls, times)).running == {}
    decreases |calls|
  {
    if calls != [] {
      var e, f := Start(calls[0], times[0]), Finish(calls[0], CountedFailure, times[1]);
      var rest := Failures(calls[1..], times[2..]);
      var events := Failures(calls, times);
      assert events[0] == e && events[1..][0] == f && events[1..][1..] == rest;
      FailuresFinish(c, Step(c, Step(c, s, e), f), calls[1..], times[2..]);
    }
  }

  /**
   * Without overlapping calls: the threshold-th consecutive counted failure opens the breaker, and from then on it
   * starts no operation and does not change for the reset time, whatever is called.
   */
  lemma SequentialOpening(c: Config, s: System, calls: seq<CallId>, times: seq<int>, later: seq<Event>)
    requires ValidConfig(c) && |times| == 2 * |calls| && s.breaker.state.Closed? && s.running == {}
    requires 0 <= s.breaker.consecutiveFailures < c.failureThreshold == s.breaker.consecutiveFailures + |calls|
    requires Legal(c, s, Failures(calls, times)) && Legal(c, Run(c, s, Failures(calls, times)), later)
    requires WithinWindow(later, times[|times| - 1], times[|times| - 1] + c.resetTimeoutMs)
    ensures
      var tripped := Run(c, s, Failures(calls, times));
      && tripped.breaker.state.Open? && tripped.breaker.openedAtMs == times[|times| - 1]
      && Run(c, tripped, later).breaker == tripped.breaker && Run(c, tripped, later).admitted == tripped.admitted
  {
    SequentialFailures(c, s, calls, times);
    FailuresFinish(c, s, calls, times);
    IdleStaysOpen(c, Run(c, s, Failures(calls, times)), later);
  }

  /** When the last call running fails as a probe, the breaker admits nothing for another reset time. */
  lemma FailedProbeShuts(c: Config, events: seq<Event>, call: CallId, now: int, later: seq<Event>)
    requires ValidConfig(c) && c.halfOpenMaxCalls >= 1 && Legal(c, FRESH, events)
    requires Run(c, FRESH, events).breaker.state.HalfOpen? && Run(c, FRESH, events).running == {call}
    requires Legal(c, Step(c, Run(c, FRESH, events), Finish(call, CountedFailure, now)), later)
    requires WithinWindow(later, now, now + c.resetTimeoutMs)
    ensures
      var shut := Step(c, Run(c, FRESH, events), Finish(call, CountedFailure, now));
      && Run(c, shut, later).breaker == shut.breaker == Breaker(Open, 0, now, 0)
      && Run(c, shut, later).admitted == Run(c, FRESH, events).admitted
  {
    FirstCompletionDecides(c, events, call, CountedFailure, now);
    IdleStaysOpen(c, Step(c, Run(c, FRESH, events), Finish(call, CountedFailure, now)), later);
  }

  /** Calls that overlap an opening can end it early: one success closes the breaker at any time. */
  lemma LateSuccessCloses(c: Config, s: System, call: CallId, other: CallId, now: int)
    requires s.breaker.state.Open? && call in s.running && other !in s.admitted
    ensures
      var closed := Step(c, s, Finish(call, Succeeded, now));
      closed.breaker.state.Closed? && other in Step(c, closed, Start(other, now)).running
  {
  }

  lemma {:induction false} RunThen(c: Config, s: System, events: seq<Event>, e: Event)
    requires Legal(c, s, events) && Enabled(Run(c, s, events), e)
    ensures Legal(c, s, events + [e]) && Run(c, s, events + [e]) == Step(c, Run(c, s, events), e)
    decreases |events|
  {
    if events == [] {
      assert [] + [e] == [e] && [e][1..] == [];
    } else {
      RunThen(c, Step(c, s, events[0]), events[1..], e);
      assert (events + [e])[0] == events[0] && (events + [e])[1..] == events[1..] + [e];
    }
  }

  /** The calls numbered below n. */
  function Below(n: nat): set<CallId> {
    if n == 0 then {} else Below(n - 1) + {n - 1}
  }

  lemma {:induction false} BelowExactly(n: nat, call: CallId)
    ensures call in Below(n) <==> call < n
  {
    if n > 0 {
      BelowExactly(n - 1, call);
    }
  }

  /** n calls started and none completed yet. */
  lemma {:induction false} StartedCalls(c: Config, n: nat, now: int) returns (events: seq<Event>)
    ensures Legal(c, FRESH, events)
    ensures Run(c, FRESH, events) == System(INITIAL, Below(n), Below(n), {}, [])
  {
    events := [];
    if n > 0 {
      events := StartedCalls(c, n - 1, now);
      BelowExactly(n - 1, n - 1);
      RunThen(c, FRESH, events, Start(n - 1, now));
      events := events + [Start(n - 1, now)];
    }
  }

  /** Of one call more than the threshold, the last k have failed. */
  lemma {:induction false} FailedCalls(c: Config, k: nat, now: int) returns (events: seq<Event>)
    requires ValidConfig(c) && k <= c.failureThreshold
    ensures Legal(c, FRESH, events)
    ensures
      var s := Run(c, FRESH, events);
      && s.running == Below(c.failureThreshold + 1 - k) && s.admitted == Below(c.failureThreshold + 1)
      && s.breaker == if k < c.failureThreshold then Breaker(Closed, k, 0, 0) else Breaker(Open, 0, now, 0)
  {
    if k == 0 {
      events := StartedCalls(c, c.failureThreshold + 1, now);
    } else {
      var call := c.failureThreshold + 1 - k;
      events := FailedCalls(c, k - 1, now);
      BelowExactly(call, call);
      assert Below(call + 1) == Below(call) + {call};
      RunThen(c, FRESH, events, Finish(call, CountedFailure, now));
      events := events + [Finish(call, CountedFailure, now)];
    }
  }

  /** This does happen, whatever the configuration: with enough calls overlapping, at the very time of the opening. */
  lemma LateSuccessHappens(c: Config, now: int)
    requires ValidConfig(c)
    ensures exists events ::
              && Legal(c, FRESH, events) && 0 in Run(c, FRESH, events).running
              && Run(c, FRESH, events).breaker == Breaker(Open, 0, now, 0)
              && Step(c, Run(c, FRESH, events), Finish(0, Succeeded, now)).breaker.state.Closed?
  {
    var events := FailedCalls(c, c.failureThreshold, now);
    BelowExactly(1, 0);
    BelowExactly(c.failureThreshold + 1, c.failureThreshold + 1);
    LateSuccessCloses(c, Run(c, FRESH, events), 0, c.failureThreshold + 1, now);
  }
}
