/** The stub logger: every Log call is recorded, in call order, as a tracked event; the assertion
    helpers query the recorded events with caller-supplied predicates. The exception type is the
    type parameter X, about which nothing is assumed. */
module StubLogger {
  import opened Outcomes
  import opened LogLevels
  import opened Queries

  /** The event identifier a Log call carries; the logger ignores it. */
  datatype EventId = EventId(id: int, name: string)

  /** One recorded log event: its level, its formatted message and its optional exception. */
  datatype TrackedLogEvent<X> = TrackedLogEvent(level: LogLevel, message: string, exception: Option<X>)

  /** The arguments of one Log call, with a state payload of type S. */
  datatype LogCall<!S, !X> = LogCall(
    level: LogLevel,
    eventId: EventId,
    state: S,
    exception: Option<X>,
    formatter: (S, Option<X>) -> string)

  /** The event a Log call records. */
  function Track<S, X>(call: LogCall<S, X>): TrackedLogEvent<X>
  {
    TrackedLogEvent(call.level, call.formatter(call.state, call.exception), call.exception)
  }

  /** The recorded event carries the call's level, the formatter's message for the call's state and
      exception, and that exception; the event identifier has no part in it. */
  lemma TrackedFields<S, X>(call: LogCall<S, X>, otherId: EventId)
    ensures Track(call).level == call.level
    ensures Track(call).message == call.formatter(call.state, call.exception)
    ensures Track(call).exception == call.exception
    ensures Track(call.(eventId := otherId)) == Track(call)
  {
  }

  /** The optional secondary check, applied to the matched event; no check passes. */
  function RunAssertion<X>(assertion: Option<TrackedLogEvent<X> -> Outcome>, event: TrackedLogEvent<X>): Outcome
  {
    match assertion
    case Nothing => Pass
    case Some(check) => check(event)
  }

  class StubLogger<X> {
    /** The tracked events, in the order they were logged. */
    var tracker: seq<TrackedLogEvent<X>>

    constructor ()
      ensures tracker == []
    {
      tracker := [];
    }

    /** Records one event, whatever its level: the formatter's message for the state and
        exception is appended with the level and the exception. */
    method Log<S>(level: LogLevel, eventId: EventId, state: S, exception: Option<X>,
                  formatter: (S, Option<X>) -> string)
      modifies this
      ensures tracker == old(tracker) + [Track(LogCall(level, eventId, state, exception, formatter))]
    {
      var tracked := TrackedLogEvent(level, formatter(state, exception), exception);
      tracker := tracker + [tracked];
    }

    /** Not implemented: fails for every level. */
    method IsEnabled(level: LogLevel) returns (r: Result<bool>)
      ensures r == Err(NotImplemented)
    {
      r := Err(NotImplemented);
    }

    /** Not implemented: fails for every state. */
    method BeginScope<S>(state: S) returns (r: Result<()>)
      ensures r == Err(NotImplemented)
    {
      r := Err(NotImplemented);
    }

    /** Fails with NotFound unless some tracked event satisfies `matches`; otherwise hands the
        first such event, in logging order, to the optional `assertion`, whose outcome is the
        result as it is. The tracked events are not changed. */
    method AssertLogEvent(matches: TrackedLogEvent<X> -> bool,
                          assertion: Option<TrackedLogEvent<X> -> Outcome>)
      returns (r: Outcome)
      ensures NoMatch(tracker, matches) ==> r == Fail(NotFound)
      ensures forall i | IsFirstMatch(tracker, matches, i) :: r == RunAssertion(assertion, tracker[i])
      ensures assertion.Nothing? ==> (r == Pass <==> !NoMatch(tracker, matches))
    {
      var found := FirstMatch(tracker, matches);
      if found.Nothing? {
        return Fail(NotFound);
      }
      var tracked := tracker[found.value];
      forall i | IsFirstMatch(tracker, matches, i) ensures i == found.value {
        FirstMatchUnique(tracker, matches, i, found.value);
      }
      r := RunAssertion(assertion, tracked);
    }

    /** Passes exactly when the number of tracked events satisfying `matches` is
        `expectedCount`; otherwise fails with both counts. The tracked events are not changed. */
    method AssertLogCount(matches: TrackedLogEvent<X> -> bool, expectedCount: int)
      returns (r: Outcome)
      ensures r == Pass <==> expectedCount == |Filter(tracker, matches)|
      ensures r != Pass ==> r == Fail(CountMismatch(expectedCount, |Filter(tracker, matches)|))
      ensures expectedCount < 0 ==> r != Pass
    {
      var count := CountMatching(tracker, matches);
      CountIsFilterLength(tracker, matches);
      if expectedCount == count {
        r := Pass;
      } else {
        r := Fail(CountMismatch(expectedCount, count));
      }
    }
  }

  /** The events that the calls `calls`, made in order, append to a logger (LogAll proves that
      Log calls append exactly these). */
  function Recorded<S, X>(calls: seq<LogCall<S, X>>): seq<TrackedLogEvent<X>>
  {
    if calls == [] then [] else Recorded(calls[..|calls| - 1]) + [Track(calls[|calls| - 1])]
  }

  /** Makes the calls `calls` on `logger`, in order: the logger's events become its old events
      followed by those the calls record. */
  method LogAll<S, X>(logger: StubLogger<X>, calls: seq<LogCall<S, X>>)
    modifies logger
    ensures logger.tracker == old(logger.tracker) + Recorded(calls)
  {
    for i := 0 to |calls|
      invariant logger.tracker == old(logger.tracker) + Recorded(calls[..i])
    {
      var call := calls[i];
      assert calls[..i + 1][..i] == calls[..i];
      logger.Log(call.level, call.eventId, call.state, call.exception, call.formatter);
    }
    assert calls[..|calls|] == calls;
  }

  /** N calls give N events, the i-th event being the i-th call's: nothing is filtered, nothing
      reordered. */
  lemma {:induction false} RecordedInOrder<S, X>(calls: seq<LogCall<S, X>>)
    ensures |Recorded(calls)| == |calls|
    ensures forall i | 0 <= i < |calls| :: Recorded(calls)[i] == Track(calls[i])
  {
    if calls != [] {
      RecordedInOrder(calls[..|calls| - 1]);
    }
  }

  /** The predicate "the event is at `level`". */
  function AtLevel<X>(level: LogLevel): TrackedLogEvent<X> -> bool
  {
    (e: TrackedLogEvent<X>) => e.level == level
  }

  /** The predicate "the call is at `level`". */
  function CallAtLevel<S, X>(level: LogLevel): LogCall<S, X> -> bool
  {
    (c: LogCall<S, X>) => c.level == level
  }

  /** Every call at a level is recorded: counting the recorded events at a level gives the number
      of calls made at it. */
  lemma {:induction false} EveryLevelRecorded<S, X>(calls: seq<LogCall<S, X>>, level: LogLevel)
    ensures CountMatching(Recorded(calls), AtLevel(level)) == CountMatching(calls, CallAtLevel(level))
  {
    if calls != [] {
      var front, last := calls[..|calls| - 1], calls[|calls| - 1];
      assert calls == front + [last];
      EveryLevelRecorded(front, level);
      CountAppend(Recorded(front), [Track(last)], AtLevel(level));
      CountAppend(front, [last], CallAtLevel(level));
    }
  }
}
