/** The unit tests of the stub logger, as client methods: each builds a fresh logger, logs, and
    states the outcome its assertions must have. Message-template rendering is the logging
    extensions' business, so each test supplies the formatter the extension would. */
module Scenarios {
  import opened Outcomes
  import opened LogLevels
  import opened Queries
  import opened StubLogger

  /** The exception kinds the tests log. */
  datatype SampleException = InvalidOperation(message: string) | ArgumentNull(paramName: string)

  /** `sub` occurs somewhere in `s` (string.Contains). */
  predicate Contains(s: string, sub: string)
    decreases |s|
  {
    sub <= s || (|s| > 0 && Contains(s[1..], sub))
  }

  const WarningText := "This is a warning message with value:"
  const ErrorText := "An error occurred while processing"
  const NoId := EventId(0, "")

  /** A message template with one value, rendered by `render`. */
  function WithValue(text: string, render: int -> string): (int, Option<SampleException>) -> string
  {
    (v: int, e: Option<SampleException>) => text + " " + render(v)
  }

  /** A message without values. */
  function Plain(text: string): ((), Option<SampleException>) -> string
  {
    (u: (), e: Option<SampleException>) => text
  }

  /** The tests' predicate: an event at `level` whose message contains `text`. */
  function Mentions(level: LogLevel, text: string): TrackedLogEvent<SampleException> -> bool
  {
    (e: TrackedLogEvent<SampleException>) => e.level == level && Contains(e.message, text)
  }

  /** The check that the matched event carries an exception of the given kind. */
  function ExceptionIs(invalidOperation: bool): TrackedLogEvent<SampleException> -> Outcome
  {
    (e: TrackedLogEvent<SampleException>) =>
      if e.exception.Some? && e.exception.value.InvalidOperation? == invalidOperation then Pass
      else Fail(AssertionFailed("unexpected exception type"))
  }

  /** A logged warning is found by level and message text, whatever the value in it. */
  method WarningEventCanBeAsserted(value: int, render: int -> string) returns (r: Outcome)
    ensures r == Pass
  {
    var logger := new StubLogger<SampleException>();
    logger.Log(Warning, NoId, value, Nothing, WithValue(WarningText, render));
    assert Mentions(Warning, WarningText)(logger.tracker[0]) by {
      assert WarningText <= logger.tracker[0].message;
    }
    r := logger.AssertLogEvent(Mentions(Warning, WarningText), Nothing);
  }

  /** With only an information event logged, looking for a warning fails with NotFound. */
  method NoMatchingEventFails(value: int, render: int -> string) returns (r: Outcome)
    ensures r == Fail(NotFound)
  {
    var logger := new StubLogger<SampleException>();
    logger.Log(Information, NoId, value, Nothing, WithValue("This is an info message with value:", render));
    r := logger.AssertLogEvent(Mentions(Warning, WarningText), Nothing);
  }

  /** A logged error is found by level, message and the very exception logged with it. */
  method ExceptionCanBeAsserted() returns (r: Outcome)
    ensures r == Pass
  {
    var exception := InvalidOperation("Invalid operation occurred");
    var logger := new StubLogger<SampleException>();
    logger.Log(Error, NoId, (), Some(exception), Plain(ErrorText));
    var matches := (e: TrackedLogEvent<SampleException>) =>
      Mentions(Error, ErrorText)(e) && e.exception == Some(exception);
    assert matches(logger.tracker[0]) by {
      assert logger.tracker[0].message == ErrorText;
      assert Contains(ErrorText, ErrorText);
      assert Mentions(Error, ErrorText)(logger.tracker[0]);
    }
    r := logger.AssertLogEvent(matches, Nothing);
  }

  /** Matched without the exception, the error event is handed to a secondary check of its
      exception's kind: the right kind passes, the wrong kind's failure is the outcome. */
  method ExceptionCheckedSeparately() returns (right: Outcome, wrong: Outcome)
    ensures right == Pass
    ensures wrong == Fail(AssertionFailed("unexpected exception type"))
  {
    var logger := new StubLogger<SampleException>();
    logger.Log(Error, NoId, (), Some(InvalidOperation("Invalid operation occurred")), Plain(ErrorText));
    assert ErrorText <= ErrorText;
    assert IsFirstMatch(logger.tracker, Mentions(Error, ErrorText), 0);
    right := logger.AssertLogEvent(Mentions(Error, ErrorText), Some(ExceptionIs(true)));
    wrong := logger.AssertLogEvent(Mentions(Error, ErrorText), Some(ExceptionIs(false)));
  }

  /** Two information events and one warning: the counts are 2 and 1, and 5 is refused. */
  method CountsCanBeAsserted() returns (info: Outcome, warning: Outcome, tooMany: Outcome)
    ensures info == Pass && warning == Pass
    ensures tooMany == Fail(CountMismatch(5, 2))
  {
    var logger := new StubLogger<SampleException>();
    logger.Log(Information, NoId, (), Nothing, Plain("Info message 1"));
    logger.Log(Information, NoId, (), Nothing, Plain("Info message 2"));
    logger.Log(Warning, NoId, (), Nothing, Plain("Warning message 1"));
    var t := logger.tracker;
    assert |Filter(t[2..], AtLevel(Information))| == 0;
    assert |Filter(t[1..], AtLevel(Information))| == 1;
    assert |Filter(t, AtLevel(Information))| == 2;
    assert |Filter(t[2..], AtLevel(Warning))| == 1;
    assert |Filter(t[1..], AtLevel(Warning))| == 1;
    info := logger.AssertLogCount(AtLevel(Information), 2);
    warning := logger.AssertLogCount(AtLevel(Warning), 1);
    tooMany := logger.AssertLogCount(AtLevel(Information), 5);
  }

  /** One information event and one warning: expecting two of either fails with the actual 1. */
  method WrongCountsFail() returns (info: Outcome, warning: Outcome)
    ensures info == Fail(CountMismatch(2, 1))
    ensures warning == Fail(CountMismatch(2, 1))
  {
    var logger := new StubLogger<SampleException>();
    logger.Log(Information, NoId, (), Nothing, Plain("Info message 1"));
    logger.Log(Warning, NoId, (), Nothing, Plain("Warning message 1"));
    info := logger.AssertLogCount(AtLevel(Information), 2);
    warning := logger.AssertLogCount(AtLevel(Warning), 2);
  }

  /** The assertion helpers change nothing, so asking twice gives the same outcome twice. */
  method RepeatedAssertionsAgree<X>(logger: StubLogger<X>, matches: TrackedLogEvent<X> -> bool,
                                    assertion: Option<TrackedLogEvent<X> -> Outcome>, expectedCount: int)
    returns (first: Outcome, second: Outcome, firstCount: Outcome, secondCount: Outcome)
    ensures first == second
    ensures firstCount == secondCount
  {
    first := logger.AssertLogEvent(matches, assertion);
    second := logger.AssertLogEvent(matches, assertion);
    // the first match, when there is one, pins both outcomes to the same check
    ghost var found := FirstMatch(logger.tracker, matches);
    firstCount := logger.AssertLogCount(matches, expectedCount);
    secondCount := logger.AssertLogCount(matches, expectedCount);
  }
}
