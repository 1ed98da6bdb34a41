# StubLogger in Dafny

A model of `StubLogger<T>`, an in-memory test double for an `ILogger<T>`. Every `Log` call is
recorded as a `TrackedLogEvent` (level, formatted message, optional exception) appended to a
private list, whatever its level. Two assertion helpers query that list with caller-supplied
predicates: `AssertLogEvent` looks for the first matching event and hands it to an optional
secondary check, and `AssertLogCount` compares the number of matching events with an expected
count. `IsEnabled` and `BeginScope` are not implemented and throw.

Layout:

- `outcomes.dfy` (module `Outcomes`): `Option`, the failure kinds, and the `Outcome`/`Result`
  values that stand for the thrown assertion failures and `NotImplementedException`.
- `log_levels.dfy` (module `LogLevels`): the seven log levels, their numeric ranks, and the
  enabled-level relation that the unit tests expect of `IsEnabled`.
- `queries.dfy` (module `Queries`): the two list queries the helpers use — LINQ `FirstOrDefault`
  (as the position of the first match) and `Count` — and their lemmas, with `Filter`, the
  subsequence of matching elements, as a reference definition against which the count is checked.
- `stub_logger.dfy` (module `StubLogger`): the tracked event, the class `StubLogger<X>` with the
  tracked list as a `seq` field that `Log` reassigns, `Recorded`, the events a sequence of calls
  appends, and `LogAll`, which makes those calls through `Log` and is proved to append exactly
  `Recorded`.
- `scenarios.dfy` (module `Scenarios`): the unit tests as client methods of the class.

The exception type is the class's type parameter `X`, about which nothing is assumed. Predicates,
formatters and secondary checks are total function values. A failed assertion is a `Fail`
outcome instead of a thrown exception; a secondary check returns an `Outcome` and its failure is
returned unchanged.

`IsEnabled` throws for every level in the source, and the model returns
`Err(NotImplemented)` for every level. The unit tests, however, configure a `LoggerLogLevel`
property that the logger does not have and expect `IsEnabled(level)` to be
`(int)level <= (int)configured`. That expectation is kept apart, as `LogLevels.ExpectedEnabled`,
and is not a behaviour of the logger. Under it, configuring `None` enables every level (`None`
included) and configuring `Trace` enables only `Trace`.

## Model

| member | source | states |
|---|---|---|
| `LogLevels.Rank` | test/StubLogger.UnitTests/StubLoggerTests.cs:195-197 | a level's integer value is a position in the enumeration of all levels |
| `LogLevels.RankIsPosition` | test/StubLogger.UnitTests/StubLoggerTests.cs:195-197 | each level is enumerated at the position of its integer value |
| `LogLevels.PositionIsRank` | test/StubLogger.UnitTests/StubLoggerTests.cs:195-197 | the level enumerated at position i has integer value i (Trace 0 … None 6) |
| `LogLevels.ExpectedEnabled` | test/StubLogger.UnitTests/StubLoggerTests.cs:197 | the tests' oracle for `IsEnabled`: a level is enabled when its value is at most the configured level's value (not a behaviour of the logger) |
| `LogLevels.ExpectedEnabledReflexive` | test/StubLogger.UnitTests/StubLoggerTests.cs:197 | under the tests' oracle, every level is enabled when it is itself the configured level, None included |
| `LogLevels.NoneEnablesEveryLevel` | test/StubLogger.UnitTests/StubLoggerTests.cs:164-169 | under the tests' oracle, configuring None enables every level |
| `LogLevels.TraceEnablesOnlyTrace` | test/StubLogger.UnitTests/StubLoggerTests.cs:118-123 | under the tests' oracle, configuring Trace enables Trace and no other level |
| `LogLevels.ExpectedEnabledAntisymmetric` | test/StubLogger.UnitTests/StubLoggerTests.cs:197 | two levels that enable each other are equal |
| `LogLevels.LevelExpectations` | test/StubLogger.UnitTests/StubLoggerTests.cs:192-202 | the theory data has one row per level in enumeration order, each pairing the level with the oracle's answer, which is true exactly for positions up to the configured level's value |
| `Queries.FirstMatch` | src/StubLogger/StubLogger.cs:45 | the result is the position of the first element satisfying the predicate, or nothing exactly when no element does |
| `Queries.FirstMatchUnique` | src/StubLogger/StubLogger.cs:45 | at most one position is the first match |
| `Queries.FirstMatchExists` | src/StubLogger/StubLogger.cs:45-46 | some element matches exactly when a first match exists |
| `Queries.FirstMatchStable` | src/StubLogger/StubLogger.cs:45 | once an event matches, events logged later never change which event is the first match |
| `Queries.CountMatching` | src/StubLogger/StubLogger.cs:58 | the count is at most the length, zero exactly when nothing matches, the full length exactly when everything matches |
| `Queries.Filter` | src/StubLogger/StubLogger.cs:58 | reference definition of the matching events: no longer than the input, every element kept matches, it is a sub-multiset of the input, and every matching element is kept as often as it occurs in the input |
| `Queries.FilterAppend` | src/StubLogger/StubLogger.cs:58 | filtering keeps order: the matches of a concatenation are those of its first part followed by those of its second |
| `Queries.CountIsFilterLength` | src/StubLogger/StubLogger.cs:58 | the count equals the length of the filtered subsequence |
| `Queries.CountAppend` | src/StubLogger/StubLogger.cs:58 | counting distributes over concatenation |
| `StubLogger.TrackedFields` | src/StubLogger/StubLogger.cs:15-22 | the recorded event carries the call's level, the formatter's message for the call's state and exception, and that exception; the event id has no effect |
| `StubLogger.Track` | src/StubLogger/StubLogger.cs:22 | the event one Log call records, built from its level, `formatter(state, exception)` and its exception; its properties are `TrackedFields`' |
| `StubLogger.RunAssertion` | src/StubLogger/StubLogger.cs:48 | the optional secondary check applied to the matched event, passing when there is no check; its use is stated by `AssertLogEvent` |
| `StubLogger.StubLogger.constructor` | src/StubLogger/StubLogger.cs:12 | a new logger has tracked no events |
| `StubLogger.StubLogger.Log` | src/StubLogger/StubLogger.cs:15-24 | for every level, the tracked events become the old ones with exactly the call's event appended |
| `StubLogger.StubLogger.IsEnabled` | src/StubLogger/StubLogger.cs:27-30 | fails with not-implemented for every level |
| `StubLogger.StubLogger.BeginScope` | src/StubLogger/StubLogger.cs:33-36 | fails with not-implemented for every state |
| `StubLogger.StubLogger.AssertLogEvent` | src/StubLogger/StubLogger.cs:43-49 | not-found when no tracked event matches; otherwise the secondary check's outcome on the first matching event, unchanged; without a check it passes exactly when some event matches; the tracked events are not modified |
| `StubLogger.StubLogger.AssertLogCount` | src/StubLogger/StubLogger.cs:56-60 | passes exactly when the expected count equals the number of matching events; otherwise fails with the expected and the actual count; a negative expected count always fails |
| `StubLogger.Recorded` | src/StubLogger/StubLogger.cs:22-23 | the events a sequence of calls appends, one per call, each the call's own event; its properties are `RecordedInOrder`'s and `EveryLevelRecorded`'s |
| `StubLogger.LogAll` | src/StubLogger/StubLogger.cs:15-24 | making a sequence of calls through `Log`, in order, leaves the logger's events as the old ones followed by exactly `Recorded` of those calls |
| `StubLogger.RecordedInOrder` | src/StubLogger/StubLogger.cs:15-24 | N calls record N events, the i-th event being the i-th call's |
| `StubLogger.EveryLevelRecorded` | src/StubLogger/StubLogger.cs:15-24 | the number of recorded events at a level equals the number of calls made at that level |
| `Scenarios.WarningEventCanBeAsserted` | test/StubLogger.UnitTests/StubLoggerTests.cs:12-21 | a logged warning is found by level and message text, whatever value it renders |
| `Scenarios.NoMatchingEventFails` | test/StubLogger.UnitTests/StubLoggerTests.cs:23-36 | with only an information event logged, looking for a warning fails with not-found |
| `Scenarios.ExceptionCanBeAsserted` | test/StubLogger.UnitTests/StubLoggerTests.cs:38-50 | a logged error is found by level, message and the exception logged with it |
| `Scenarios.ExceptionCheckedSeparately` | test/StubLogger.UnitTests/StubLoggerTests.cs:52-84 | the secondary check sees the matched event: checking for the logged exception kind passes, checking for another kind fails with that check's own failure |
| `Scenarios.CountsCanBeAsserted` | test/StubLogger.UnitTests/StubLoggerTests.cs:86-97 | after two information events and one warning, counts 2 and 1 pass, as the test asserts; an extra case the test does not make: an expected 5 fails with actual 2 |
| `Scenarios.WrongCountsFail` | test/StubLogger.UnitTests/StubLoggerTests.cs:99-116 | after one information event and one warning, expecting 2 of either fails with actual 1 |
| `Scenarios.RepeatedAssertionsAgree` | src/StubLogger/StubLogger.cs:43-60 | asking either assertion helper twice with the same arguments gives the same outcome twice |

## Left out

- The `ILogger<T>` interface and the type parameter `T`: interface plumbing with no behaviour; the model's class is parameterised by the exception type instead.
- Message-template rendering by the `LogWarning`, `LogInformation` and `LogError` extension methods: library code outside this model; each call supplies its formatter as a function value, and the scenarios take the rendering of the logged value as a parameter.
- Exception objects: the exception type is opaque; object identity and runtime type tests are modelled in the scenarios by a small datatype of exception kinds.
- The test framework's exceptions (`NotNullException`, `EqualException`, `XunitException`): modelled as `Fail` outcomes carrying a failure kind.
- A configured log level: the logger has none. `LoggerLogLevel`, which the tests set, is not a member of the logger, so the tests' expectation for `IsEnabled` is the separate predicate `LogLevels.ExpectedEnabled`, not logger state.
- `BeginScope`'s `IDisposable` scope: the member only throws, so only its failure is modelled.
- Null formatter or predicate: function values in Dafny are never null, so a null formatter or predicate, and the exceptions .NET throws for them, are not modelled. (A null secondary check, the parameter's default, is modelled as `Nothing` and passes, as `?.Invoke` does.)
- `StubLogger.Recorded` and `StubLogger.LogAll`: all calls in one sequence share one state type `S`, whereas C#'s `Log<TState>` may take a different state type on each call; calls with different state types are covered by applying `Log`'s own contract call by call.
- Exceptions thrown by a formatter or a predicate (which would leave nothing appended, or stop the scan): formatters and predicates are total functions.
- Thread safety of the underlying `List<T>`: the source does not synchronise and the model is sequential.
- Random test values (Faker): the scenarios take the value as a parameter and hold for every value.
