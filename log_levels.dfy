/** The severity levels the logger is called with, their numeric order, and the enabled-level
    relation that the unit tests expect of IsEnabled. */
module LogLevels {

  /** Microsoft.Extensions.Logging.LogLevel, in declaration order. */
  datatype LogLevel = Trace | Debug | Information | Warning | Error | Critical | None

  /** The levels in declaration order, the order in which Enum.GetValues enumerates them. */
  const AllLevels: seq<LogLevel> := [Trace, Debug, Information, Warning, Error, Critical, None]

  /** The enum's underlying integer value. */
  function Rank(level: LogLevel): (r: nat)
    ensures r < |AllLevels|
  {
    match level
    case Trace => 0
    case Debug => 1
    case Information => 2
    case Warning => 3
    case Error => 4
    case Critical => 5
    case None => 6
  }

  /** Rank and the enumeration are inverse: every level sits at the position of its rank ... */
  lemma RankIsPosition(level: LogLevel)
    ensures AllLevels[Rank(level)] == level
  {
  }

  /** ... and the level at each position has that position as its rank. */
  lemma PositionIsRank(i: nat)
    requires i < |AllLevels|
    ensures Rank(AllLevels[i]) == i
  {
  }

  /** The tests' oracle for IsEnabled when the logger is configured with `configured`; the
      logger itself does not implement it. */
  predicate ExpectedEnabled(configured: LogLevel, level: LogLevel)
  {
    Rank(level) <= Rank(configured)
  }

  lemma ExpectedEnabledReflexive(level: LogLevel)
    ensures ExpectedEnabled(level, level)
  {
  }

  /** Configured to None, the oracle enables every level, None included. */
  lemma NoneEnablesEveryLevel(level: LogLevel)
    ensures ExpectedEnabled(None, level)
  {
  }

  /** Configured to Trace, the oracle enables Trace and nothing else. */
  lemma TraceEnablesOnlyTrace(level: LogLevel)
    ensures ExpectedEnabled(Trace, level) <==> level == Trace
  {
  }

  /** Two levels that enable each other are the same level. */
  lemma ExpectedEnabledAntisymmetric(a: LogLevel, b: LogLevel)
    requires ExpectedEnabled(a, b) && ExpectedEnabled(b, a)
    ensures a == b
  {
  }

  /** The theory data of the IsEnabled tests: one row per level, in enumeration order, pairing
      the level with whether the oracle enables it under `expectation`. */
  method LevelExpectations(expectation: LogLevel) returns (data: seq<(LogLevel, bool)>)
    ensures |data| == |AllLevels|
    ensures forall i | 0 <= i < |data| ::
              data[i] == (AllLevels[i], ExpectedEnabled(expectation, AllLevels[i]))
    ensures forall i | 0 <= i < |data| :: data[i].1 <==> i <= Rank(expectation)
  {
    data := [];
    for i := 0 to |AllLevels|
      invariant |data| == i
      invariant forall k | 0 <= k < i ::
                  data[k] == (AllLevels[k], ExpectedEnabled(expectation, AllLevels[k]))
      invariant forall k | 0 <= k < i :: data[k].1 <==> k <= Rank(expectation)
    {
      var level := AllLevels[i];
      PositionIsRank(i);
      data := data + [(level, Rank(level) <= Rank(expectation))];
    }
  }
}
