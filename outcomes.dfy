/** Value forms of what the stub logger reports by throwing: a missing value, the failure kinds of
    the test framework's assertions and of unimplemented members, and the pass/fail verdict of an
    assertion helper. */
module Outcomes {

  /** An optional value: a nullable reference in the logger's signatures, `Nothing` standing for null. */
  datatype Option<+T> = Nothing | Some(value: T)

  /** Why an assertion helper, a secondary check or an unsupported member failed. */
  datatype Failure =
    | NotFound                                  // Assert.NotNull on FirstOrDefault's default
    | CountMismatch(expected: int, actual: int) // Assert.Equal(expected, actual)
    | NotImplemented                            // NotImplementedException
    | AssertionFailed(reason: string)           // any failure raised by a caller's own check

  /** The result of an assertion helper, which returns nothing on success. */
  datatype Outcome = Pass | Fail(failure: Failure)

  /** The result of a member that returns a value on success. */
  datatype Result<+T> = Ok(value: T) | Err(failure: Failure)
}
