/** Option and Result: null references and thrown exceptions as values. */
module Wrappers {

  /** `None` stands for a C# null reference. */
  datatype Option<+T> = None | Some(value: T)

  /** The outcome of a call that either returns a value or throws. */
  datatype Result<+T, +E> = Success(value: T) | Failure(error: E)

  /** The outcome of a call that returns nothing or throws. */
  datatype Outcome<+E> = Pass | Fail(error: E)
}
