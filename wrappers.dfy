/** Failure-carrying wrappers used across the model in place of C#'s nullable
    references and CSharpFunctionalExtensions' Result / UnitResult types. */
module Wrappers {

  /** A value that may be absent (the model's stand-in for a C# null). */
  datatype Option<+T> = None | Some(value: T)

  /** `Result<T, E>`: a value on success, an error otherwise. */
  datatype Result<+T, +E> = Ok(value: T) | Err(error: E)

  /** `UnitResult<E>`: success without a value, or an error. */
  datatype Outcome<+E> = Pass | Fail(error: E)
}
