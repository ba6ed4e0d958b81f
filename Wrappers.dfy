/** Stand-ins for C# null references and thrown exceptions. */
module Wrappers {

  /** A reference that may be null: None is null, Some(v) is a non-null v. */
  datatype Option<+T> = None | Some(value: T)

  /** The outcome of an operation that either returns a value or throws. */
  datatype Result<+T, +E> = Success(value: T) | Failure(error: E)
}
