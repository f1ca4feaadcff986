/** Presence and failure wrappers shared by the other modules. */
module Wrappers {

  /** An optional value, as Java's `Optional` / `OptionalLong`. */
  datatype Option<+T> = None | Some(value: T)

  /** The outcome of an operation that may throw: a value or the error it failed with. */
  datatype Result<+R, +E> = Success(value: R) | Failure(error: E)
}
