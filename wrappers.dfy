/** Small failure-carrying datatypes shared by the other modules. */
module Wrappers {

  /** A value that may be missing. */
  datatype Option<+T> = None | Some(value: T)

  /** The outcome of a store operation that can fail. */
  datatype Result<+T, +E> = Success(value: T) | Failure(error: E)
}
