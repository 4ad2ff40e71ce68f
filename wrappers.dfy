/** Failure-carrying results shared by the modules of the cache model. */
module Wrappers {

  /** A value that may be missing: a failed foreign call, an absent key. */
  datatype Option<+T> = None | Some(value: T)

  /** The outcome of a step that can fail with an error of type E. */
  datatype Result<+T, +E> = Success(value: T) | Failure(error: E)
}
