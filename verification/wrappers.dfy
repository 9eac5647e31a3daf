/** Failure-carrying result types shared by every module of the model. */
module Wrappers {

  /** A value that may be absent: the model of a TypeScript `T | null`. */
  datatype Option<+T> = None | Some(value: T)

  /** The outcome of a call that can reject: either a value or the error it was rejected with. */
  datatype Result<+R, +E> = Success(value: R) | Failure(error: E)
}
