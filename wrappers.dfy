/** Option and Result values shared by every module of the model. */
module Wrappers {

  /** A value that may be absent (JavaScript `null`/`undefined`, Python `None`). */
  datatype Option<+T> = None | Some(value: T)

  /** The outcome of an operation that may raise instead of returning. */
  datatype Result<+R, +E> = Success(value: R) | Failure(error: E)
}
