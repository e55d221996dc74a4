/** Option and Result: the nullable values and the exceptions of the modelled code. */
module Wrappers {

  /** A value that may be absent (`null` in Java, `null`/`undefined` in TypeScript). */
  datatype Option<+T> = None | Some(value: T)

  /** The normal return value of a call, or the exception it throws. */
  datatype Result<+T, +E> = Success(value: T) | Failure(error: E)
}
