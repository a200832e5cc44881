/** Option and Result, the two failure-carrying shapes the model returns. */
module Wrappers {

  /** A value that may be absent: JavaScript's `undefined` or a no-op. */
  datatype Option<+T> = None | Some(value: T)

  /** A value or the message of the error the source would throw. */
  datatype Result<+R> = Success(value: R) | Failure(error: string)
}
