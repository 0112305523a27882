/** Option and result types; a thrown exception becomes a failure value. */
module Wrappers {

  /** A value that may be absent: the model of a JavaScript `String|null` field. */
  datatype Option<+T> = None | Some(value: T)

  /** The outcome of a call that either returns a value or throws an error. */
  datatype Result<+R, +E> = Success(value: R) | Failure(error: E)

  /** The outcome of a call that returns nothing or throws an error. */
  datatype Outcome<+E> = Pass | Fail(error: E)
}
