/** Wrappers shared by every module: a nullable value and
    a value-or-error outcome (a JavaScript `null` result and a thrown Error). */
module Wrappers {

  /** A JavaScript value that may be `null` (or `undefined`). */
  datatype Option<+T> = None | Some(value: T)

  /** The outcome of an operation that may throw. */
  datatype Result<+R> = Success(value: R) | Failure(error: string)
}
