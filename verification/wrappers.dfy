/** Option and Result, the model's stand-ins for Kotlin's nullable types and thrown exceptions. */
module Wrappers {

  /** A nullable value: `None` is Kotlin's `null`. */
  datatype Option<+T> = None | Some(value: T)

  /** The outcome of a call that may throw: `Err` carries the exception. */
  datatype Result<+T, +E> = Ok(value: T) | Err(error: E)
}
