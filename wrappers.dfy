/** Option and Result, the failure-carrying values used across the model. */
module Wrappers {

  /** A value that may be absent: `undefined` or `null` on the JavaScript side. */
  datatype Option<+T> = None | Some(value: T)

  /** The outcome of a computation that may raise: `Err` stands for a thrown TypeError. */
  datatype Result<+T> = Ok(value: T) | Err(error: string)
}
