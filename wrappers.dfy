/** Option and Result, the two failure-carrying shapes the model needs. */
module Wrappers {

  datatype Option<+T> = None | Some(value: T)

  /** Ok carries the value of a call that returned; Err the exception that escaped it. */
  datatype Result<+T, +E> = Ok(value: T) | Err(error: E)
}
