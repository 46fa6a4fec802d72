/** Option and Result, the two failure-carrying shapes the model uses. */
module Wrappers {

  /** `null`/`undefined` versus a present value. */
  datatype Option<T> = None | Some(value: T)

  /** A returned value versus a thrown (or rejected) error. */
  datatype Result<T, E> = Ok(value: T) | Err(error: E)
}
