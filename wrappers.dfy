/** Small failure-carrying datatypes shared by the checkout and the products API models. */
module Wrappers {

  /** A value that may be absent: JavaScript's `null`/`undefined`, PHP's `null`. */
  datatype Option<+T> = None | Some(value: T)

  /** The outcome of a step that either produces a value or stops with an error. */
  datatype Result<+T, +E> = Ok(value: T) | Err(error: E)
}
