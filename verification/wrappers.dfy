/** Option and Result, the two failure-carrying shapes the document model uses. */
module Wrappers {

  /** A value that may be missing: a parsed number that was NaN, a product id nobody selected. */
  datatype Option<+T> = None | Some(value: T)

  /** The outcome of a handler: the new value, or the reason it was rejected. */
  datatype Result<+T, +E> = Ok(value: T) | Err(error: E)
}
