/** Option and Result, the two failure-carrying values the model uses. */
module Wrappers {

  datatype Option<+T> = None | Some(value: T)

  /** The outcome of a step that the source writes as "return or raise". */
  datatype Result<+T, +E> = Ok(value: T) | Err(error: E)
}
