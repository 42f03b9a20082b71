/** Option and Result, used for lookups that can miss and for the Python exceptions the model returns as values. */
module Wrappers {

  datatype Option<+T> = None | Some(value: T)

  datatype Result<+T, +E> = Ok(value: T) | Err(error: E)

  /** Pass, or a failure carrying the exception the source would raise. */
  datatype Outcome<+E> = Pass | Fail(error: E)
}
