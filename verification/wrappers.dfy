/** Failure-compatible result types shared by the four searches. */
module Wrappers {

  datatype Option<+T> = None | Some(value: T)

  /** The outcome of a search: its result, or the Python exception that ends the run. */
  datatype Result<+R, +E> = Ok(value: R) | Err(error: E)
}
