/** Optional values and success/failure results used throughout the model. */
module Outcomes {

  /** A value that may be absent: a missing spreadsheet cell, a failed parse. */
  datatype Option<+T> = None | Some(value: T)

  /** The outcome of an operation that can abort with an error the operator is shown. */
  datatype Result<+T, +E> = Ok(value: T) | Err(error: E)
}
