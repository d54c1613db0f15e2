/** Failure-carrying datatypes shared by the model: `Option` for Go's
    "value or nothing" results and `Result` for Go's `(value, error)` pairs. */
module Wrappers {

  datatype Option<+T> = None | Some(value: T)

  datatype Result<+T, +E> = Ok(value: T) | Err(error: E)
}
