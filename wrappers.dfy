/** Failure-compatible result type shared by the pipeline stages. */
module Wrappers {

  datatype Result<+T, +E> = Ok(value: T) | Err(error: E)
}
