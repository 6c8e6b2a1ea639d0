/** Failure-carrying results shared by the models of the Go and Python sources. */
module Wrappers {

  datatype Option<+T> = None | Some(value: T)

  /** The Python exceptions that the modelled code can raise. */
  datatype PyError = IndexError | KeyError | ValueError

  /** A value, or the exception that aborted the computation. */
  datatype Result<+T> = Ok(value: T) | Err(error: PyError)
}
