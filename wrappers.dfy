/** The optional value and the success-or-failure result used by the
    extractor's inputs and outputs. */
module Wrappers {

  datatype Option<+T> = None | Some(value: T)

  datatype Result<+T, +E> = Ok(value: T) | Err(error: E)
}
