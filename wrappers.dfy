/** Option and Result values, used wherever the source returns None, swallows an
    exception or answers an HTTP request with an error status. */
module Wrappers {

  datatype Option<+T> = None | Some(value: T)

  datatype Result<+T, +E> = Ok(value: T) | Err(error: E)
}
