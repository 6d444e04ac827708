/** Option and Result values: the model's stand-ins for Python's `None` and for
    an exception that escapes an operation. */
module Wrappers {

  datatype Option<+T> = None | Some(value: T)

  datatype Result<+T, +E> = Success(value: T) | Failure(error: E)
}
