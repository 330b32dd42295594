/** Option and Result values, standing for Python's `None` and for an
    exception raised on the way to a result. */
module Wrappers {

  datatype Option<+T> = None | Some(value: T)

  datatype Result<+T, +E> = Success(value: T) | Failure(error: E)
}
