/** Option and Result, used for the places where the report tool either has no
    value (an unparsable number, an early return) or stops with an exception. */
module Wrappers {

  datatype Option<+T> = None | Some(value: T)

  datatype Result<+R, +E> = Success(value: R) | Failure(error: E)
}
