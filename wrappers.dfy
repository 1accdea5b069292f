/** Option and Result: the failure-carrying values used in place of the
    exceptions the validation library raises. */
module Wrappers {

  datatype Option<+T> = None | Some(value: T)

  datatype Result<+T, +E> = Success(value: T) | Failure(error: E)
}
