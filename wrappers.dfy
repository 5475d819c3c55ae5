/** Option and Result, the two shapes every modelled operation returns its
    "maybe" and "may fail" answers in. */
module Wrappers {

  datatype Option<+T> = None | Some(value: T)

  datatype Result<+R, +E> = Success(value: R) | Failure(error: E)
}
