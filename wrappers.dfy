/** Option and Result, used for the source's `null`/`undefined` values and for
    external calls that either succeed or throw. */
module Wrappers {

  datatype Option<+T> = None | Some(value: T)

  datatype Result<+R, +E> = Success(value: R) | Failure(error: E)
}
