/** Optional values and results, standing for the client's `undefined`-able fields
    and for the error path of a request. */
module Wrappers {

  datatype Option<+T> = None | Some(value: T)

  datatype Result<+R, +E> = Success(value: R) | Failure(error: E)
}
