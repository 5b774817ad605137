/** Optional values and results with an error, for the dashboard's
    `undefined`/`null` inputs and its thrown errors. */
module Wrappers {

  datatype Option<+T> = None | Some(value: T)

  datatype Result<+R, +E> = Success(value: R) | Failure(error: E)
}
