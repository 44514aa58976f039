/** Option and Result, the two failure shapes the adapter's Go code returns as (value, error). */
module Wrappers {

  datatype Option<+T> = None | Some(value: T)

  datatype Result<+R, +E> = Success(value: R) | Failure(error: E)
}
