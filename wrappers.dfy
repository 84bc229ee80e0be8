/** Option and Result, used for JavaScript's `undefined`-returning lookups
    and for the exceptions the import pipeline throws. */
module Wrappers {

  datatype Option<+T> = None | Some(value: T)

  datatype Result<+T, +E> = Success(value: T) | Failure(error: E)
}
