/** Optional values and results with an error, used for JavaScript's
    `undefined`/falsy arguments and for exceptions thrown synchronously. */
module Wrappers {

  datatype Option<+T> = None | Some(value: T)

  datatype Result<+R, +E> = Success(value: R) | Failure(error: E)
}
