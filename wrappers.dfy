/** Option and Result, the two wrappers the model uses for JavaScript's
    `null`/`undefined` and for the error-first callback convention. */
module Wrappers {

  datatype Option<T> = None | Some(value: T)

  /** The outcome an error-first callback receives: `callback(null, value)`
      or `callback(err)`. */
  datatype Result<R, E> = Success(value: R) | Failure(error: E)
}
