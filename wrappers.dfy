/** The two failure-carrying shapes the application uses: a value that may be
    missing (`undefined`/`null` in the JavaScript) and an operation that may throw. */
module Wrappers {

  datatype Option<+T> = None | Some(value: T)

  /** `Failure(message)` stands for a thrown `Error(message)`. */
  datatype Result<+T, +E> = Success(value: T) | Failure(error: E)
}
