/** Optional values and the outcome of an operation that may throw. */
module Wrappers {

  /** A value that may be absent (`undefined` or `null` in the program). */
  datatype Option<+T> = None | Some(value: T)

  /** What an `async` operation settles to: a value, or a thrown `Error` whose `message` is kept. */
  datatype Result<+T> = Success(value: T) | Failure(message: string)
}
