/** Optional values and the settlement of an asynchronous provider call. */
module Wrappers {

  /** A value that may be absent (an optional property, or `null`). */
  datatype Option<+T> = None | Some(value: T)

  /** How a provider promise settles: resolved with a value, or rejected
      with an error whose `code` is a string such as "auth/no-current-user". */
  datatype Outcome<+T> = Success(value: T) | Failure(code: string)
}
