/** Optional values and success-or-error results, used for JavaScript's
    `undefined` and for thrown `Error` messages respectively. */
module Wrappers {

  datatype Option<+T> = None | Some(value: T)

  /** A computation that either produced a value or threw an `Error` whose
      message is `error`. */
  datatype Result<+T, +E> = Ok(value: T) | Err(error: E)
}
