/** Failure-carrying values shared by the other modules. */
module Wrappers {

  /** A value that may be missing: a nil pointer, a map miss, a failed decode. */
  datatype Option<+T> = None | Some(value: T)

  /** A value or an error message, for Go's `(value, error)` return pairs. */
  datatype Result<+T> = Ok(value: T) | Err(message: string)
}
