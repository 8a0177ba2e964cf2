/** Go's error conventions, as values.
    An `Error` is compared by identity only: the model never inspects its text. */
module Base {

  /** A non-nil Go `error`. */
  datatype Error = Error(message: string)

  /** A Go function that returns only `error`: nil (Pass) or an error (Fail). */
  datatype Outcome = Pass | Fail(error: Error)

  /** A Go `(T, error)` return in which exactly one half is meaningful. */
  datatype Result<T> = Ok(value: T) | Err(error: Error)

  datatype Option<T> = None | Some(value: T)
}
