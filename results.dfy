/** Failure-compatible wrappers for the Go `(value, error)` return convention. */
module Results {

  /** A Go `error`, reduced to its message; its contents come from the ffcmd library. */
  type Error = string

  datatype Option<+T> = None | Some(value: T)

  /** `Success(v)` stands for `(v, nil)`, `Failure(e)` for `(nil, e)`. */
  datatype Result<+T> = Success(value: T) | Failure(error: Error) {
    predicate IsFailure() {
      Failure?
    }

    function PropagateFailure<U>(): Result<U>
      requires Failure?
    {
      Failure(error)
    }

    function Extract(): T
      requires Success?
    {
      value
    }
  }
}
