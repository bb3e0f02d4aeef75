/** Failure-compatible wrappers shared by every decoder of the model. */
module Results {

  datatype Option<+T> = None | Some(value: T)

  /** The Python exceptions a record decoder can raise: `int()` on text that is not an
      integer, and indexing a decoded record past its end. */
  datatype Error = ValueError | IndexError

  /** A decoder either returns its record or raises; usable with `:-`. */
  datatype Result<+T> = Success(value: T) | Failure(error: Error) {

    predicate IsFailure() {
      Failure?
    }

    function PropagateFailure<U>(): Result<U>
      requires Failure?
    {
      Failure(error)
    }

    function Extract(): T
      requires Success?
    {
      value
    }
  }
}
