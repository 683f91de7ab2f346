/** Failure-compatible wrappers used for PHP's `null` results and thrown exceptions. */
module Results {

  datatype Option<+T> = None | Some(value: T)

  /** A value, or the exception that a PHP call throws instead of returning. */
  datatype Result<+T, +E> = Success(value: T) | Failure(error: E) {
    predicate IsFailure() { Failure? }

    function PropagateFailure<U>(): Result<U, E>
      requires Failure?
    {
      Failure(error)
    }

    function Extract(): T
      requires Success?
    {
      value
    }
  }

  /** The outcome of a PHP call made for its effect: it returns, or it throws. */
  datatype Outcome<+E> = Pass | Fail(error: E) {
    predicate IsFailure() { Fail? }

    function PropagateFailure(): Outcome<E>
      requires Fail?
    {
      this
    }
  }
}
