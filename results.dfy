/** Option and Result, the failure-carrying wrappers the rest of the model uses. */
module Results {

  datatype Option<+T> = None | Some(value: T)

  /** A value, or the failure that ended the computation; `:-` passes the failure on. */
  datatype Result<+T, +E> = Success(value: T) | Failure(error: E) {

    predicate IsFailure() {
      Failure?
    }

    function PropagateFailure<U>(): Result<U, E>
      requires Failure?
    {
      Failure(error)
    }

    function Extract(): T
      requires Success?
    {
      value
    }
  }
}
