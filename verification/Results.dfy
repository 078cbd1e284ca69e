/** Optional values and fallible results, as the rest of the project uses them. */
module Results {

  datatype Option<+T> = None | Some(value: T)

  /** What a Go function returning `(T, error)` gives back. */
  datatype Result<+T, +E> = Success(value: T) | Failure(error: E) {

    predicate IsFailure() {
      Failure?
    }

    function PropagateFailure<U>(): (r: Result<U, E>)
      requires Failure?
    {
      Failure(error)
    }

    function Extract(): T
      requires Success?
    {
      value
    }
  }
}
