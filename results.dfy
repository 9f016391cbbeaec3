/** Optional values and the results of operations that can throw. */
module Results {

  /** A value that may be absent (Java's nullable reference). */
  datatype Option<+T> = None | Some(value: T)

  /** The outcome of a call that returns a value or throws `error`. */
  datatype Result<+R, +E> = Success(value: R) | Failure(error: E) {

    /** Forgets the value, keeping only whether the call threw and what. */
    function ToOutcome(): Outcome<E> {
      match this
      case Success(_) => Pass
      case Failure(e) => Fail(e)
    }
  }

  /** The outcome of a `void` call: it returns normally or throws `error`. */
  datatype Outcome<+E> = Pass | Fail(error: E)
}
