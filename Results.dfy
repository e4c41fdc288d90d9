/** Failure-compatible wrappers shared by every module of the model. */
module Results {

  datatype Option<+T> = None | Some(value: T)

  /** A computation that either yields a value or fails with an error kind. */
  datatype Result<+T, +E> = Ok(value: T) | Err(error: E) {
    predicate IsFailure() { Err? }

    function PropagateFailure<U>(): Result<U, E>
      requires Err?
    {
      Err(error)
    }

    function Extract(): T
      requires Ok?
    {
      value
    }
  }

  /** A check that either passes or fails with an error kind (a thrown assertion). */
  datatype Outcome<+E> = Pass | Fail(error: E) {
    predicate IsFailure() { Fail? }

    function PropagateFailure(): Outcome<E>
      requires Fail?
    {
      this
    }
  }
}
