/** Failure-compatible wrappers used by every stage of the front end. */
module Results {

  datatype Option<+T> = None | Some(value: T)

  /** A value or the reason it could not be computed; `:-` propagates the reason. */
  datatype Result<+T, +E> = Ok(value: T) | Err(error: E) {
    predicate IsFailure() {
      Err?
    }

    function PropagateFailure<U>(): Result<U, E>
      requires Err?
    {
      Err(error)
    }

    function Extract(): T
      requires Ok?
    {
      value
    }
  }
}
