/** Shared vocabulary: optional values and results that stop at the first error. */
module Base {

  datatype Option<+T> = None | Some(value: T)

  /** The outcome of an operation that raises: `:-` leaves at the first `Err`. */
  datatype Result<+T, +E> = Ok(value: T) | Err(error: E) {
    predicate IsFailure() {
      Err?
    }

    function PropagateFailure<U>(): Result<U, E>
      requires Err?
    {
      Err(error)
    }

    function Extract(): T
      requires Ok?
    {
      value
    }
  }

  /** A check that passes or raises, with no value of its own. */
  datatype Check<+E> = Pass | Fail(error: E) {
    predicate IsFailure() {
      Fail?
    }

    function PropagateFailure<U>(): Result<U, E>
      requires Fail?
    {
      Err(error)
    }
  }

  /** Raise `error` unless `condition` holds. */
  function Require<E>(condition: bool, error: E): Check<E> {
    if condition then Pass else Fail(error)
  }
}
