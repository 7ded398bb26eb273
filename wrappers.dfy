/** Option, Result and Outcome: the shapes used for JavaScript's `undefined`,
    for values that may come with a thrown error, and for checks that either
    pass or throw. */
module Wrappers {

  datatype Option<+T> = None | Some(value: T) {
    function GetOr(default: T): T {
      match this
      case Some(v) => v
      case None => default
    }
  }

  /** A computation that returned `value` or threw `error`. */
  datatype Result<+R, +E> = Ok(value: R) | Err(error: E) {
    predicate IsFailure() {
      Err?
    }

    function PropagateFailure<U>(): Result<U, E>
      requires Err?
    {
      Err(error)
    }

    function Extract(): R
      requires Ok?
    {
      value
    }
  }

  /** A check that passed or threw `error`. */
  datatype Outcome<+E> = Pass | Fail(error: E)
}
