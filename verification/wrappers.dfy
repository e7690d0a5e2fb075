/** Failure-compatible wrappers shared by the model.
    - Option<T>: Rust's Option.
    - Result<T, E>: Rust's Result; `:-` plays the part of `try!`.
    - Outcome<T>: what a Rust computation that may panic ends with: it returns a
      value, or it panics (an `unwrap` of an error, `unreachable!()`, a receive on
      a channel whose sender died). */
module Wrappers {

  datatype Option<+T> = None | Some(value: T) {
    predicate IsFailure() { None? }

    function PropagateFailure<U>(): Option<U>
      requires None?
    {
      None
    }

    function Extract(): T
      requires Some?
    {
      value
    }

    /** Rust's `unwrap_or`. */
    function UnwrapOr(default: T): T {
      match this
      case Some(v) => v
      case None => default
    }
  }

  datatype Result<+T, +E> = Ok(value: T) | Err(error: E) {
    predicate IsFailure() { Err? }

    function PropagateFailure<U>(): Result<U, E>
      requires Err?
    {
      Err(error)
    }

    function Extract(): T
      requires Ok?
    {
      value
    }
  }

  datatype Outcome<+T> = Returned(value: T) | Panicked {
    predicate IsFailure() { Panicked? }

    function PropagateFailure<U>(): Outcome<U>
      requires Panicked?
    {
      Panicked
    }

    function Extract(): T
      requires Returned?
    {
      value
    }
  }
}
