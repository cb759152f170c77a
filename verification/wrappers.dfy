/** Failure-carrying datatypes shared by every view.

    A Swift precondition failure (a trap) is not recoverable by the caller, but it is
    an outcome the model must be able to name, so every operation that can trap
    returns a `Result` whose `Trap` case says which check failed. */
module Wrappers {

  /** Why an operation trapped. */
  datatype Fault =
    | IndexOutOfRange       // an index or offset outside the collection's bounds
    | NumericCastOverflow   // `numericCast` of a value the target type cannot hold

  datatype Option<+T> = None | Some(value: T)

  /** The value of an operation that either returns or traps. */
  datatype Result<+T> = Ok(value: T) | Trap(fault: Fault) {

    predicate IsFailure() {
      Trap?
    }

    function PropagateFailure<U>(): Result<U>
      requires Trap?
    {
      Trap(fault)
    }

    function Extract(): T
      requires Ok?
    {
      value
    }
  }

  /** `Optional.map`. */
  function OptionMap<T, U>(o: Option<T>, f: T -> U): Option<U> {
    match o
    case Some(v) => Some(f(v))
    case None => None
  }

  /** `Optional.flatMap { $0 }` on a doubly optional value. */
  function Flatten<T>(o: Option<Option<T>>): Option<T> {
    match o
    case Some(inner) => inner
    case None => None
  }
}
