/**
 * Optional values and Python exceptions.
 *
 * The core is written in Python and raises exceptions on inputs of an
 * unexpected shape (a `.get` on a list, `in` on an integer, a pydantic model
 * that rejects a field).  The model makes those exits explicit: an operation
 * that can raise returns an `Outcome`, whose `Raise` case names the
 * exception class.  `Outcome` supports Dafny's `:-` so that a raise
 * propagates exactly as it does in Python.
 */
module Outcomes {

  datatype Option<T> = None | Some(value: T)

  /** The exception classes that the modelled code can raise. */
  datatype Exc =
    | TypeError
    | AttributeError
    | ValueError
    | ValidationError
    | JSONDecodeError
  {
    /** `type(e).__name__` */
    function Name(): string {
      match this
      case TypeError => "TypeError"
      case AttributeError => "AttributeError"
      case ValueError => "ValueError"
      case ValidationError => "ValidationError"
      case JSONDecodeError => "JSONDecodeError"
    }
  }

  datatype Outcome<T> = Ok(value: T) | Raise(exc: Exc)
  {
    predicate IsFailure() {
      Raise?
    }

    function PropagateFailure<U>(): Outcome<U>
      requires Raise?
    {
      Raise(exc)
    }

    function Extract(): T
      requires Ok?
    {
      value
    }
  }
}
