/** Python exceptions turned into values.

    An exception is reduced to its class name (its kind) and its message; a call
    that may raise returns an Outcome instead of unwinding the stack. The
    `UnwrapError` raised by the library is one such exception. */
module Exceptions {

  /** The class of an exception (`ValueError`, `TypeError`, `UnwrapError`, ...). */
  type Kind = string

  datatype Exception = Exception(kind: Kind, message: string)

  const UnwrapErrorKind: Kind := "UnwrapError"

  /** The exception `UnwrapError(message)`. */
  function UnwrapError(message: string): Exception {
    Exception(UnwrapErrorKind, message)
  }

  /** How a call ends: it returns a value or it raises an exception. */
  datatype Outcome<T> = Returned(value: T) | Raised(exc: Exception) {

    /** Applies `f` to a returned value; a raised exception passes through. */
    function MapValue<U>(f: T -> U): Outcome<U> {
      match this
      case Returned(v) => Returned(f(v))
      case Raised(e) => Raised(e)
    }
  }
}
