/** Option and Result, the two shapes the TypeScript code expresses with
    `null`/`undefined` and with thrown errors. */
module Wrappers {

  /** `None` stands for JavaScript `null` or `undefined`. */
  datatype Option<+T> = None | Some(value: T) {

    /** JavaScript `x ?? default`. */
    function GetOr(default: T): T {
      match this
      case Some(v) => v
      case None => default
    }

    /** JavaScript `x ?? y` where both sides may be missing. */
    function OrElse(other: Option<T>): Option<T> {
      if Some? then this else other
    }

    function Map<U>(f: T -> U): Option<U> {
      match this
      case Some(v) => Some(f(v))
      case None => None
    }
  }

  /** A value or the message of the error that was thrown instead. */
  datatype Result<+T, +E> = Ok(value: T) | Err(error: E)

  /** A value that was thrown: an `Error` instance carries a message, any
      other value (a database error object, say) does not. */
  datatype Thrown = ErrorInstance(message: string) | OtherValue

  /** `error instanceof Error ? error.message : fallback`. */
  function CaughtMessage(t: Thrown, fallback: string): string {
    match t
    case ErrorInstance(m) => m
    case OtherValue => fallback
  }
}
