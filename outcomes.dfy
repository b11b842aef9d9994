/** Success and failure values shared by the whole model.

    The source raises exception classes that its own errors module does not
    define; every raise is modelled as one failure outcome, `Error`, which keeps
    the message the source formats when it raises on purpose. */
module Outcomes {

  datatype Option<+T> = None | Some(value: T) {
    function GetOr(default: T): T {
      match this
      case Some(v) => v
      case None => default
    }
  }

  datatype Error =
    | Invalid(message: string)  // a `raise` written in the source, with the message it formats
    | Crash                     // an exception Python raises by itself (TypeError, KeyError, StopIteration, ...)

  datatype Result<+T> = Success(value: T) | Failure(error: Error) {
    predicate IsFailure() {
      Failure?
    }

    function PropagateFailure<U>(): Result<U>
      requires Failure?
    {
      Failure(error)
    }

    function Extract(): T
      requires Success?
    {
      value
    }
  }

  /** The outcome of a builder method, which returns `self` or raises. */
  datatype Status = Done | Raised(error: Error)

  function StatusOf<T>(r: Result<T>): Status {
    match r
    case Success(_) => Done
    case Failure(e) => Raised(e)
  }
}
