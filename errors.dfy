/** Failure values shared by every module of the model.

    The library signals every error by raising a Python exception; the
    model returns the exception's class as a value instead. */
module Errors {

  /** The exception classes the core raises. `Exception` is the bare class
      that the layer selector raises for an altitude outside 0..47 km. */
  datatype Error =
    | AttributeError
    | TypeError
    | RuntimeError
    | ValueError
    | ZeroDivisionError
    | Exception

  /** A value or the exception that was raised instead of returning it. */
  datatype Result<+T> = Success(value: T) | Failure(error: Error) {

    predicate IsFailure() {
      Failure?
    }

    function PropagateFailure<U>(): Result<U>
      requires Failure?
    {
      Failure(error)
    }

    function Extract(): T
      requires Success?
    {
      value
    }
  }

  /** The outcome of an operation that returns `None` on success. */
  datatype Outcome = Pass | Fail(error: Error)
}
