/**
  Failure-carrying datatypes shared by the model: an optional value, the
  exceptions the Python code raises, the result of a call that either returns
  a value or raises, and the effect of a call on the object it was made on.
 */
module Wrappers {

  /** Python's `None` or a present value. */
  datatype Option<+T> = None | Some(value: T)

  /** The exceptions raised by the modelled code. The Python runtime's own
      message for a division by zero is not modelled; a missing attribute is
      named by the attribute. */
  datatype Error =
    | TypeError(message: string)
    | ValueError(message: string)
    | ZeroDivisionError
    | AttributeError(attribute: string)

  /** A call that returns a value or raises an exception. */
  datatype Result<+R> = Success(value: R) | Failure(error: Error) {
    predicate IsFailure() {
      Failure?
    }

    function PropagateFailure<U>(): Result<U>
      requires Failure?
    {
      Failure(error)
    }

    function Extract(): R
      requires Success?
    {
      value
    }
  }

  /** A call on a mutable object: the object's state once the call has
      returned or raised, and the exception it raised, if any. */
  datatype Effect<S> = Effect(after: S, raised: Option<Error>) {
    predicate Raised() {
      raised.Some?
    }
  }
}
