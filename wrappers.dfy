/** Failure-compatible wrappers: Java's `null` returns and thrown exceptions
    become explicit values of these types. */
module Wrappers {

  /** `None` stands for a Java `null` result. */
  datatype Option<+T> = None | Some(value: T) {
    predicate IsFailure() {
      None?
    }

    function PropagateFailure<U>(): Option<U>
      requires None?
    {
      None
    }

    function Extract(): T
      requires Some?
    {
      value
    }
  }

  /** `Failure` stands for an exception thrown by the Java code. */
  datatype Result<+R, +E> = Success(value: R) | Failure(error: E) {
    predicate IsFailure() {
      Failure?
    }

    function PropagateFailure<U>(): Result<U, E>
      requires Failure?
    {
      Failure(error)
    }

    function Extract(): R
      requires Success?
    {
      value
    }
  }

  /** The Java exceptions the modelled code can raise. */
  datatype JavaError =
    | IndexOutOfBounds
    | NullPointer
    | NumberFormat
    | IllegalArgument
}
