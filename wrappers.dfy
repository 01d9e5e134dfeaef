/**
 * Small value types that stand in for Java platform features the outcome
 * library relies on: null references, java.util.Optional, and the two ways a
 * library call can end abnormally (a contract violation raised by the library
 * itself, or a caller-supplied exception).
 */
module Wrappers {

  /** java.util.Optional: an object that may or may not hold a present value. */
  datatype Option<T> = None | Some(value: T)

  /** A Java reference of type T that may be null. */
  datatype Nullable<T> = Null | Ref(referent: T)

  /** Optional.ofNullable: a null reference becomes an empty Optional. */
  function OfNullable<T>(x: Nullable<T>): (o: Option<T>)
    ensures o.None? <==> x.Null?
    ensures x.Ref? ==> o.value == x.referent
  {
    match x
    case Null => None
    case Ref(t) => Some(t)
  }

  /** The contract violations the library itself raises. */
  datatype Violation =
    | InvalidState     // IllegalStateException: value() on a failure, error() on a success
    | NullArgument     // NullPointerException from requireNonNull
    | IllegalArgument  // IllegalArgumentException: a runtime cast that does not fit

  /** A call that either returns a value or fails with a contract violation. */
  datatype Checked<T> = Returned(value: T) | Violated(violation: Violation)

  /** A call that either returns normally or throws the caller's exception of type X. */
  datatype Thrown<T, X> = Returns(value: T) | Throws(exception: X)
}
