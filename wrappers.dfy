/** Failure-compatible wrappers shared by the model: an optional value (a JavaScript
    value that may be `undefined`) and a result that is either a value or the error
    the source would throw. */
module Wrappers {

  datatype Option<+T> = None | Some(value: T) {
    predicate IsFailure() { None? }

    function PropagateFailure<U>(): Option<U>
      requires None?
    {
      None
    }

    function Extract(): T
      requires Some?
    {
      value
    }

    function GetOr(default: T): T {
      if Some? then value else default
    }
  }

  datatype Result<+R, +E> = Success(value: R) | Failure(error: E) {
    predicate IsFailure() { Failure? }

    function PropagateFailure<U>(): Result<U, E>
      requires Failure?
    {
      Failure(error)
    }

    function Extract(): R
      requires Success?
    {
      value
    }
  }

  /** The exceptions the modelled JavaScript can raise: a `TypeError` from reading a
      property of `undefined`, a `ReferenceError` from an undeclared name, a failed
      `assert(...)`, and the `Error` thrown by a way whose coordinate list does not
      match its node list. */
  datatype JsError =
    | TypeError
    | ReferenceError
    | AssertionError
    | LengthMismatch(coordinates: nat, nodes: nat)
}
