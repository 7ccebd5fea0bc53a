// Failure-compatible result types shared by every module of the model.

module Wrappers {
  datatype Option<+T> = None | Some(value: T)

  // The error families of contracterrors/errors.go that the model tells apart.
  // `Trap` is a Go run-time panic (nil dereference or index out of range); the
  // host treats it like any other abort and discards the call's writes.
  datatype Error =
    | ErrInput
    | ErrInvalidHex
    | ErrBalance
    | ErrArithmetic
    | ErrStateAccess
    | ErrIntent
    | ErrNoPermission
    | ErrInitialization
    | ErrJson
    | ErrTransaction
    | ErrSequence
    | Trap

  datatype Result<+T> = Ok(value: T) | Err(error: Error) {
    predicate IsFailure() {
      Err?
    }

    function PropagateFailure<U>(): Result<U>
      requires Err?
    {
      Err(error)
    }

    function Extract(): T
      requires Ok?
    {
      value
    }
  }
}
