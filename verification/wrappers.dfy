/** Option and Result, the failure-compatible wrappers the rest of the model is written in. */
module Wrappers {

  /** A value that may be missing: PHP's `null`, or a key an array does not have. */
  datatype Option<+T> = None | Some(value: T) {

    /** The value, or `default` when there is none: PHP's `$x ?? $default`. */
    function GetOr(default: T): T {
      match this
      case Some(v) => v
      case None => default
    }

    /** The value, or the given failure when there is none. */
    function ToResult<E>(error: E): (r: Result<T, E>)
      ensures r.Success? <==> Some?
      ensures r.Success? ==> r.value == value
      ensures r.Failure? ==> r.error == error
    {
      match this
      case Some(v) => Success(v)
      case None => Failure(error)
    }
  }

  /** Either a value or the exception the PHP code throws instead. */
  datatype Result<+R, +E> = Success(value: R) | Failure(error: E) {

    predicate IsFailure() {
      Failure?
    }

    function PropagateFailure<U>(): Result<U, E>
      requires Failure?
    {
      Failure(error)
    }

    function Extract(): R
      requires Success?
    {
      value
    }
  }
}
