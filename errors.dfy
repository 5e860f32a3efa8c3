/** Python exceptions raised on the error paths of the image operations, and a result type for them. */
module Errors {

  /** The exception class raised by the source, with its message. */
  datatype Error =
    | ValueError(message: string)
    | TypeError(message: string)

  /** Either the value an operation returns or the exception it raises. */
  datatype Result<+T> = Success(value: T) | Failure(error: Error) {

    predicate IsFailure() {
      Failure?
    }

    function PropagateFailure<U>(): Result<U>
      requires Failure?
    {
      Failure(error)
    }

    function Extract(): T
      requires Success?
    {
      value
    }
  }

  /** A keyword argument that may be absent, as `kwargs.get` sees it. */
  datatype Option<T> = None | Some(value: T)

  /** `kwargs.get(key, default)`. */
  function GetOr<T>(o: Option<T>, default: T): T {
    if o.Some? then o.value else default
  }
}
