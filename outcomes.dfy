/** Python's two ways of failing, as values: an optional result and a raised exception. */
module Outcomes {

  datatype Option<+T> = None | Some(value: T)

  /** The exceptions the core raises or catches. `HttpError` is FastAPI's `HTTPException`;
      every other exception (a Redis error, an upstream error, a `KeyError`) is a `Failure`
      carrying the text `str(e)` would give. */
  datatype Exception =
    | HttpError(status: int, detail: string)
    | Failure(message: string)

  /** A call that either returns a value or raises. Failure-compatible, so `:-` propagates
      a raised exception the way Python unwinds the stack. */
  datatype Outcome<+T> = Return(value: T) | Raise(exc: Exception) {
    predicate IsFailure() { Raise? }

    function PropagateFailure<U>(): Outcome<U>
      requires Raise?
    {
      Raise(exc)
    }

    function Extract(): T
      requires Return?
    {
      value
    }
  }
}
