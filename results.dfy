/**
 * `Result`: the outcome of a serialization step, a `Success` carrying a
 * value or an `Error` carrying a message and an optional cause.
 */
module Results {
  import opened Java

  /** A `Throwable` given as the cause of an error; only its description is kept. */
  datatype Throwable = Throwable(description: string)

  datatype Result<R> =
    | Success(value: R)
    | Error(message: string, cause: Option<Throwable>)

  /** `Result.success`. */
  function SuccessOf<R>(value: R): Result<R>
  {
    Success(value)
  }

  /** `Result.error(message)`: no cause. */
  function ErrorOf<R>(message: string): Result<R>
  {
    Error(message, None)
  }

  /** `Result.error(message, cause)`; a null cause is `None`. */
  function ErrorWithCause<R>(message: string, cause: Option<Throwable>): Result<R>
  {
    Error(message, cause)
  }

  function IsSuccess<R>(r: Result<R>): bool
  {
    match r
    case Success(_) => true
    case Error(_, _) => false
  }

  /** The default `isError`. */
  function IsError<R>(r: Result<R>): bool
  {
    !IsSuccess(r)
  }

  /** `result()`. */
  function ResultValue<R>(r: Result<R>): Option<R>
  {
    match r
    case Success(v) => Some(v)
    case Error(_, _) => None
  }

  /** `error()`: the result itself when it is an error. */
  function ErrorValue<R>(r: Result<R>): Option<Result<R>>
  {
    match r
    case Success(_) => None
    case Error(_, _) => Some(r)
  }

  /** `unwrap()`: the value, or `None` for the `null` an error gives. */
  function Unwrap<R>(r: Result<R>): Option<R>
  {
    match r
    case Success(v) => Some(v)
    case Error(_, _) => None
  }

  lemma SuccessLaws<R>(value: R)
    ensures IsSuccess(SuccessOf(value)) && !IsError(SuccessOf(value))
    ensures ResultValue(SuccessOf(value)) == Some(value) && ErrorValue(SuccessOf(value)) == None
    ensures Unwrap(SuccessOf(value)) == Some(value)
  {
  }

  lemma ErrorLaws<R>(message: string, cause: Option<Throwable>)
    ensures var e: Result<R> := ErrorWithCause(message, cause);
      !IsSuccess(e) && IsError(e) && ResultValue(e) == None && ErrorValue(e) == Some(e)
      && Unwrap(e) == None && e.message == message && e.cause == cause
    ensures ErrorOf<R>(message) == ErrorWithCause(message, None)
  {
  }

  /** For every result, exactly one of `result()` and `error()` is present, and `isError` is `!isSuccess`. */
  lemma ExactlyOneSide<R>(r: Result<R>)
    ensures ResultValue(r).Some? != ErrorValue(r).Some?
    ensures IsError(r) == !IsSuccess(r)
    ensures IsSuccess(r) <==> ResultValue(r).Some?
  {
  }
}
