/** Option, Result and the exception kinds raised by the downloader's Python code. */
module Wrappers {

  datatype Option<+T> = None | Some(value: T)

  /** The Python exception classes that the modelled code raises or lets escape. */
  datatype Error =
    | TypeError
    | ValueError(reason: Reason)
    | IndexError
    | KeyError
    | LookupError
    | AttributeError
    | HttpError
    | IOError

  /** Why a ValueError was raised: each guard of the source has its own message. */
  datatype Reason =
    | BlankTickerOrCik
    | CikTooLong
    | AmountTooSmall
    | BadDateFormat
    | AfterTooEarly
    | AfterLaterThanBefore
    | UnsupportedFiling
    | UnpackMismatch
    | LengthMismatch

  /** The outcome of a Python method that returns nothing but may raise. */
  datatype Outcome = Pass | Fail(error: Error)

  datatype Result<+T> = Success(value: T) | Failure(error: Error) {
    predicate IsFailure() { Failure? }

    function PropagateFailure<U>(): Result<U>
      requires Failure?
    {
      Failure(error)
    }

    function Extract(): T
      requires Success?
    {
      value
    }
  }
}
