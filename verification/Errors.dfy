/**
 The error taxonomy of payment processing: which failures a worker retries and
 which end the payment at once.
 */
module Errors {

  datatype ErrorCode =
    | CircuitOpen
    | RateLimited
    | GatewayUnavailable
    | GatewayTimeout
    | ServerError
    | NetworkError
    | CardDeclined
    | InvalidCard
    | InsufficientFunds
    | Fraud
    | RefundFailed
    | SettleFailed
    | ReserveFailed
    | Unknown

  const RETRYABLE_CODES: set<ErrorCode> :=
    {CircuitOpen, RateLimited, GatewayUnavailable, GatewayTimeout, ServerError, NetworkError, Unknown}

  predicate IsTransient(code: ErrorCode) {
    code in RETRYABLE_CODES
  }

  function ClassifyHttpStatus(httpStatus: int): ErrorCode {
    if httpStatus == 429 then RateLimited
    else if httpStatus == 503 || httpStatus == 502 then GatewayUnavailable
    else if httpStatus >= 500 then ServerError
    else if httpStatus == 400 then CardDeclined
    else if httpStatus == 402 then InsufficientFunds
    else if httpStatus == 401 then Fraud
    else Unknown
  }

  /** A failure as the worker catches it: already classified, or anything else. */
  datatype RawFailure = Classified(code: ErrorCode) | Unclassified(message: string)

  function ToProcessingError(raw: RawFailure, fallback: ErrorCode := Unknown): ErrorCode {
    match raw
    case Classified(code) => code
    case Unclassified(_) => fallback
  }

  /** Two statuses that ask the caller to slow down: the ones the token bucket reacts to. */
  predicate IsThrottle(httpStatus: int) {
    httpStatus == 429 || httpStatus == 503
  }

  /** Failures of the provider, of the way to it, or of unknown nature. */
  predicate MayPass(code: ErrorCode) {
    code in {CircuitOpen, RateLimited, GatewayUnavailable, GatewayTimeout, ServerError, NetworkError, Unknown}
  }

  /** Rejections of the payment itself, and failures after which money has moved. */
  predicate CannotBeMended(code: ErrorCode) {
    code in {CardDeclined, InvalidCard, InsufficientFunds, Fraud, RefundFailed, SettleFailed, ReserveFailed}
  }

  /** Every failure is retried, or ends the payment. */
  lemma EveryCodeIsSorted(code: ErrorCode)
    ensures IsTransient(code) <==> MayPass(code)
    ensures !IsTransient(code) <==> CannotBeMended(code)
  {
    match code {
      case CircuitOpen | RateLimited | GatewayUnavailable | GatewayTimeout | ServerError | NetworkError | Unknown =>
      case _ =>
    }
  }

  /**
   What each HTTP status means.  The only ones that end a payment without a retry are 400,
   401 and 402; in particular every throttling answer is retried, and so is every failure
   that nobody has classified.
   */
  lemma StatusesAreSorted(httpStatus: int, message: string)
    ensures httpStatus == 429 ==> ClassifyHttpStatus(httpStatus) == RateLimited
    ensures httpStatus in {502, 503} ==> ClassifyHttpStatus(httpStatus) == GatewayUnavailable
    ensures httpStatus >= 500 && httpStatus !in {502, 503} ==> ClassifyHttpStatus(httpStatus) == ServerError
    ensures httpStatus == 400 ==> ClassifyHttpStatus(httpStatus) == CardDeclined
    ensures httpStatus == 401 ==> ClassifyHttpStatus(httpStatus) == Fraud
    ensures httpStatus == 402 ==> ClassifyHttpStatus(httpStatus) == InsufficientFunds
    ensures httpStatus < 500 && httpStatus !in {400, 401, 402, 429} ==> ClassifyHttpStatus(httpStatus) == Unknown
    ensures CannotBeMended(ClassifyHttpStatus(httpStatus)) <==> httpStatus in {400, 401, 402}
    ensures IsThrottle(httpStatus) <==> httpStatus in {429, 503}
    ensures MayPass(ToProcessingError(Unclassified(message)))
    ensures forall code :: ToProcessingError(Classified(code)) == code
  {
  }
}
