/**
 * The error classes of the compiled revision (dist/errors.js). Only the base
 * error, the credit error and the rate-limit error exist; the credit error
 * has no `canCover`.
 */
module LegacyErrors {
  import opened Wrappers
  import opened JsValues
  import Errors

  datatype OTPiqError =
    | BaseError(message: string, statusCode: Option<int>, response: Option<Json>)
    | InsufficientCreditError(yourCredit: Value, requiredCredit: Value)
    | RateLimitError(waitMinutes: Value, maxRequests: Value, timeWindowMinutes: Value)
  {
    /** `error.message`: the two subclasses use the same templates as src/errors.ts. */
    function Message(): (m: string)
      ensures BaseError? ==> m == message
      ensures InsufficientCreditError? ==> m == Errors.CreditMessage(yourCredit, requiredCredit)
      ensures RateLimitError? ==> m == Errors.RateLimitMessage(waitMinutes)
    {
      match this
      case BaseError(m, _, _) => m
      case InsufficientCreditError(your, required) => Errors.CreditMessage(your, required)
      case RateLimitError(wait, _, _) => Errors.RateLimitMessage(wait)
    }

    /** `error.statusCode`: as given for the base error, 400 or 429 for a subclass. */
    function StatusCode(): (s: Option<int>)
      ensures BaseError? ==> s == statusCode
      ensures !BaseError? ==> s == Some(if RateLimitError? then 429 else 400)
    {
      match this
      case BaseError(_, s, _) => s
      case InsufficientCreditError(_, _) => Some(400)
      case RateLimitError(_, _, _) => Some(429)
    }

    function Response(): Option<Json> {
      if BaseError? then response else None
    }
  }

  /** The base error stores its arguments as given; the two subclasses fix their status and set no response. */
  lemma LegacyShape(e: OTPiqError)
    ensures e.BaseError? ==> e.Message() == e.message && e.StatusCode() == e.statusCode && e.Response() == e.response
    ensures e.InsufficientCreditError? ==> e.StatusCode() == Some(400) && e.Response() == None
    ensures e.RateLimitError? ==> e.StatusCode() == Some(429) && e.Response() == None
  {
  }
}
