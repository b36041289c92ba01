/**
 * Where the compiled revision (dist/) and the TypeScript source (src/) part
 * ways, and where they agree.
 */
module Divergences {
  import opened Wrappers
  import opened JsValues
  import opened Types
  import opened Utils
  import Errors
  import LegacyErrors
  import Client
  import LegacyClient

  /** Both revisions return a 200-299 body unchanged. */
  lemma SameOnSuccess(status: int, data: Body)
    requires IsOkStatus(status)
    ensures Client.Classify(status, data) == Return(data) && LegacyClient.Classify(status, data) == Return(data)
  {
  }

  /** A 401 is a generic error in the compiled revision but an unauthorized error in the source. */
  lemma UnauthorizedBecomesGeneric(data: Body)
    ensures Client.Classify(401, data).error == Client.Api(Errors.UnauthorizedError(TextOr(Lookup(data, "message"), "Unauthorized")))
    ensures LegacyClient.Classify(401, data).error.BaseError?
    ensures LegacyClient.Classify(401, data).error.Response() == Some(Obj(data))
    ensures LegacyClient.Classify(401, data).error.StatusCode() == Some(401)
  {
  }

  /** A 404 likewise is a generic error in the compiled revision. */
  lemma NotFoundBecomesGeneric(data: Body)
    ensures Client.Classify(404, data).error.err.NotFoundError?
    ensures LegacyClient.Classify(404, data).error.BaseError?
  {
  }

  /**
   * Without a truthy `error`, the source falls back to `message` but the
   * compiled revision goes straight to the fixed text.
   */
  lemma MessageFallbackDiffers(status: int, data: Body)
    requires !IsOkStatus(status) && status != 400 && status != 401 && status != 404 && status != 429
    requires !Truthy(Lookup(data, "error")) && Truthy(Lookup(data, "message"))
    ensures Client.Classify(status, data).error.err.Message() == ValueText(Lookup(data, "message"))
    ensures LegacyClient.Classify(status, data).error.Message() == "Unknown error occurred"
  {
  }

  /** Both revisions carry the body's three rate-limit fields and the same message on a 429. */
  lemma SameRateLimit(data: Body)
    ensures var s := Client.Classify(429, data).error.err;
      var l := LegacyClient.Classify(429, data).error;
      s.RateLimitError? && l.RateLimitError?
      && s.waitMinutes == l.waitMinutes && s.maxRequests == l.maxRequests
      && s.timeWindowMinutes == l.timeWindowMinutes && s.Message() == l.Message()
  {
  }

  /** The credit error loses `canCover` in the compiled revision; its other fields and message agree. */
  lemma CreditErrorWithoutCanCover(data: Body)
    requires "requiredCredit" in data
    ensures var s := Client.Classify(400, data).error.err;
      var l := LegacyClient.Classify(400, data).error;
      s.InsufficientCreditError? && l.InsufficientCreditError?
      && s.yourCredit == l.yourCredit && s.requiredCredit == l.requiredCredit
      && s.canCover == Lookup(data, "canCover") && s.Message() == l.Message()
  {
  }

  /**
   * Every other 400 is a generic error in the compiled revision with the status
   * and the raw body, while the source never yields a generic error for a 400.
   */
  lemma BadRequestIsGenericInLegacy(data: Body)
    requires "requiredCredit" !in data
    ensures LegacyClient.Classify(400, data) ==
      Throw(LegacyErrors.BaseError(TextOr(Lookup(data, "error"), "Unknown error occurred"), Some(400), Some(Obj(data))))
    ensures var r := Client.Classify(400, data); r.Throw? && !(r.error.Api? && r.error.err.BaseError?)
  {
  }

  /** Both revisions post the same payload and return the same body for a verification send. */
  lemma SameVerification(o: SendSMSOptions, draw: nat -> Digit, post: Payload -> Reply)
    requires o.smsType == "verification"
    ensures Client.Posted(o, draw) == LegacyClient.Posted(o, draw)
    ensures Client.Sent(o, draw, post).Return? <==> LegacyClient.Sent(o, draw, post).Return?
    ensures Client.Sent(o, draw, post).Return? ==> Client.Sent(o, draw, post).value == LegacyClient.Sent(o, draw, post).value
  {
  }

  /**
   * A custom send without a sender id is rejected by the source before any
   * request, but posted by the compiled revision with no `senderId` field.
   */
  lemma MissingSenderIdAllowedInLegacy(o: SendSMSOptions, draw: nat -> Digit, post: Payload -> Reply)
    requires o.smsType == "custom" && Filled(o.customMessage) && o.senderId.None?
    ensures Client.Posted(o, draw).None?
    ensures Client.Sent(o, draw, post) == Throw(Client.Api(Errors.ValidationError(Client.SenderIdRequired)))
    ensures LegacyClient.Posted(o, draw).Some?
    ensures "senderId" !in LegacyClient.Posted(o, draw).value
    ensures LegacyClient.Posted(o, draw).value["provider"] == "sms"
  {
  }

  /** A missing message is a validation error (status 400) in the source but a plain error without status in dist. */
  lemma MissingMessageErrorKinds(o: SendSMSOptions, draw: nat -> Digit, post: Payload -> Reply)
    requires o.smsType == "custom" && !Filled(o.customMessage)
    ensures Client.Sent(o, draw, post).error.err.ValidationError?
    ensures Client.Sent(o, draw, post).error.err.StatusCode() == Some(400)
    ensures LegacyClient.Sent(o, draw, post).error.BaseError?
    ensures LegacyClient.Sent(o, draw, post).error.StatusCode().None?
    ensures Client.Sent(o, draw, post).error.err.Message() == LegacyClient.Sent(o, draw, post).error.Message()
  {
  }

  /** When both fields are filled, the two revisions post the same custom payload. */
  lemma SameCustomWhenComplete(o: SendSMSOptions, draw: nat -> Digit)
    requires o.smsType == "custom" && Filled(o.customMessage) && Filled(o.senderId)
    ensures Client.Posted(o, draw) == LegacyClient.Posted(o, draw)
  {
  }
}
