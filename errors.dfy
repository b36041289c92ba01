/**
 * The error taxonomy of src/errors.ts: one constructor per class, carrying the
 * arguments its JavaScript constructor takes. `Message`, `StatusCode` and
 * `Response` give the properties the constructor sets on the base error.
 */
module Errors {
  import opened Wrappers
  import opened JsValues

  const TrialModeMessage: string :=
    "Account is in " + "trial mode"
    + ", you can only send sms to your own phone number for verification, add credit to send to other numbers"

  /**
   * The insufficient-credit template, interpolating with `String(..)`: it
   * names the caller's credit at a fixed place and the required credit
   * right after ", but ".
   */
  function CreditMessage(your: Value, required: Value): (m: string)
    ensures var p := "Insufficient credit. You have ";
      OccursAt(m, ValueText(your), |p|)
      && OccursAt(m, ValueText(required), |p| + |ValueText(your)| + |", but "|)
  {
    var p, y, q := "Insufficient credit. You have ", ValueText(your), ValueText(required);
    OccursAtEnd(p, y);
    OccursExtend(p + y, y, |p|, ", but ");
    OccursExtend(p + y + ", but ", y, |p|, q);
    OccursExtend(p + y + ", but " + q, y, |p|, " is required.");
    OccursAtEnd(p + y + ", but ", q);
    OccursExtend(p + y + ", but " + q, q, |p| + |y| + 6, " is required.");
    var m := p + y + ", but " + q + " is required.";
    m
  }

  /** The rate-limit template: it names the waiting time right after its fixed prefix. */
  function RateLimitMessage(wait: Value): (m: string)
    ensures OccursAt(m, ValueText(wait), |"Rate limit exceeded. Please try again in "|)
  {
    var p, w := "Rate limit exceeded. Please try again in ", ValueText(wait);
    OccursAtEnd(p, w);
    OccursExtend(p + w, w, |p|, " minutes.");
    p + w + " minutes."
  }

  /** The spending-threshold template: the threshold first, the current spending after it. */
  function SpendingMessage(current: Value, threshold: Value): (m: string)
    ensures var p := "Project spending threshold of ";
      var mid := " IQD would be exceeded. Current spending: ";
      OccursAt(m, ValueText(threshold), |p|)
      && OccursAt(m, ValueText(current), |p| + |ValueText(threshold)| + |mid|)
  {
    var p, mid := "Project spending threshold of ", " IQD would be exceeded. Current spending: ";
    var t, c := ValueText(threshold), ValueText(current);
    OccursAtEnd(p, t);
    OccursExtend(p + t, t, |p|, mid);
    OccursExtend(p + t + mid, t, |p|, c);
    OccursExtend(p + t + mid + c, t, |p|, " IQD");
    OccursAtEnd(p + t + mid, c);
    OccursExtend(p + t + mid + c, c, |p| + |t| + |mid|, " IQD");
    var m := p + t + mid + c + " IQD";
    m
  }

  datatype OTPiqError =
    | BaseError(message: string, statusCode: Option<int>, response: Option<Json>)
    | InsufficientCreditError(yourCredit: Value, requiredCredit: Value, canCover: Value)
    | RateLimitError(waitMinutes: Value, maxRequests: Value, timeWindowMinutes: Value)
    | SpendingThresholdError(currentSpending: Value, spendingThreshold: Value, cost: Value)
    | SenderIdError(message: string)
    | TrialModeError
    | ValidationError(message: string)
    | NotFoundError(message: string)
    | UnauthorizedError(message: string)
  {
    /** `error.message`; the templates are the three functions below. */
    function Message(): (m: string)
      ensures BaseError? || SenderIdError? || ValidationError? || NotFoundError? || UnauthorizedError? ==>
        m == message
      ensures TrialModeError? ==> m == TrialModeMessage
      ensures InsufficientCreditError? ==> m == CreditMessage(yourCredit, requiredCredit)
      ensures RateLimitError? ==> m == RateLimitMessage(waitMinutes)
      ensures SpendingThresholdError? ==> m == SpendingMessage(currentSpending, spendingThreshold)
    {
      match this
      case BaseError(m, _, _) => m
      case InsufficientCreditError(your, required, _) => CreditMessage(your, required)
      case RateLimitError(wait, _, _) => RateLimitMessage(wait)
      case SpendingThresholdError(current, threshold, _) => SpendingMessage(current, threshold)
      case SenderIdError(m) => m
      case TrialModeError => TrialModeMessage
      case ValidationError(m) => m
      case NotFoundError(m) => m
      case UnauthorizedError(m) => m
    }

    /**
     * `error.statusCode`: what the class passes to the base constructor. A
     * base error has whatever it was given; a subclass always has one of the
     * four HTTP statuses the classifier dispatches on.
     */
    function StatusCode(): (s: Option<int>)
      ensures BaseError? ==> s == statusCode
      ensures !BaseError? ==> s.Some? && s.value in {400, 401, 404, 429}
    {
      match this
      case BaseError(_, s, _) => s
      case InsufficientCreditError(_, _, _) => Some(400)
      case RateLimitError(_, _, _) => Some(429)
      case SpendingThresholdError(_, _, _) => Some(400)
      case SenderIdError(_) => Some(400)
      case TrialModeError => Some(400)
      case ValidationError(_) => Some(400)
      case NotFoundError(_) => Some(404)
      case UnauthorizedError(_) => Some(401)
    }

    /** `error.response`: only a base error built with a third argument has one. */
    function Response(): Option<Json> {
      if BaseError? then response else None
    }
  }

  /** The base error keeps its message, status code and response exactly as given. */
  lemma BaseKeepsArguments(m: string, s: Option<int>, r: Option<Json>)
    ensures BaseError(m, s, r).Message() == m
    ensures BaseError(m, s, r).StatusCode() == s
    ensures BaseError(m, s, r).Response() == r
  {
  }

  /**
   * Every subclass fixes its status code (400, 401, 404 or 429) and passes
   * only a message and a status code to the base, so it has no response.
   */
  lemma SubclassShape(e: OTPiqError)
    requires !e.BaseError?
    ensures e.Response() == None
    ensures e.StatusCode().Some?
    ensures e.StatusCode() == Some(429) <==> e.RateLimitError?
    ensures e.StatusCode() == Some(404) <==> e.NotFoundError?
    ensures e.StatusCode() == Some(401) <==> e.UnauthorizedError?
    ensures e.StatusCode() == Some(400) <==>
      e.InsufficientCreditError? || e.SpendingThresholdError? || e.SenderIdError?
      || e.TrialModeError? || e.ValidationError?
  {
  }

  /** Whatever the server said, a trial-mode error carries the same fixed text. */
  lemma TrialModeMessageFixed(e: OTPiqError)
    requires e.TrialModeError?
    ensures e.Message() == TrialModeMessage && e.StatusCode() == Some(400)
    ensures Contains(e.Message(), "trial mode")
  {
    var p := "Account is in ";
    assert TrialModeMessage[|p|..|p| + 10] == "trial mode";
    ContainsAt(TrialModeMessage, "trial mode", |p|);
  }
}
