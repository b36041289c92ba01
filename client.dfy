/**
 * `OTPiqClient` of src/client.ts. The network is a parameter: `post` is the
 * server's answer to a POST of a payload to /sms, and a GET is given by the
 * reply it receives. `request` becomes `Classify`, which maps a reply to the
 * body it returns or the error it throws.
 */
module Client {
  import opened Wrappers
  import opened JsValues
  import opened Types
  import opened Utils
  import opened Errors

  /**
   * What a call can throw: one of the library's errors, or the TypeError that
   * `data.error?.includes(..)` raises when `error` is a boolean, number or object.
   */
  datatype Fault = Api(err: OTPiqError) | TypeError

  /** The body `request` returns for a reply, or the error it throws. */
  function Classify(status: int, data: Body): (r: Outcome<Body, Fault>)
    ensures r.Return? <==> IsOkStatus(status)
    ensures r.Return? ==> r.value == data
    ensures r.Throw? && r.error.Api? ==> r.error.err.StatusCode() == Some(status)
    ensures r == Throw(TypeError) ==> status == 400
  {
    if IsOkStatus(status) then Return(data)
    else if status == 401 then
      Throw(Api(UnauthorizedError(TextOr(Lookup(data, "message"), "Unauthorized"))))
    else if status == 404 then
      Throw(Api(NotFoundError(TextOr(Lookup(data, "message"), "Not found"))))
    else if status == 429 then
      Throw(Api(RateLimitError(
        Lookup(data, "waitMinutes"), Lookup(data, "maxRequests"), Lookup(data, "timeWindowMinutes"))))
    else if status == 400 then
      if "requiredCredit" in data then
        Throw(Api(InsufficientCreditError(
          Lookup(data, "yourCredit"), Lookup(data, "requiredCredit"), Lookup(data, "canCover"))))
      else if "spendingThreshold" in data then
        Throw(Api(SpendingThresholdError(
          Lookup(data, "currentSpending"), Lookup(data, "spendingThreshold"), Lookup(data, "cost"))))
      else
        var error := Lookup(data, "error");
        match Includes(error, "trial mode")
        case None => Throw(TypeError)
        case Some(true) => Throw(Api(TrialModeError))
        case Some(false) =>
          match Includes(error, "SenderID")
          case None => Throw(TypeError)
          case Some(true) => Throw(Api(SenderIdError(ValueText(error))))
          case Some(false) => Throw(Api(ValidationError(TextOr(error, "Validation error"))))
    else
      Throw(Api(BaseError(
        TextOr(Or(Lookup(data, "error"), Lookup(data, "message")), "Unknown error occurred"),
        Some(status), Some(Obj(data)))))
  }

  /** `request` applied to one reply. */
  function Request(reply: Reply): Outcome<Body, Fault> {
    Classify(reply.status, reply.body)
  }

  /** A 200-299 reply is returned unchanged and nothing is thrown; any other status throws. */
  lemma OkReturnsBody(status: int, data: Body)
    ensures IsOkStatus(status) <==> Classify(status, data) == Return(data)
  {
  }

  /**
   * 401 and 404 are decided by the status alone, before any look at the body's
   * shape; the message is the body's `message` when truthy, else a fixed text.
   */
  lemma UnauthorizedAndNotFound(status: int, data: Body)
    ensures status == 401 ==>
      Classify(status, data) == Throw(Api(UnauthorizedError(TextOr(Lookup(data, "message"), "Unauthorized"))))
    ensures status == 404 ==>
      Classify(status, data) == Throw(Api(NotFoundError(TextOr(Lookup(data, "message"), "Not found"))))
    ensures (status == 401 || status == 404) && !Truthy(Lookup(data, "message")) ==>
      Classify(status, data).error.err.Message() == (if status == 401 then "Unauthorized" else "Not found")
    ensures (status == 401 || status == 404) && "message" in data && data["message"].Str? && data["message"].s != "" ==>
      Classify(status, data).error.err.Message() == data["message"].s
  {
  }

  /** 429 carries exactly the body's three rate-limit fields, whatever else the body holds. */
  lemma RateLimitCarriesFields(data: Body)
    ensures Classify(429, data) == Throw(Api(RateLimitError(
      Lookup(data, "waitMinutes"), Lookup(data, "maxRequests"), Lookup(data, "timeWindowMinutes"))))
  {
  }

  /** Which error a reply yields, stated as a condition on the status and the body (both directions). */
  lemma KindByStatus(status: int, data: Body)
    ensures (var r := Classify(status, data); r.Throw? && r.error.Api? && r.error.err.UnauthorizedError?)
      <==> status == 401
    ensures (var r := Classify(status, data); r.Throw? && r.error.Api? && r.error.err.NotFoundError?)
      <==> status == 404
    ensures (var r := Classify(status, data); r.Throw? && r.error.Api? && r.error.err.RateLimitError?)
      <==> status == 429
    ensures (var r := Classify(status, data); r.Throw? && r.error.Api? && r.error.err.BaseError?)
      <==> !IsOkStatus(status) && status != 400 && status != 401 && status != 404 && status != 429
  {
  }

  /**
   * The rungs of a 400: `requiredCredit`, then `spendingThreshold`, then
   * "trial mode", then "SenderID", then a validation error; each rung holds
   * exactly when the earlier ones fail and its own test succeeds.
   */
  lemma BadRequestPrecedence(data: Body)
    ensures Classify(400, data).Throw?
    ensures (var e := Classify(400, data).error; e.Api? && e.err.InsufficientCreditError?)
      <==> "requiredCredit" in data
    ensures (var e := Classify(400, data).error; e.Api? && e.err.SpendingThresholdError?)
      <==> "requiredCredit" !in data && "spendingThreshold" in data
    ensures Classify(400, data) == Throw(Api(TrialModeError))
      <==> "requiredCredit" !in data && "spendingThreshold" !in data
           && Includes(Lookup(data, "error"), "trial mode") == Some(true)
    ensures (var e := Classify(400, data).error; e.Api? && e.err.SenderIdError?)
      <==> "requiredCredit" !in data && "spendingThreshold" !in data
           && Includes(Lookup(data, "error"), "trial mode") == Some(false)
           && Includes(Lookup(data, "error"), "SenderID") == Some(true)
    ensures (var e := Classify(400, data).error; e.Api? && e.err.ValidationError?)
      <==> "requiredCredit" !in data && "spendingThreshold" !in data
           && Includes(Lookup(data, "error"), "trial mode") == Some(false)
           && Includes(Lookup(data, "error"), "SenderID") == Some(false)
    ensures Classify(400, data) == Throw(TypeError)
      <==> "requiredCredit" !in data && "spendingThreshold" !in data
           && Includes(Lookup(data, "error"), "trial mode").None?
  {
  }

  /** The fields of the credit and spending errors are the body's own values. */
  lemma BadRequestFields(data: Body)
    ensures "requiredCredit" in data ==>
      Classify(400, data) == Throw(Api(InsufficientCreditError(
        Lookup(data, "yourCredit"), Lookup(data, "requiredCredit"), Lookup(data, "canCover"))))
    ensures "requiredCredit" !in data && "spendingThreshold" in data ==>
      Classify(400, data) == Throw(Api(SpendingThresholdError(
        Lookup(data, "currentSpending"), Lookup(data, "spendingThreshold"), Lookup(data, "cost"))))
  {
  }

  /**
   * For a textual `error`: "trial mode" wins over "SenderID"; a "SenderID"
   * text is carried verbatim; any other text, or the fallback when it is
   * empty, becomes a validation error.
   */
  lemma BadRequestByErrorText(data: Body, text: string)
    requires "requiredCredit" !in data && "spendingThreshold" !in data
    requires "error" in data && data["error"] == Str(text)
    ensures Contains(text, "trial mode") ==> Classify(400, data) == Throw(Api(TrialModeError))
    ensures !Contains(text, "trial mode") && Contains(text, "SenderID") ==>
      Classify(400, data) == Throw(Api(SenderIdError(text)))
      && Classify(400, data).error.err.Message() == text
    ensures !Contains(text, "trial mode") && !Contains(text, "SenderID") ==>
      Classify(400, data) == Throw(Api(ValidationError(if text == "" then "Validation error" else text)))
  {
  }

  /**
   * `includes` also works on an array `error`: one holding the string
   * "SenderID" but not "trial mode" gives a sender-ID error whose message,
   * the array's `String(..)` form, names "SenderID".
   */
  lemma BadRequestArrayError(data: Body, items: seq<Json>)
    requires "requiredCredit" !in data && "spendingThreshold" !in data
    requires "error" in data && data["error"] == Arr(items)
    requires Str("SenderID") in items && Str("trial mode") !in items
    ensures Classify(400, data) == Throw(Api(SenderIdError(ValueText(Some(Arr(items))))))
    ensures Contains(Classify(400, data).error.err.Message(), "SenderID")
  {
    ArrayTextContainsItems(items, "SenderID");
  }

  /** A 400 without `error` at all is a validation error with the fallback message. */
  lemma BadRequestWithoutError(data: Body)
    requires "requiredCredit" !in data && "spendingThreshold" !in data && "error" !in data
    ensures Classify(400, data) == Throw(Api(ValidationError("Validation error")))
  {
  }

  /**
   * Every other failing status gives a base error whose message is `error`,
   * else `message`, else a fixed text, carrying the status and the raw body.
   */
  lemma GenericError(status: int, data: Body)
    requires !IsOkStatus(status) && status != 400 && status != 401 && status != 404 && status != 429
    ensures Classify(status, data).Throw? && Classify(status, data).error.Api?
    ensures var e := Classify(status, data).error.err;
      e.BaseError? && e.StatusCode() == Some(status) && e.Response() == Some(Obj(data))
      && e.Message() == TextOr(Or(Lookup(data, "error"), Lookup(data, "message")), "Unknown error occurred")
    ensures var m := Classify(status, data).error.err.Message();
      (Truthy(Lookup(data, "error")) ==> m == ValueText(Lookup(data, "error")))
      && (!Truthy(Lookup(data, "error")) && Truthy(Lookup(data, "message")) ==> m == ValueText(Lookup(data, "message")))
      && (!Truthy(Lookup(data, "error")) && !Truthy(Lookup(data, "message")) ==> m == "Unknown error occurred")
  {
  }

  /** The client's own trial-mode text, sent back by a server as `error`, classifies as trial mode again. */
  lemma TrialModeTextRoundTrip(data: Body)
    requires "requiredCredit" !in data && "spendingThreshold" !in data
    requires "error" in data && data["error"] == Str(TrialModeMessage)
    ensures Classify(400, data) == Throw(Api(TrialModeError))
  {
    TrialModeMessageFixed(TrialModeError);
  }

  // ---------------------------------------------------------------------------
  // sendSMS

  const SenderIdRequired: string := "senderId is required for custom SMS type"

  /**
   * The branch selection of `sendSMS` as one value: the payload of the single
   * POST it makes, or the error it throws before making any request.
   */
  function PlanSend(o: SendSMSOptions, draw: nat -> Digit): (r: Outcome<Plan, Fault>)
    ensures r.Return? <==>
      o.smsType == "verification" || (o.smsType == "custom" && Filled(o.customMessage) && Filled(o.senderId))
    ensures r.Return? ==>
      "phoneNumber" in r.value.payload && r.value.payload["phoneNumber"] == o.phoneNumber
      && "smsType" in r.value.payload && r.value.payload["smsType"] == o.smsType
    ensures r.Return? ==> (r.value.code.Some? <==> o.smsType == "verification")
    ensures r.Return? && r.value.code.Some? ==>
      "verificationCode" in r.value.payload && r.value.payload["verificationCode"] == r.value.code.value
    ensures r.Throw? ==> r.error.Api? && r.error.err.StatusCode() == (if o.smsType == "custom" then Some(400) else None)
  {
    if o.smsType == "verification" then
      var code := ResolveCode(o.verificationCode, o.digitCount, draw);
      Return(Plan(map[
        "phoneNumber" := o.phoneNumber, "smsType" := o.smsType,
        "provider" := ProviderOrAuto(o.provider), "verificationCode" := code], Some(code)))
    else if o.smsType == "custom" then
      if !Filled(o.customMessage) then Throw(Api(ValidationError(CustomMessageRequired)))
      else if !Filled(o.senderId) then Throw(Api(ValidationError(SenderIdRequired)))
      else
        Return(Plan(map[
          "phoneNumber" := o.phoneNumber, "smsType" := o.smsType, "provider" := "sms",
          "customMessage" := o.customMessage.value, "senderId" := o.senderId.value], None))
    else
      Throw(Api(BaseError("Invalid smsType: " + o.smsType, None, None)))
  }

  /** The payload `sendSMS` posts, or `None` when it throws without a request. */
  function Posted(o: SendSMSOptions, draw: nat -> Digit): (p: Option<Payload>)
    ensures p.Some? <==>
      o.smsType == "verification" || (o.smsType == "custom" && Filled(o.customMessage) && Filled(o.senderId))
    ensures p.Some? ==> "smsType" in p.value && p.value["smsType"] == o.smsType
  {
    match PlanSend(o, draw)
    case Return(p) => Some(p.payload)
    case Throw(_) => None
  }

  /**
   * What the caller gets from the reply to a planned request: the server's
   * body on success, with the code that was sent added; the classified error
   * otherwise.
   */
  function Respond(p: Plan, reply: Reply): (r: Outcome<Body, Fault>)
    ensures r.Return? <==> IsOkStatus(reply.status)
    ensures r.Return? ==> forall k :: k in reply.body && k != "verificationCode" ==>
      k in r.value && r.value[k] == reply.body[k]
    ensures r.Return? && p.code.Some? ==>
      "verificationCode" in r.value && r.value["verificationCode"] == Str(p.code.value)
    ensures r.Return? && p.code.None? ==> r.value == reply.body
    ensures r.Throw? ==> r == Classify(reply.status, reply.body)
  {
    match Request(reply)
    case Throw(f) => Throw(f)
    case Return(body) =>
      match p.code
      case Some(code) => Return(body["verificationCode" := Str(code)])
      case None => Return(body)
  }

  /** What `sendSMS` resolves to, given the server's behaviour `post`. */
  function Sent(o: SendSMSOptions, draw: nat -> Digit, post: Payload -> Reply): (r: Outcome<Body, Fault>)
    ensures r.Return? ==> Posted(o, draw).Some? && IsOkStatus(post(Posted(o, draw).value).status)
    ensures Posted(o, draw).None? ==> r.Throw? && r.error.Api?
  {
    match PlanSend(o, draw)
    case Throw(f) => Throw(f)
    case Return(p) => Respond(p, post(p.payload))
  }

  /**
   * `sendSMS`, building `requestBody` step by step as the source does; `posted`
   * is the payload of the POST it made, `None` when it made none.
   */
  method SendSMS(options: SendSMSOptions, draw: nat -> Digit, post: Payload -> Reply)
    returns (r: Outcome<Body, Fault>, posted: Option<Payload>)
    ensures posted == Posted(options, draw)
    ensures r == Sent(options, draw, post)
  {
    var requestBody: Payload := map[
      "phoneNumber" := options.phoneNumber,
      "smsType" := options.smsType,
      "provider" := ProviderOrAuto(options.provider)];

    if options.smsType == "verification" {
      var verificationCode := ResolveCode(options.verificationCode, options.digitCount, draw);
      requestBody := requestBody["verificationCode" := verificationCode];
      posted := Some(requestBody);
      var response := Request(post(requestBody));
      if response.Throw? {
        r := response;
        return;
      }
      r := Return(response.value["verificationCode" := Str(verificationCode)]);
      return;
    }

    if options.smsType == "custom" {
      if !Filled(options.customMessage) {
        r, posted := Throw(Api(ValidationError(CustomMessageRequired))), None;
        return;
      }
      if !Filled(options.senderId) {
        r, posted := Throw(Api(ValidationError(SenderIdRequired))), None;
        return;
      }
      requestBody := requestBody + map[
        "customMessage" := options.customMessage.value,
        "senderId" := options.senderId.value,
        "provider" := "sms"];
      assert requestBody == map[
        "phoneNumber" := options.phoneNumber, "smsType" := options.smsType, "provider" := "sms",
        "customMessage" := options.customMessage.value, "senderId" := options.senderId.value];
      assert PlanSend(options, draw) == Return(Plan(requestBody, None));
      posted := Some(requestBody);
      r := Request(post(requestBody));
      return;
    }

    r, posted := Throw(Api(BaseError("Invalid smsType: " + options.smsType, None, None))), None;
  }

  /** `{ ...options, provider: p }`. */
  function WithProvider(o: SendSMSOptions, p: string): SendSMSOptions {
    o.(provider := Some(p))
  }

  method SendWhatsApp(options: SendSMSOptions, draw: nat -> Digit, post: Payload -> Reply)
    returns (r: Outcome<Body, Fault>, posted: Option<Payload>)
    ensures posted == Posted(WithProvider(options, "whatsapp"), draw)
    ensures r == Sent(WithProvider(options, "whatsapp"), draw, post)
  {
    r, posted := SendSMS(WithProvider(options, "whatsapp"), draw, post);
  }

  method SendTelegram(options: SendSMSOptions, draw: nat -> Digit, post: Payload -> Reply)
    returns (r: Outcome<Body, Fault>, posted: Option<Payload>)
    ensures posted == Posted(WithProvider(options, "telegram"), draw)
    ensures r == Sent(WithProvider(options, "telegram"), draw, post)
  {
    r, posted := SendSMS(WithProvider(options, "telegram"), draw, post);
  }

  /** `{ phoneNumber, customMessage, senderId, smsType: "custom" }`. */
  function CustomOptions(phoneNumber: string, customMessage: string, senderId: string): SendSMSOptions {
    SendSMSOptions(phoneNumber, "custom", None, Some(customMessage), Some(senderId), None, None)
  }

  method SendCustomMessage(phoneNumber: string, customMessage: string, senderId: string, post: Payload -> Reply)
    returns (r: Outcome<Body, Fault>, posted: Option<Payload>)
    ensures forall draw: nat -> Digit :: posted == Posted(CustomOptions(phoneNumber, customMessage, senderId), draw)
    ensures forall draw: nat -> Digit :: r == Sent(CustomOptions(phoneNumber, customMessage, senderId), draw, post)
  {
    var noDraw: nat -> Digit := (i: nat) => 0;
    r, posted := SendSMS(CustomOptions(phoneNumber, customMessage, senderId), noDraw, post);
  }

  /** `getCredits`: the `credit` field of the /info reply, or what `request` throws for it. */
  function GetCredits(info: Reply): (r: Outcome<Value, Fault>)
    ensures IsOkStatus(info.status) ==> r == Return(Lookup(info.body, "credit"))
    ensures !IsOkStatus(info.status) ==> r.Throw? && Request(info) == Throw(r.error)
  {
    match Request(info)
    case Return(data) => Return(Lookup(data, "credit"))
    case Throw(f) => Throw(f)
  }

  // ---------------------------------------------------------------------------
  // Properties of sending

  /** A verification send posts exactly the phone number, the kind, the channel and the resolved code. */
  lemma VerificationPayload(o: SendSMSOptions, draw: nat -> Digit)
    requires o.smsType == "verification"
    ensures Posted(o, draw).Some?
    ensures var p := Posted(o, draw).value;
      p.Keys == {"phoneNumber", "smsType", "provider", "verificationCode"}
      && p["phoneNumber"] == o.phoneNumber && p["smsType"] == "verification"
      && p["provider"] == (if Filled(o.provider) then o.provider.value else "auto")
      && p["verificationCode"] == ResolveCode(o.verificationCode, o.digitCount, draw)
  {
  }

  /**
   * The code is the supplied one, stringified, whenever that string is
   * non-empty (a number always is); otherwise it is a generated string of
   * `digitCount` (default 6) digits.
   */
  lemma ResolvedCode(o: SendSMSOptions, draw: nat -> Digit)
    requires o.smsType == "verification"
    ensures var code := Posted(o, draw).value["verificationCode"];
      (o.verificationCode.Some? && o.verificationCode.value.CodeNumber? ==>
         code == IntToDecimal(o.verificationCode.value.n))
      && (o.verificationCode.Some? && o.verificationCode.value.CodeText? && o.verificationCode.value.text != "" ==>
         code == o.verificationCode.value.text)
      && (o.verificationCode.None? || o.verificationCode == Some(CodeText("")) ==>
         code == GenerateRandomCode(o.digitCount, draw)
         && |code| == CodeLength(o.digitCount) && AllDigits(code))
  {
  }

  /**
   * A numeric code is sent as its decimal notation, which reads back as the
   * same number; a negative one carries a leading minus sign.
   */
  lemma NumericCodeRoundTrip(o: SendSMSOptions, draw: nat -> Digit, n: int)
    requires o.smsType == "verification" && o.verificationCode == Some(CodeNumber(n))
    ensures var code := Posted(o, draw).value["verificationCode"];
      n >= 0 ==> AllDigits(code) && DecimalValue(code) == n
    ensures var code := Posted(o, draw).value["verificationCode"];
      n < 0 ==> |code| > 1 && code[0] == '-' && AllDigits(code[1..]) && DecimalValue(code[1..]) == -n
  {
    if n >= 0 {
      DecimalRoundTrip(n);
    } else {
      var code := Posted(o, draw).value["verificationCode"];
      assert code == "-" + NatToDecimal(-n);
      assert code[1..] == NatToDecimal(-n);
      DecimalRoundTrip(-n);
    }
  }

  /**
   * With no supplied code and `digitCount` 0 (or negative) the code sent is
   * empty: a verification send does not always carry a non-empty code.
   */
  lemma EmptyCodeWithoutDigits(o: SendSMSOptions, draw: nat -> Digit)
    requires o.smsType == "verification" && o.verificationCode.None?
    requires o.digitCount.Some? && o.digitCount.value <= 0
    ensures Posted(o, draw).value["verificationCode"] == ""
  {
  }

  /**
   * A verification send returns the response body with `verificationCode`
   * set to the code it sent, replacing a field of that name; a failing reply
   * throws what `request` throws.
   */
  lemma VerificationResponse(o: SendSMSOptions, draw: nat -> Digit, post: Payload -> Reply)
    requires o.smsType == "verification"
    ensures var p := Posted(o, draw).value;
      var reply := post(p);
      var r := Sent(o, draw, post);
      (IsOkStatus(reply.status) ==>
         r == Return(reply.body["verificationCode" := Str(p["verificationCode"])])
         && r.value["verificationCode"] == Str(p["verificationCode"])
         && forall k :: k in reply.body && k != "verificationCode" ==> k in r.value && r.value[k] == reply.body[k])
      && (!IsOkStatus(reply.status) ==> r == Request(reply))
  {
  }

  /**
   * A custom send checks `customMessage` first and `senderId` second, and
   * throws a validation error without a request when either is missing or empty.
   */
  lemma CustomValidation(o: SendSMSOptions, draw: nat -> Digit, post: Payload -> Reply)
    requires o.smsType == "custom"
    ensures !Filled(o.customMessage) ==> Sent(o, draw, post) == Throw(Api(ValidationError(CustomMessageRequired)))
    ensures Filled(o.customMessage) && !Filled(o.senderId) ==>
      Sent(o, draw, post) == Throw(Api(ValidationError(SenderIdRequired)))
    ensures Posted(o, draw).None? <==> !Filled(o.customMessage) || !Filled(o.senderId)
  {
  }

  /**
   * A valid custom send posts the phone number, the kind, the message, the
   * sender id and channel "sms" whatever the caller asked for, and returns
   * the reply as `request` gives it, with no code added.
   */
  lemma CustomPayload(o: SendSMSOptions, draw: nat -> Digit, post: Payload -> Reply)
    requires o.smsType == "custom" && Filled(o.customMessage) && Filled(o.senderId)
    ensures Posted(o, draw).Some?
    ensures var p := Posted(o, draw).value;
      p.Keys == {"phoneNumber", "smsType", "provider", "customMessage", "senderId"}
      && p["provider"] == "sms" && p["smsType"] == "custom" && p["phoneNumber"] == o.phoneNumber
      && p["customMessage"] == o.customMessage.value && p["senderId"] == o.senderId.value
      && Sent(o, draw, post) == Request(post(p))
  {
  }

  /** Any other kind throws a base error naming it, with no status code and no request. */
  lemma InvalidSmsType(o: SendSMSOptions, draw: nat -> Digit, post: Payload -> Reply)
    requires o.smsType != "verification" && o.smsType != "custom"
    ensures Posted(o, draw).None?
    ensures Sent(o, draw, post) == Throw(Api(BaseError("Invalid smsType: " + o.smsType, None, None)))
    ensures Sent(o, draw, post).error.err.StatusCode().None?
  {
  }

  /**
   * A send makes no request exactly when its local checks fail, and then its
   * outcome does not depend on the server; otherwise it depends only on the
   * server's reply to the one payload it posts.
   */
  lemma LocalFailuresIgnoreServer(o: SendSMSOptions, draw: nat -> Digit, post1: Payload -> Reply, post2: Payload -> Reply)
    ensures Posted(o, draw).None? <==>
      (o.smsType != "verification" && o.smsType != "custom")
      || (o.smsType == "custom" && (!Filled(o.customMessage) || !Filled(o.senderId)))
    ensures Posted(o, draw).None? ==> Sent(o, draw, post1).Throw? && Sent(o, draw, post1) == Sent(o, draw, post2)
    ensures Posted(o, draw).Some? && post1(Posted(o, draw).value) == post2(Posted(o, draw).value) ==>
      Sent(o, draw, post1) == Sent(o, draw, post2)
  {
  }

  /**
   * The channel wrappers replace any provider the caller gave; the payload
   * carries their channel for a verification, and still "sms" for a custom send.
   */
  lemma ChannelOverride(o: SendSMSOptions, q: Option<string>, channel: string, draw: nat -> Digit)
    requires channel == "whatsapp" || channel == "telegram"
    ensures WithProvider(o.(provider := q), channel) == WithProvider(o, channel)
    ensures Posted(WithProvider(o, channel), draw).Some? ==>
      Posted(WithProvider(o, channel), draw).value["provider"] == (if o.smsType == "custom" then "sms" else channel)
  {
  }

  /** `sendCustomMessage` always sends a custom message, so its channel is always "sms". */
  lemma CustomMessageUsesSms(phoneNumber: string, customMessage: string, senderId: string, draw: nat -> Digit,
                             post: Payload -> Reply)
    ensures var o := CustomOptions(phoneNumber, customMessage, senderId);
      (Posted(o, draw).Some? <==> customMessage != "" && senderId != "")
      && (Posted(o, draw).Some? ==> Posted(o, draw).value["provider"] == "sms" && Posted(o, draw).value["smsType"] == "custom")
      && (customMessage == "" ==> Sent(o, draw, post) == Throw(Api(ValidationError(CustomMessageRequired))))
  {
  }

  // ---------------------------------------------------------------------------
  // Worked replies

  lemma RateLimitExample()
    ensures var data := map["waitMinutes" := Num(5), "maxRequests" := Num(10), "timeWindowMinutes" := Num(60)];
      Classify(429, data) == Throw(Api(RateLimitError(Some(Num(5)), Some(Num(10)), Some(Num(60)))))
      && Classify(429, data).error.err.Message() == "Rate limit exceeded. Please try again in 5 minutes."
  {
    var data := map["waitMinutes" := Num(5), "maxRequests" := Num(10), "timeWindowMinutes" := Num(60)];
    RateLimitCarriesFields(data);
    assert ValueText(Some(Num(5))) == "5";
  }

  lemma InsufficientCreditExample()
    ensures var data := map["error" := Str("Insufficient credit"), "requiredCredit" := Num(100),
                            "yourCredit" := Num(20), "canCover" := Bool(false)];
      Classify(400, data) == Throw(Api(InsufficientCreditError(Some(Num(20)), Some(Num(100)), Some(Bool(false)))))
  {
  }

  lemma TrialModeExample(extra: Body)
    requires "requiredCredit" !in extra && "spendingThreshold" !in extra
    ensures Classify(400, extra["error" := Str("Account in trial mode")]) == Throw(Api(TrialModeError))
  {
    var text := "Account in trial mode";
    var data := extra["error" := Str(text)];
    assert text[11..21] == "trial mode";
    ContainsAt(text, "trial mode", 11);
    BadRequestByErrorText(data, text);
  }

  lemma SuccessExample(o: SendSMSOptions, draw: nat -> Digit, post: Payload -> Reply)
    requires o.smsType == "verification" || (o.smsType == "custom" && Filled(o.customMessage) && Filled(o.senderId))
    requires var body := map["message" := Str("ok"), "smsId" := Str("abc"), "remainingCredit" := Num(10),
                             "cost" := Num(1), "canCover" := Bool(true), "paymentType" := Str("prepaid")];
      forall p :: post(p) == Reply(200, body)
    ensures var body := map["message" := Str("ok"), "smsId" := Str("abc"), "remainingCredit" := Num(10),
                            "cost" := Num(1), "canCover" := Bool(true), "paymentType" := Str("prepaid")];
      Sent(o, draw, post) == Return(
        if o.smsType == "verification"
        then body["verificationCode" := Str(ResolveCode(o.verificationCode, o.digitCount, draw))]
        else body)
  {
  }
}
