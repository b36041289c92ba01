/**
 * `OTPiqClient` of the compiled revision (dist/client.js): a shorter
 * classifier, and a custom send that checks only the message.
 */
module LegacyClient {
  import opened Wrappers
  import opened JsValues
  import opened Types
  import opened Utils
  import opened LegacyErrors

  /** `request`: the body it returns for a reply, or the error it throws. */
  function Classify(status: int, data: Body): (r: Outcome<Body, OTPiqError>)
    ensures r.Return? <==> IsOkStatus(status)
    ensures r.Return? ==> r.value == data
    ensures r.Throw? ==> r.error.StatusCode() == Some(status)
  {
    if IsOkStatus(status) then Return(data)
    else if status == 400 && "requiredCredit" in data then
      Throw(InsufficientCreditError(Lookup(data, "yourCredit"), Lookup(data, "requiredCredit")))
    else if status == 429 then
      Throw(RateLimitError(Lookup(data, "waitMinutes"), Lookup(data, "maxRequests"), Lookup(data, "timeWindowMinutes")))
    else
      Throw(BaseError(TextOr(Lookup(data, "error"), "Unknown error occurred"), Some(status), Some(Obj(data))))
  }

  function Request(reply: Reply): Outcome<Body, OTPiqError> {
    Classify(reply.status, reply.body)
  }

  /**
   * A credit error needs status 400 and a `requiredCredit` key, a rate-limit
   * error status 429; every other failure is a base error whose message is
   * `error` or a fixed text (never `message`), with the status and raw body.
   */
  lemma LegacyKinds(status: int, data: Body)
    ensures (var r := Classify(status, data); r.Throw? && r.error.InsufficientCreditError?)
      <==> status == 400 && "requiredCredit" in data
    ensures status == 400 && "requiredCredit" in data ==>
      Classify(status, data) == Throw(InsufficientCreditError(Lookup(data, "yourCredit"), Lookup(data, "requiredCredit")))
    ensures Classify(429, data) ==
      Throw(RateLimitError(Lookup(data, "waitMinutes"), Lookup(data, "maxRequests"), Lookup(data, "timeWindowMinutes")))
    ensures !IsOkStatus(status) && status != 429 && !(status == 400 && "requiredCredit" in data) ==>
      Classify(status, data) ==
      Throw(BaseError(TextOr(Lookup(data, "error"), "Unknown error occurred"), Some(status), Some(Obj(data))))
  {
  }

  /** The payload of a custom send; `JSON.stringify` drops an undefined `senderId`. */
  function CustomPayload(o: SendSMSOptions): (p: Payload)
    requires o.customMessage.Some?
    ensures "senderId" in p <==> o.senderId.Some?
    ensures o.senderId.Some? ==> p["senderId"] == o.senderId.value
    ensures "customMessage" in p && p["customMessage"] == o.customMessage.value
    ensures "provider" in p && p["provider"] == "sms"
    ensures "smsType" in p && p["smsType"] == o.smsType
  {
    var base := map["phoneNumber" := o.phoneNumber, "smsType" := o.smsType,
                    "provider" := "sms", "customMessage" := o.customMessage.value];
    match o.senderId
    case Some(id) => base["senderId" := id]
    case None => base
  }

  /** The branch selection of the compiled `sendSMS`; only the message is checked for a custom send. */
  function PlanSend(o: SendSMSOptions, draw: nat -> Digit): (r: Outcome<Plan, OTPiqError>)
    ensures r.Return? <==> o.smsType == "verification" || (o.smsType == "custom" && Filled(o.customMessage))
    ensures r.Return? ==> (r.value.code.Some? <==> o.smsType == "verification")
    ensures r.Return? && r.value.code.Some? ==>
      "verificationCode" in r.value.payload && r.value.payload["verificationCode"] == r.value.code.value
    ensures r.Throw? ==> r.error.BaseError? && r.error.StatusCode() == None
  {
    if o.smsType == "verification" then
      var code := ResolveCode(o.verificationCode, o.digitCount, draw);
      Return(Plan(map[
        "phoneNumber" := o.phoneNumber, "smsType" := o.smsType,
        "provider" := ProviderOrAuto(o.provider), "verificationCode" := code], Some(code)))
    else if o.smsType == "custom" then
      if !Filled(o.customMessage) then Throw(BaseError(CustomMessageRequired, None, None))
      else Return(Plan(CustomPayload(o), None))
    else
      Throw(BaseError("Invalid smsType: " + o.smsType, None, None))
  }

  /** The payload the compiled `sendSMS` posts, or `None` when it throws without a request. */
  function Posted(o: SendSMSOptions, draw: nat -> Digit): (p: Option<Payload>)
    ensures p.Some? <==> o.smsType == "verification" || (o.smsType == "custom" && Filled(o.customMessage))
    ensures p.Some? ==> "smsType" in p.value && p.value["smsType"] == o.smsType
  {
    match PlanSend(o, draw)
    case Return(p) => Some(p.payload)
    case Throw(_) => None
  }

  /** What the caller gets from the reply: as in src/client.ts, the code is added on success. */
  function Respond(p: Plan, reply: Reply): (r: Outcome<Body, OTPiqError>)
    ensures r.Return? <==> IsOkStatus(reply.status)
    ensures r.Return? ==> forall k :: k in reply.body && k != "verificationCode" ==>
      k in r.value && r.value[k] == reply.body[k]
    ensures r.Return? && p.code.Some? ==>
      "verificationCode" in r.value && r.value["verificationCode"] == Str(p.code.value)
    ensures r.Return? && p.code.None? ==> r.value == reply.body
    ensures r.Throw? ==> r == Classify(reply.status, reply.body)
  {
    match Request(reply)
    case Throw(e) => Throw(e)
    case Return(body) =>
      match p.code
      case Some(code) => Return(body["verificationCode" := Str(code)])
      case None => Return(body)
  }

  /** What the compiled `sendSMS` resolves to, given the server's behaviour `post`. */
  function Sent(o: SendSMSOptions, draw: nat -> Digit, post: Payload -> Reply): (r: Outcome<Body, OTPiqError>)
    ensures r.Return? ==> Posted(o, draw).Some? && IsOkStatus(post(Posted(o, draw).value).status)
    ensures Posted(o, draw).None? ==> r.Throw? && r.error.BaseError?
  {
    match PlanSend(o, draw)
    case Throw(e) => Throw(e)
    case Return(p) => Respond(p, post(p.payload))
  }

  /** `sendSMS` of the compiled revision, building `requestBody` step by step. */
  method SendSMS(options: SendSMSOptions, draw: nat -> Digit, post: Payload -> Reply)
    returns (r: Outcome<Body, OTPiqError>, posted: Option<Payload>)
    ensures posted == Posted(options, draw)
    ensures r == Sent(options, draw, post)
  {
    var requestBody: Payload := map[
      "phoneNumber" := options.phoneNumber,
      "smsType" := options.smsType,
      "provider" := ProviderOrAuto(options.provider)];

    if options.smsType == "verification" {
      var verificationCode := ResolveCode(options.verificationCode, options.digitCount, draw);
      requestBody := requestBody["verificationCode" := verificationCode];
      posted := Some(requestBody);
      var response := Request(post(requestBody));
      if response.Throw? {
        r := response;
        return;
      }
      r := Return(response.value["verificationCode" := Str(verificationCode)]);
      return;
    }

    if options.smsType == "custom" {
      if !Filled(options.customMessage) {
        r, posted := Throw(BaseError(CustomMessageRequired, None, None)), None;
        return;
      }
      requestBody := requestBody + map["customMessage" := options.customMessage.value, "provider" := "sms"];
      if options.senderId.Some? {
        requestBody := requestBody["senderId" := options.senderId.value];
      }
      assert requestBody == CustomPayload(options);
      posted := Some(requestBody);
      r := Request(post(requestBody));
      return;
    }

    r, posted := Throw(BaseError("Invalid smsType: " + options.smsType, None, None)), None;
  }

  /**
   * A custom send needs only a message: it fails with a base error (no status
   * code) when the message is missing or empty, and otherwise posts with
   * channel "sms" and whatever sender id was given, none included.
   */
  lemma LegacyCustom(o: SendSMSOptions, draw: nat -> Digit, post: Payload -> Reply)
    requires o.smsType == "custom"
    ensures !Filled(o.customMessage) ==>
      Posted(o, draw).None? && Sent(o, draw, post) == Throw(BaseError(CustomMessageRequired, None, None))
      && Sent(o, draw, post).error.StatusCode().None?
    ensures Filled(o.customMessage) ==>
      Posted(o, draw).Some? && Posted(o, draw).value["provider"] == "sms"
      && Posted(o, draw).value["customMessage"] == o.customMessage.value
      && ("senderId" in Posted(o, draw).value <==> o.senderId.Some?)
      && (o.senderId.Some? ==> Posted(o, draw).value["senderId"] == o.senderId.value)
      && Sent(o, draw, post) == Request(post(Posted(o, draw).value))
  {
  }

  /** A verification send adds the resolved code to the payload and to the returned body. */
  lemma LegacyVerification(o: SendSMSOptions, draw: nat -> Digit, post: Payload -> Reply)
    requires o.smsType == "verification"
    ensures Posted(o, draw).Some?
    ensures var p := Posted(o, draw).value;
      var code := ResolveCode(o.verificationCode, o.digitCount, draw);
      p.Keys == {"phoneNumber", "smsType", "provider", "verificationCode"} && p["verificationCode"] == code
      && (IsOkStatus(post(p).status) ==> Sent(o, draw, post) == Return(post(p).body["verificationCode" := Str(code)]))
  {
  }

  /** Any other kind throws "Invalid smsType: ..." without a request. */
  lemma LegacyInvalidSmsType(o: SendSMSOptions, draw: nat -> Digit, post: Payload -> Reply)
    requires o.smsType != "verification" && o.smsType != "custom"
    ensures Posted(o, draw).None?
    ensures Sent(o, draw, post) == Throw(BaseError("Invalid smsType: " + o.smsType, None, None))
  {
  }
}
