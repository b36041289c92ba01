/** The request and response shapes shared by both client revisions (dist/types.d.ts). */
module Types {
  import opened Wrappers
  import opened JsValues

  /** `verificationCode?: string | number`. */
  datatype CodeInput = CodeText(text: string) | CodeNumber(n: int)

  /**
   * `SendSMSOptions`. The kind and channel are kept as plain strings because the
   * client compares them at run time and must cope with any value; a `None`
   * field is one the caller left undefined.
   */
  datatype SendSMSOptions = SendSMSOptions(
    phoneNumber: string,
    smsType: string,
    verificationCode: Option<CodeInput>,
    customMessage: Option<string>,
    senderId: Option<string>,
    provider: Option<string>,
    digitCount: Option<int>)

  /** The JSON request body. Every field is a string; undefined fields are absent. */
  type Payload = map<string, string>

  /** What the server answers to one request: the HTTP status and the parsed body. */
  datatype Reply = Reply(status: int, body: Body)

  /** The request a send decides on: the payload, and the code to report back for a verification. */
  datatype Plan = Plan(payload: Payload, code: Option<string>)

  /** The "ok status" range of the Fetch Standard, which `response.ok` tests. */
  predicate IsOkStatus(status: int) {
    200 <= status <= 299
  }

  /** Truthiness of an optional string option: present and non-empty. */
  predicate Filled(s: Option<string>) {
    s.Some? && s.value != ""
  }

  /** `code.toString()`: a string as it is, a number in decimal notation. */
  function CodeString(c: CodeInput): (s: string)
    ensures c.CodeText? ==> s == c.text
    ensures c.CodeNumber? ==> s != "" && s == IntToDecimal(c.n)
  {
    match c
    case CodeText(t) => t
    case CodeNumber(n) => IntToDecimal(n)
  }

  /** `options.provider || "auto"`. */
  function ProviderOrAuto(p: Option<string>): (r: string)
    ensures r != ""
    ensures Filled(p) ==> r == p.value
    ensures !Filled(p) ==> r == "auto"
  {
    if Filled(p) then p.value else "auto"
  }
}
