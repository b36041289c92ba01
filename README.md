# OTPiq client: a Dafny model of its decision logic

The OTPiq client is a small REST client for a vendor's API that sends SMS,
WhatsApp and Telegram messages. This project models the three pieces of it
that make decisions, and proves what they do:

- **The reply classifier** inside `OTPiqClient.request`. It turns an HTTP
  status and a parsed JSON body into the body to return (status 200-299, the
  "ok status" of the WHATWG Fetch Standard) or into one error to throw. The
  order is 401, 404, 429, 400, then everything else. Inside 400 the order is:
  the `requiredCredit` key, the `spendingThreshold` key, the text
  "trial mode", the text "SenderID", and last a validation error.
- **`sendSMS` and its wrappers.** They validate the options, build the request
  body, make at most one POST, and shape the answer. `sendSMS` is modelled as
  an imperative method that builds `requestBody` step by step, as the source
  does. It is proved equal to a functional specification (`PlanSend`,
  `Posted`, `Sent`), and the properties are proved about that specification.
- **The error taxonomy** of `src/errors.ts`. It is one datatype with a
  constructor per class. Each constructor carries the arguments its
  JavaScript constructor takes. `Message()`, `StatusCode()` and `Response()`
  give what that constructor sets.

The compiled revision under `dist/` has a simpler classifier, fewer error
classes (only the base, credit and rate-limit errors are exported) and a
looser custom-message check. It is modelled separately
(`LegacyErrors`, `LegacyClient`). Module `Divergences` states, as lemmas,
where it differs from the source and where it agrees.

Modules:

- `Wrappers`: `Option` and `Outcome` types. An `Outcome` either returns
  (`Return`) or throws (`Throw`).
- `JsValues`: the JavaScript semantics the code relies on:
  - JSON values;
  - a missing property reads as `undefined`;
  - truthiness and `||`;
  - `String(..)` (used by `Error(message)` and template literals);
  - `x?.includes(..)`, which throws a TypeError when `x` is a boolean,
    number or object.
- `Types`: the option and reply shapes from `dist/types.d.ts`.
- `Utils`: `generateRandomCode`, plus the code-resolution expression both
  revisions share.
- `Errors`, `Client`: the source under `src/`. `LegacyErrors`,
  `LegacyClient`: the compiled revision under `dist/`. `Divergences`: the
  lemmas comparing the two.

Anything outside the program is a parameter:

- The server is a function `post` from the posted payload to a `Reply`
  (status and body). A GET is modelled by the reply it receives.
- `Math.random` is a function `draw` from position to digit.
- `sendSMS` also returns `posted`, the payload of the one POST it made, or
  `None` when it made none. This is how "no request is made" is stated.

Edge cases of the code that the model keeps:

- A verification send without a supplied code, and with `digitCount` 0 or
  negative, sends an empty code (`Client.EmptyCodeWithoutDigits`). So a
  verification send does not always carry a non-empty code.
- A 400 reply whose `error` is a boolean, number or object makes
  `data.error?.includes(..)` throw a TypeError. No library error is raised
  in that case (`Client.BadRequestPrecedence`).
- 401 and 404 fall back to the texts "Unauthorized" and "Not found" when
  `message` is falsy.
- A 400 body with a `requiredCredit` or a `spendingThreshold` key is a credit
  or spending error even when its `error` text says "trial mode"; the text is
  read only after both keys are absent.
- A negative numeric `verificationCode` is sent with its minus sign, as
  `toString()` gives it.

Definitions the contracts are stated in, each following one construct of
the code:

- `Types.IsOkStatus`: `response.ok`, a status from 200 to 299
  (src/client.ts:45).
- `JsValues.Truthy` and `JsValues.Or`: JavaScript truthiness and `||`
  (src/client.ts:48, 53, 96, 100, 123, 129).
- `JsValues.Lookup`: a property read, `undefined` for a missing key
  (src/client.ts:48-100).
- `JsValues.ValueText`, `JsonText` and `JoinItems`: `String(..)` of a value,
  as the error constructors and template literals apply it; an array is its
  items' texts joined by ",", with null items empty (src/client.ts:92, 96,
  100; src/errors.ts:19, 33, 47).
- `JsValues.TextOr`: `String(v || fallback)` (src/client.ts:48, 53, 96).
- `Utils.CodeLength`: the length `generateRandomCode` uses, 6 by default and
  0 for a negative one (dist/utils.js:4-5).
- `Errors.OTPiqError.Response`: the `response` property, set only by the base
  constructor (src/errors.ts:5).

## Model

| member | source | states |
|---|---|---|
| `JsValues.Or` | src/client.ts:100 | JavaScript `or` (a, b) is the left operand when it is truthy, else the right one; the result is truthy iff either operand is |
| `JsValues.FalsyValues` | src/client.ts:96-100 | a JavaScript value is falsy exactly when it is undefined, null, false, 0 or the empty string; every array and every object is truthy |
| `JsValues.Contains` | src/client.ts:86 | `s.includes(t)` holds iff `t` occurs in `s` at some position |
| `JsValues.ContainsAt` | src/client.ts:86 | one occurrence at any position is enough for `includes` |
| `JsValues.Includes` | src/client.ts:86-91 | `error?.includes(..)` is false for undefined/null, a substring test for strings, a test for an equal string item for arrays, and throws exactly for booleans, numbers and objects |
| `JsValues.ArrayTextContainsItems` | src/client.ts:91-92 | the `String(..)` form of an array (items joined by ",") contains the text of every string item |
| `JsValues.IntToDecimal` | src/client.ts:129 | `toString()` of an integer: non-empty decimal digits, with a leading "-" for a negative number |
| `JsValues.DecimalRoundTrip` | src/client.ts:129 | the decimal notation of a natural number reads back as that number |
| `Types.CodeString` | src/client.ts:129 | a string code stringifies to itself; a numeric code stringifies to its decimal text, which is never empty |
| `Types.ProviderOrAuto` | src/client.ts:123 | `provider or "auto"` is the caller's channel when it is non-empty, else "auto"; never empty |
| `Utils.GenerateRandomCode` | dist/utils.js:4-6 | the generated code has that many characters, all decimal digits; the i-th is the i-th random digit drawn |
| `Utils.ResolveCode` | src/client.ts:128-130 | the code is the stringified supplied code when that string is non-empty, else the generated one; it is empty iff nothing usable was supplied and the length is 0 |
| `Errors.BaseKeepsArguments` | src/errors.ts:1-9 | the base error stores its message, optional status code and optional response unchanged |
| `Errors.OTPiqError.Message` | src/errors.ts:1-90 | the base, SenderId, Validation, NotFound and Unauthorized errors carry the message they were given; the trial-mode error the fixed text; the credit, rate-limit and spending errors the text of their template |
| `Errors.OTPiqError.StatusCode` | src/errors.ts:1-90 | a base error has the status code it was given (possibly none); every subclass has one, and it is 400, 401, 404 or 429 |
| `Errors.CreditMessage` | src/errors.ts:18-21 | the credit message shows `yourCredit` at its fixed place, then `requiredCredit` right after ", but " |
| `Errors.RateLimitMessage` | src/errors.ts:32-35 | the rate-limit message shows `waitMinutes` right after "...try again in " |
| `Errors.SpendingMessage` | src/errors.ts:46-49 | the spending message shows `spendingThreshold` first and `currentSpending` after the fixed middle text |
| `Errors.SubclassShape` | src/errors.ts:12-90 | each subclass has a fixed status: 429 for rate limit, 404 for not found, 401 for unauthorized, 400 for the other five; no subclass has a response |
| `Errors.TrialModeMessageFixed` | src/errors.ts:61-68 | a trial-mode error always has the same fixed message and status 400, and that message contains "trial mode" |
| `Client.Classify` | src/client.ts:45-106 | a reply is returned iff its status is 200-299, and then its body is returned unchanged; every thrown library error has the reply's status as its status code; a TypeError can only come from a 400 |
| `Client.OkReturnsBody` | src/client.ts:45-106 | a status is in 200-299 iff the classifier returns the body unchanged |
| `Client.UnauthorizedAndNotFound` | src/client.ts:46-54 | 401 gives Unauthorized and 404 gives NotFound, whatever the body's shape; the message is the body's `message`, or "Unauthorized" / "Not found" when that is falsy |
| `Client.RateLimitCarriesFields` | src/client.ts:56-63 | 429 gives a rate-limit error carrying exactly the body's `waitMinutes`, `maxRequests` and `timeWindowMinutes` |
| `Client.KindByStatus` | src/client.ts:45-103 | Unauthorized iff 401, NotFound iff 404, RateLimit iff 429, generic iff the status is not ok and not 400/401/404/429 |
| `Client.BadRequestPrecedence` | src/client.ts:65-97 | for a 400, each error kind holds exactly when the earlier checks fail and its own succeeds: credit key, spending key, "trial mode", "SenderID", validation; the TypeError case is exactly an `error` that is a boolean, number or object |
| `Client.BadRequestFields` | src/client.ts:67-83 | the credit error carries the body's `yourCredit`, `requiredCredit`, `canCover`, even when `spendingThreshold` is present; the spending error carries `currentSpending`, `spendingThreshold`, `cost` |
| `Client.BadRequestByErrorText` | src/client.ts:85-96 | "trial mode" wins over "SenderID"; a SenderID error carries the `error` text verbatim; other text, or "Validation error" when it is empty, gives a validation error |
| `Client.BadRequestArrayError` | src/client.ts:86-92 | a 400 whose `error` is an array holding "SenderID" but not "trial mode" gives a SenderId error whose message, the array joined by ",", contains "SenderID" |
| `Client.BadRequestWithoutError` | src/client.ts:95-96 | a 400 with neither special key and no `error` is a validation error with message "Validation error" |
| `Client.GenericError` | src/client.ts:99-103 | any other failing status gives a base error with that status and the raw body; its message is `error`, else `message`, else "Unknown error occurred" |
| `Client.TrialModeTextRoundTrip` | src/client.ts:85-88 | a 400 whose `error` is the client's own trial-mode text is classified as trial mode again |
| `Client.PlanSend` | src/client.ts:117-170 | `sendSMS` goes on to a request iff the kind is "verification", or "custom" with a non-empty message and sender id; the planned payload keeps `phoneNumber` and `smsType`; a code is planned iff it is a verification, and the payload carries it; a local failure is a library error with status 400 for a custom send and none otherwise |
| `Client.Posted` | src/client.ts:117-170 | a payload is posted iff the local checks pass, and it carries the caller's `smsType` |
| `Client.Respond` | src/client.ts:133-166 | the caller gets a body iff the reply status is ok; it keeps every server field other than `verificationCode`, which is set to the code sent when there is one, and is the reply body when there is none; a failure is the classifier's error |
| `Client.Sent` | src/client.ts:117-170 | a success means a payload was posted and its reply was ok; when nothing is posted the outcome is a library error |
| `Client.SendSMS` | src/client.ts:117-170 | the step-by-step `requestBody` construction posts exactly the specified payload (or nothing) and resolves to the specified outcome |
| `Client.VerificationPayload` | src/client.ts:120-131 | a verification send posts exactly `phoneNumber`, `smsType`, `provider` (the caller's, or "auto" when falsy) and the resolved `verificationCode` |
| `Client.ResolvedCode` | src/client.ts:127-131 | a numeric code is sent as its decimal text, a non-empty string code as it is; otherwise the generated code with `digitCount` (default 6) digits is sent |
| `Client.NumericCodeRoundTrip` | src/client.ts:128-129 | a non-negative numeric code is sent as digits that read back as the same number; a negative one as "-" followed by the digits of its absolute value |
| `Client.EmptyCodeWithoutDigits` | src/client.ts:128-130 | with no supplied code and `digitCount` at most 0, the code sent is empty |
| `Client.VerificationResponse` | src/client.ts:133-141 | on success the result is the response with `verificationCode` set to the code sent, replacing a field of that name and keeping every other field; on failure it throws what `request` throws |
| `Client.CustomValidation` | src/client.ts:145-152 | a missing or empty `customMessage` is a validation error, checked before `senderId`; then a missing or empty `senderId` is one; no request is made iff either check fails |
| `Client.CustomPayload` | src/client.ts:154-166 | a valid custom send posts exactly `phoneNumber`, `smsType`, `customMessage`, `senderId` and `provider` "sms", and returns the reply unmodified |
| `Client.InvalidSmsType` | src/client.ts:169 | any other `smsType` throws "Invalid smsType: ..." with no status code and makes no request |
| `Client.LocalFailuresIgnoreServer` | src/client.ts:117-170 | no request is made exactly when a local check fails; then the outcome does not depend on the server; otherwise the outcome depends only on the reply to the one payload posted |
| `Client.SendWhatsApp` | src/client.ts:176-180 | behaves as `sendSMS` with provider "whatsapp" |
| `Client.SendTelegram` | src/client.ts:182-186 | behaves as `sendSMS` with provider "telegram" |
| `Client.ChannelOverride` | src/client.ts:176-186 | the wrapper's channel replaces the caller's provider; the payload carries it for a verification, and "sms" for a custom send |
| `Client.SendCustomMessage` | src/client.ts:188-199 | behaves as `sendSMS` with `smsType` "custom" and the given phone number, message and sender id |
| `Client.CustomMessageUsesSms` | src/client.ts:188-199 | `sendCustomMessage` posts iff the message and the sender id are non-empty, always with provider "sms"; an empty message is a validation error |
| `Client.GetCredits` | src/client.ts:205-208 | an ok /info reply yields exactly its `credit` field; a failing one throws what `request` throws |
| `Client.RateLimitExample` | src/client.ts:57-63 | the body {waitMinutes 5, maxRequests 10, timeWindowMinutes 60} gives those three values and the message "...try again in 5 minutes." |
| `Client.InsufficientCreditExample` | src/client.ts:68-74 | a 400 with requiredCredit 100, yourCredit 20, canCover false gives a credit error with exactly those fields |
| `Client.TrialModeExample` | src/client.ts:86-88 | a 400 whose `error` is "Account in trial mode" and whose body has neither a `requiredCredit` nor a `spendingThreshold` key is a trial-mode error, whatever else the body holds |
| `Client.SuccessExample` | src/client.ts:133-166 | a 200 reply comes back unchanged from a valid send, plus the resolved code for a verification |
| `LegacyErrors.LegacyShape` | dist/errors.js:5-28 | the base error stores status code and response as given; the credit error has status 400, the rate-limit error 429, neither has a response |
| `LegacyErrors.OTPiqError.Message` | dist/errors.js:5-28 | the base error keeps its message; the credit and rate-limit errors use the same templates as src/errors.ts |
| `LegacyErrors.OTPiqError.StatusCode` | dist/errors.js:5-28 | the base error has the status code it was given; the credit error 400, the rate-limit error 429 |
| `LegacyClient.Classify` | dist/client.js:14-23 | a reply is returned unchanged iff its status is 200-299; every thrown error has the reply's status |
| `LegacyClient.LegacyKinds` | dist/client.js:15-21 | credit error iff 400 with `requiredCredit`, carrying only `yourCredit` and `requiredCredit`; 429 gives the three rate-limit fields; all else is a base error with `error` or "Unknown error occurred", the status and the body |
| `LegacyClient.CustomPayload` | dist/client.js:54 | the custom payload has provider "sms", the caller's `smsType` and message, and a `senderId` field iff one was given, holding it |
| `LegacyClient.PlanSend` | dist/client.js:31-62 | the compiled `sendSMS` goes on to a request iff the kind is "verification", or "custom" with a non-empty message; a code is planned iff it is a verification, and the payload carries it; a local failure is a base error without status code |
| `LegacyClient.Posted` | dist/client.js:31-62 | a payload is posted iff the local check passes, and it carries the caller's `smsType` |
| `LegacyClient.Respond` | dist/client.js:43-59 | the caller gets a body iff the reply status is ok; it keeps every server field other than `verificationCode`, which is set to the code sent when there is one; a failure is the classifier's error |
| `LegacyClient.Sent` | dist/client.js:31-62 | a success means a payload was posted and its reply was ok; when nothing is posted the outcome is a base error |
| `LegacyClient.SendSMS` | dist/client.js:31-62 | the step-by-step construction posts the specified payload (or nothing) and resolves to the specified outcome |
| `LegacyClient.LegacyCustom` | dist/client.js:50-60 | a missing or empty message is a base error with no status code; otherwise it posts with provider "sms", and a `senderId` field is sent iff one was given |
| `LegacyClient.LegacyVerification` | dist/client.js:39-48 | the resolved code is added to the payload and to the returned body |
| `LegacyClient.LegacyInvalidSmsType` | dist/client.js:61 | any other kind throws "Invalid smsType: ..." without a request |
| `Divergences.SameOnSuccess` | dist/client.js:14-23 | both revisions return an ok body unchanged |
| `Divergences.UnauthorizedBecomesGeneric` | dist/client.js:14-21 | a 401 is Unauthorized in the source but a base error with status 401 and the raw body in the compiled revision |
| `Divergences.NotFoundBecomesGeneric` | dist/client.js:14-21 | a 404 is NotFound in the source but a base error in the compiled revision |
| `Divergences.MessageFallbackDiffers` | dist/client.js:21 | without a truthy `error`, the source's message falls back to `message`; the compiled revision's goes straight to "Unknown error occurred" |
| `Divergences.SameRateLimit` | dist/client.js:18-19 | both revisions give the same rate-limit fields and message |
| `Divergences.CreditErrorWithoutCanCover` | dist/client.js:15-17 | both revisions give the same credit fields and message, but only the source keeps `canCover` |
| `Divergences.BadRequestIsGenericInLegacy` | dist/client.js:15-21 | a 400 without `requiredCredit` is a base error in the compiled revision, and never one in the source |
| `Divergences.SameVerification` | dist/client.js:39-48 | both revisions post the same verification payload and return the same body |
| `Divergences.MissingSenderIdAllowedInLegacy` | dist/client.js:50-59 | without a sender id the source rejects a custom send locally; the compiled revision posts it with provider "sms" and no `senderId` field |
| `Divergences.MissingMessageErrorKinds` | dist/client.js:51-53 | a missing message is a validation error with status 400 in the source, and a base error without status in the compiled revision, with the same text |
| `Divergences.SameCustomWhenComplete` | dist/client.js:54 | with both fields filled, both revisions post the same custom payload |

## Left out

- `fetch`, `response.json()`, async/await, the header merge and the URL concatenation (src/client.ts:34-43). This is I/O. The reply is a parameter, and the POST is a function `post`.
- The `OTPiqClient` constructor and its `apiKey` and `baseUrl` fields. The client only uses them to build the URL and the headers, so no class is modelled.
- `getProjectInfo`, `getSenderIds`, `trackSMS` and `getSMSStatus`. Each passes only an endpoint string to `request`. What they return is `Client.Request` of their reply.
- The randomness of `generateRandomCode`. The digits drawn are the parameter `draw`, so independence and uniformity are not stated.
- `JSON.stringify` of the payload. The payload is a map. An undefined field is absent from it, as it is from the JSON text. Key order is not modelled.
- Reply bodies that are not JSON objects, and bodies that fail to parse. Only object bodies are modelled.
- JavaScript numbers are integers here. Fractions, NaN, infinities, and the exponent notation `String` uses from 10^21 on are not modelled.
- A `verificationCode` of `null` is not distinguished from an undefined one. Both fall through to the generated code in the source as well.
- `Utils.GenerateRandomCode`: does not model the `RangeError` that `Array.from` raises for lengths above 2^32 - 1.
- The TypeScript compile-time types. At run time `smsType` and `provider` may be any string, and the model accepts any.
- JavaScript's `Error` machinery: `name`, `stack` and the prototype chain.
- The type-only files dist/types.d.ts, dist/errors.d.ts and dist/client.d.ts. They contain no behaviour. dist/types.d.ts is only the source of the option and reply shapes.
