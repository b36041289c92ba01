/**
 * `generateRandomCode`: a string of `length` decimal digits (default 6). The
 * random source is a parameter: `draw(i)` is the digit that the i-th
 * `Math.floor(Math.random() * 10)` yields.
 */
module Utils {
  import opened Wrappers
  import opened JsValues
  import opened Types

  type Digit = d: int | 0 <= d <= 9

  /** The array length `Array.from({ length })` uses: 6 when undefined, 0 when negative. */
  function CodeLength(length: Option<int>): (n: nat)
    ensures length.None? ==> n == 6
    ensures length.Some? && length.value >= 0 ==> n == length.value
    ensures length.Some? && length.value < 0 ==> n == 0
  {
    match length
    case None => 6
    case Some(k) => if k < 0 then 0 else k
  }

  function GenerateRandomCode(length: Option<int>, draw: nat -> Digit): (code: string)
    ensures |code| == CodeLength(length) && AllDigits(code)
    ensures forall i :: 0 <= i < |code| ==> code[i] as int - '0' as int == draw(i)
  {
    var code := seq(CodeLength(length), (i: int) requires 0 <= i => DigitChar(draw(i)));
    assert forall i :: 0 <= i < |code| ==> code[i] == DigitChar(draw(i));
    code
  }

  /** The text both revisions throw when a custom send has no message. */
  const CustomMessageRequired: string := "customMessage is required for custom SMS type"

  /**
   * `options.verificationCode?.toString() || generateRandomCode(options.digitCount)`,
   * the code resolution both client revisions perform.
   */
  function ResolveCode(supplied: Option<CodeInput>, digitCount: Option<int>, draw: nat -> Digit): (code: string)
    ensures supplied.Some? && CodeString(supplied.value) != "" ==> code == CodeString(supplied.value)
    ensures !(supplied.Some? && CodeString(supplied.value) != "") ==> code == GenerateRandomCode(digitCount, draw)
    ensures code == "" <==> (supplied.None? || supplied == Some(CodeText(""))) && CodeLength(digitCount) == 0
  {
    var given := if supplied.Some? then CodeString(supplied.value) else "";
    if given != "" then given else GenerateRandomCode(digitCount, draw)
  }
}
