/**
 * The slice of JavaScript value semantics the client relies on: parsed JSON
 * values, property lookup yielding `undefined`, truthiness and `||`, string
 * conversion (as done by `Error(message)` and template literals), and
 * `includes` reached through optional chaining.
 */
module JsValues {
  import opened Wrappers

  /** A value produced by `response.json()`. Numbers are modelled as integers. */
  datatype Json =
    | Null
    | Bool(b: bool)
    | Num(n: int)
    | Str(s: string)
    | Arr(items: seq<Json>)
    | Obj(fields: map<string, Json>)

  /** A property read: `None` is `undefined`. */
  type Value = Option<Json>

  /** A parsed JSON object body. */
  type Body = map<string, Json>

  /** `data.key`, which is `undefined` when the key is absent. */
  function Lookup(data: Body, key: string): (v: Value)
    ensures v.Some? <==> key in data
    ensures v.Some? ==> v.value == data[key]
  {
    if key in data then Some(data[key]) else None
  }

  /** JavaScript truthiness: undefined, null, false, 0 and "" are falsy. */
  predicate Truthy(v: Value) {
    match v
    case None => false
    case Some(j) =>
      match j
      case Null => false
      case Bool(b) => b
      case Num(n) => n != 0
      case Str(s) => s != ""
      case Arr(_) => true
      case Obj(_) => true
  }

  /**
   * The falsy values of JavaScript that a JSON read can produce: undefined,
   * null, false, 0 and the empty string; every other value, including an
   * empty array or object, is truthy.
   */
  lemma FalsyValues(v: Value)
    ensures !Truthy(v) <==>
      v == None || v == Some(Null) || v == Some(Bool(false)) || v == Some(Num(0)) || v == Some(Str(""))
    ensures v.Some? && (v.value.Arr? || v.value.Obj?) ==> Truthy(v)
  {
  }

  /** `a || b`: the left operand when it is truthy, the right one otherwise. */
  function Or(a: Value, b: Value): (r: Value)
    ensures Truthy(a) ==> r == a
    ensures !Truthy(a) ==> r == b
    ensures Truthy(r) <==> Truthy(a) || Truthy(b)
  {
    if Truthy(a) then a else b
  }

  /** The decimal character of one digit. */
  function DigitChar(d: int): (c: char)
    requires 0 <= d <= 9
    ensures '0' <= c <= '9' && c as int - '0' as int == d
  {
    ('0' as int + d) as char
  }

  predicate IsDigit(c: char) { '0' <= c <= '9' }

  predicate AllDigits(s: string) { forall i :: 0 <= i < |s| ==> IsDigit(s[i]) }

  /** Decimal notation of a natural number, without leading zeros. */
  function NatToDecimal(n: nat): (s: string)
    ensures |s| > 0 && AllDigits(s)
    ensures |s| > 1 ==> s[0] != '0'
  {
    if n < 10 then [DigitChar(n)] else NatToDecimal(n / 10) + [DigitChar(n % 10)]
  }

  /** The number a string of decimal digits denotes. */
  function DecimalValue(s: string): (n: nat)
    requires AllDigits(s)
  {
    if s == [] then 0 else DecimalValue(s[..|s| - 1]) * 10 + (s[|s| - 1] as int - '0' as int)
  }

  /** Reading back the decimal notation of `n` gives `n`. */
  lemma {:induction false} DecimalRoundTrip(n: nat)
    ensures DecimalValue(NatToDecimal(n)) == n
  {
    if n >= 10 {
      var s := NatToDecimal(n);
      assert s[..|s| - 1] == NatToDecimal(n / 10);
      DecimalRoundTrip(n / 10);
    }
  }

  /** `Number.prototype.toString()` of an integer (below 10^21). */
  function IntToDecimal(n: int): (s: string)
    ensures |s| > 0
    ensures n >= 0 ==> s == NatToDecimal(n)
    ensures n < 0 ==> s == "-" + NatToDecimal(-n)
  {
    if n < 0 then "-" + NatToDecimal(-n) else NatToDecimal(n)
  }

  /** `String(v)` of a JSON value. */
  function JsonText(j: Json): string
    decreases j, 1
  {
    match j
    case Null => "null"
    case Bool(b) => if b then "true" else "false"
    case Num(n) => IntToDecimal(n)
    case Str(s) => s
    case Arr(items) => JoinItems(j, items)
    case Obj(_) => "[object Object]"
  }

  /** `Array.prototype.join(",")` of the elements of `whole`; null elements print as "". */
  function JoinItems(ghost whole: Json, items: seq<Json>): string
    requires forall k :: 0 <= k < |items| ==> items[k] < whole
    decreases whole, 0, |items|
  {
    if items == [] then ""
    else
      var head := if items[0] == Null then "" else JsonText(items[0]);
      if |items| == 1 then head else head + "," + JoinItems(whole, items[1..])
  }

  /** `String(v)` of a property read, which is "undefined" for a missing one. */
  function ValueText(v: Value): (s: string)
    ensures v.None? ==> s == "undefined"
    ensures v.Some? && v.value.Str? ==> s == v.value.s
  {
    match v
    case None => "undefined"
    case Some(j) => JsonText(j)
  }

  /** `String(v || fallback)`. */
  function TextOr(v: Value, fallback: string): (s: string)
    ensures Truthy(v) ==> s == ValueText(v)
    ensures !Truthy(v) ==> s == fallback
  {
    if Truthy(v) then ValueText(v) else fallback
  }

  predicate OccursAt(s: string, t: string, i: nat) {
    i + |t| <= |s| && s[i..i + |t|] == t
  }

  /** Dropping a first character that does not start an occurrence keeps every occurrence, one place earlier. */
  lemma OccurrencesShift(s: string, t: string)
    requires |s| > 0 && !OccursAt(s, t, 0)
    ensures (exists i: nat :: OccursAt(s, t, i)) <==> (exists i: nat :: OccursAt(s[1..], t, i))
  {
    forall i: nat | OccursAt(s, t, i) ensures i > 0 && OccursAt(s[1..], t, i - 1) {
      assert s[1..][i - 1..i - 1 + |t|] == s[i..i + |t|];
    }
    forall i: nat | OccursAt(s[1..], t, i) ensures OccursAt(s, t, i + 1) {
      assert s[i + 1..i + 1 + |t|] == s[1..][i..i + |t|];
    }
  }

  /** `s.includes(t)`: `t` occurs somewhere in `s`. */
  function Contains(s: string, t: string): (r: bool)
    ensures r <==> exists i: nat :: OccursAt(s, t, i)
    decreases |s|
  {
    if OccursAt(s, t, 0) then true
    else if |s| == 0 then
      assert forall i: nat :: !OccursAt(s, t, i);
      false
    else
      OccurrencesShift(s, t);
      Contains(s[1..], t)
  }

  /** One occurrence is enough for `includes`. */
  lemma ContainsAt(s: string, t: string, i: nat)
    requires OccursAt(s, t, i)
    ensures Contains(s, t)
  {
  }

  /** A string appended to another occurs right after it. */
  lemma OccursAtEnd(a: string, b: string)
    ensures OccursAt(a + b, b, |a|)
  {
    assert (a + b)[|a|..|a| + |b|] == b;
  }

  /** Appending to a string keeps every occurrence in it where it was. */
  lemma OccursExtend(s: string, t: string, i: nat, u: string)
    requires OccursAt(s, t, i)
    ensures OccursAt(s + u, t, i)
  {
    assert (s + u)[i..i + |t|] == s[i..i + |t|];
  }

  /** An occurrence in the left part is one in the whole. */
  lemma ContainsLeft(a: string, b: string, t: string)
    requires Contains(a, t)
    ensures Contains(a + b, t)
  {
    var i: nat :| OccursAt(a, t, i);
    assert (a + b)[i..i + |t|] == a[i..i + |t|];
    ContainsAt(a + b, t, i);
  }

  /** An occurrence in the right part is one in the whole. */
  lemma ContainsRight(a: string, b: string, t: string)
    requires Contains(b, t)
    ensures Contains(a + b, t)
  {
    var i: nat :| OccursAt(b, t, i);
    assert (a + b)[|a| + i..|a| + i + |t|] == b[i..i + |t|];
    ContainsAt(a + b, t, |a| + i);
  }

  /** Joining a list that holds the string `t` gives a text that contains `t`. */
  lemma {:induction false} JoinContains(whole: Json, items: seq<Json>, t: string)
    requires forall k :: 0 <= k < |items| ==> items[k] < whole
    requires Str(t) in items
    ensures Contains(JoinItems(whole, items), t)
  {
    var head := if items[0] == Null then "" else JsonText(items[0]);
    if items[0] == Str(t) {
      assert head == t;
      assert Contains(t, t) by { assert t[0..|t|] == t; ContainsAt(t, t, 0); }
      if |items| > 1 { ContainsLeft(t, "," + JoinItems(whole, items[1..]), t); }
    } else {
      JoinContains(whole, items[1..], t);
      ContainsRight(head + ",", JoinItems(whole, items[1..]), t);
      assert JoinItems(whole, items) == (head + ",") + JoinItems(whole, items[1..]);
    }
  }

  /** `String(array)` contains every string element of the array. */
  lemma ArrayTextContainsItems(items: seq<Json>, t: string)
    requires Str(t) in items
    ensures Contains(ValueText(Some(Arr(items))), t)
  {
    JoinContains(Arr(items), items, t);
  }

  /**
   * `v?.includes(needle)`: `Some(false)` when `v` is undefined or null (the
   * chain stops), a substring test on strings, an element test on arrays,
   * and `None` when `v` has no `includes` method, so the call throws a TypeError.
   */
  function Includes(v: Value, needle: string): (r: Option<bool>)
    ensures r.None? <==> v.Some? && (v.value.Bool? || v.value.Num? || v.value.Obj?)
    ensures r == Some(true) && needle != "" ==> Truthy(v)
    ensures v.Some? && v.value.Str? ==> r == Some(Contains(v.value.s, needle))
    ensures v.Some? && v.value.Arr? ==> r == Some(Str(needle) in v.value.items)
    ensures v == None || v == Some(Null) ==> r == Some(false)
  {
    match v
    case None => Some(false)
    case Some(j) =>
      match j
      case Null => Some(false)
      case Str(s) => Some(Contains(s, needle))
      case Arr(items) => Some(Str(needle) in items)
      case _ => None
  }
}
