/** The parts of the JavaScript and React Native runtime that the three
    screens lean on: optional values, parsed JSON values and their
    truthiness, the characters the regular-expression class `\s` matches,
    `Number.prototype.toString` on list indices, and the alert dialog. */
module Runtime {

  datatype Option<+T> = None | Some(value: T)

  /** An alert dialog: a title, a message and, when its "OK" button
      navigates somewhere, the name of the route it navigates to. */
  datatype Alert = Alert(title: string, message: string, okRoute: Option<string>)

  function ErrorAlert(message: string): (a: Alert)
    ensures a.title == "Error" && a.message == message && a.okRoute.None?
  {
    Alert("Error", message, None)
  }

  /** A value produced by `response.json()`. Objects map each key to the
      last value given for it, as `JSON.parse` does. */
  datatype Json =
    | JNull
    | JBool(b: bool)
    | JNumber(n: real)
    | JString(s: string)
    | JArray(items: seq<Json>)
    | JObject(fields: map<string, Json>)

  /** JavaScript truthiness: `null`, `false`, `0` and `""` are falsy;
      every array and every object, even an empty one, is truthy. */
  predicate Truthy(v: Json) {
    match v
    case JNull => false
    case JBool(b) => b
    case JNumber(n) => n != 0.0
    case JString(s) => s != ""
    case JArray(_) => true
    case JObject(_) => true
  }

  /** Reading `v.key` on a non-null value: an object's own property, or
      `undefined` (None) for a missing key and for every other kind of
      value. Reading a property of `null` throws, so callers rule it out. */
  function Property(v: Json, key: string): (r: Option<Json>)
    requires !v.JNull?
    ensures r.Some? <==> v.JObject? && key in v.fields
    ensures r.Some? ==> r.value == v.fields[key]
  {
    if v.JObject? && key in v.fields then Some(v.fields[key]) else None
  }

  /** `a || b` where `a` may be `undefined`: `a` when it is truthy, else `b`. */
  function Or(a: Option<Json>, b: Json): (r: Json)
    ensures a.Some? && Truthy(a.value) ==> r == a.value
    ensures !(a.Some? && Truthy(a.value)) ==> r == b
  {
    if a.Some? && Truthy(a.value) then a.value else b
  }

  /** The characters the class `\s` matches in a JavaScript regular
      expression: the ECMAScript WhiteSpace and LineTerminator characters. */
  predicate IsWhitespace(c: char) {
    c == '\t' || c == '\n' || c == '\U{B}' || c == '\U{C}' || c == '\r' || c == ' '
    || c == '\U{A0}' || c == '\U{1680}' || ('\U{2000}' <= c <= '\U{200A}')
    || c == '\U{2028}' || c == '\U{2029}' || c == '\U{202F}' || c == '\U{205F}'
    || c == '\U{3000}' || c == '\U{FEFF}'
  }

  predicate IsDigitChar(c: char) {
    '0' <= c <= '9'
  }

  function Digit(d: nat): (c: char)
    requires d < 10
    ensures IsDigitChar(c) && c as int - '0' as int == d
  {
    (('0' as int) + d) as char
  }

  /** The number a string of decimal digits denotes, read most
      significant digit first. */
  function DigitsValue(s: string): int
    requires forall i :: 0 <= i < |s| ==> IsDigitChar(s[i])
  {
    if s == [] then 0
    else DigitsValue(s[..|s| - 1]) * 10 + (s[|s| - 1] as int - '0' as int)
  }

  /** `n.toString()` for a non-negative integer: decimal digits that
      denote `n`, most significant first, with no leading zero. */
  function DecimalString(n: nat): (s: string)
    ensures 1 <= |s|
    ensures |s| == 1 <==> n < 10
    ensures forall i :: 0 <= i < |s| ==> IsDigitChar(s[i])
    ensures DigitsValue(s) == n
    ensures s[0] == '0' ==> n == 0
    decreases n
  {
    if n < 10 then [Digit(n)]
    else
      var prefix := DecimalString(n / 10);
      assert (prefix + [Digit(n % 10)])[..|prefix|] == prefix;
      prefix + [Digit(n % 10)]
  }

  /** Different numbers print differently, so index strings are distinct keys. */
  lemma DecimalStringInjective(a: nat, b: nat)
    requires DecimalString(a) == DecimalString(b)
    ensures a == b
  {
  }
}
