/**
 * The pieces of the JavaScript runtime that the app's core relies on:
 * optional and failing values, the shape of a `fetch` exchange, the truthiness
 * of strings, `String.prototype.trim` and the decimal text of integral numbers
 * (`${n}` in a template literal).
 */
module JsRuntime {

  /** A value that may be `null` or `undefined`. */
  datatype Option<+T> = None | Some(value: T) {
    predicate IsFailure() { None? }

    function PropagateFailure<U>(): Option<U>
      requires None?
    {
      None
    }

    function Extract(): T
      requires Some?
    {
      value
    }
  }

  /** A settled promise: fulfilled with a value, or rejected with what was thrown. */
  datatype Result<+T, +E> = Success(value: T) | Failure(error: E)

  /** A thrown JavaScript error object: its constructor name and its message. */
  datatype JsError = JsError(name: string, message: string)

  /** `new Error(message)` */
  function Error(message: string): JsError {
    JsError("Error", message)
  }

  /** An HTTP request as `fetch` receives it: the method (`verb`), URL, headers and body. */
  datatype Request = Request(verb: string, url: string, headers: seq<(string, string)>, body: Option<string>)

  /** `fetch(url)` with no options: a GET without headers or body. */
  function Get(url: string): Request {
    Request("GET", url, [], None)
  }

  /**
   * How a `fetch` call settles, as far as its caller looks: rejected without a
   * response, or a response with its `ok` flag (status 200-299) and the outcome
   * of `response.json()`. Which reply a request gets is up to the server and the
   * network, so every operation that fetches takes the reply function as a parameter.
   */
  datatype HttpReply<+T> = Rejected(error: JsError) | Response(ok: bool, json: Result<T, JsError>)

  /** The truthiness of a string that may be `null` or `undefined`: only a present, non-empty string is truthy. */
  predicate Truthy(s: Option<string>) {
    s.Some? && s.value != ""
  }

  /** `s || fallback` for a string `s` that may be absent. */
  function OrElse(s: Option<string>, fallback: string): string {
    if Truthy(s) then s.value else fallback
  }

  // ---------------------------------------------------------------------------
  // String.prototype.trim

  /** WhiteSpace and LineTerminator code points of ECMA-262 (sections 11.2 and 11.3), which `trim` removes. */
  predicate IsWhiteSpace(c: char) {
    || c == '\t' || c == '\U{B}' || c == '\U{C}' || c == ' ' || c == '\U{A0}' || c == '\U{FEFF}'
    || c == '\U{1680}' || ('\U{2000}' <= c <= '\U{200A}') || c == '\U{202F}' || c == '\U{205F}' || c == '\U{3000}'
    || c == '\n' || c == '\r' || c == '\U{2028}' || c == '\U{2029}'
  }

  /** `s` without its leading white space: a suffix of `s` that starts with a non-space. */
  function TrimStart(s: string): (r: string)
    ensures |r| <= |s| && r == s[|s| - |r|..]
    ensures forall i | 0 <= i < |s| - |r| :: IsWhiteSpace(s[i])
    ensures r != [] ==> !IsWhiteSpace(r[0])
  {
    if s != [] && IsWhiteSpace(s[0]) then
      var r := TrimStart(s[1..]);
      TrimStartStep(s, r);
      r
    else s
  }

  /** One step of `TrimStart`: the first character is white space and `r` trims the rest. */
  lemma TrimStartStep(s: string, r: string)
    requires s != [] && IsWhiteSpace(s[0])
    requires |r| <= |s| - 1 && r == s[1..][|s| - 1 - |r|..]
    requires forall i | 0 <= i < |s| - 1 - |r| :: IsWhiteSpace(s[1..][i])
    ensures r == s[|s| - |r|..]
    ensures forall i | 0 <= i < |s| - |r| :: IsWhiteSpace(s[i])
  {
    forall i | 0 < i < |s| - |r|
      ensures IsWhiteSpace(s[i])
    {
      assert s[i] == s[1..][i - 1];
    }
  }

  /** `s` without its trailing white space: a prefix of `s` that ends with a non-space. */
  function TrimEnd(s: string): (r: string)
    ensures |r| <= |s| && r == s[..|r|]
    ensures forall i | |r| <= i < |s| :: IsWhiteSpace(s[i])
    ensures r != [] ==> !IsWhiteSpace(r[|r| - 1])
  {
    if s != [] && IsWhiteSpace(s[|s| - 1]) then
      var r := TrimEnd(s[..|s| - 1]);
      TrimEndStep(s, s[..|s| - 1], r);
      r
    else s
  }

  /** One step of `TrimEnd`: the last character is white space and `r` trims the rest. */
  lemma TrimEndStep(s: string, init: string, r: string)
    requires s != [] && IsWhiteSpace(s[|s| - 1]) && init == s[..|s| - 1]
    requires |r| <= |init| && r == init[..|r|]
    requires forall i | |r| <= i < |init| :: IsWhiteSpace(init[i])
    ensures r == s[..|r|]
    ensures forall i | |r| <= i < |s| :: IsWhiteSpace(s[i])
  {
    forall i | |r| <= i < |s| - 1
      ensures IsWhiteSpace(s[i])
    {
      assert s[i] == init[i];
    }
  }

  /**
   * `s.trim()`: the part of `s` between its leading and its trailing white space.
   * It is empty exactly when `s` is white space throughout.
   */
  function Trim(s: string): (r: string)
    ensures var a := |s| - |TrimStart(s)|;
      && a + |r| <= |s| && r == s[a..a + |r|]
      && (forall i | 0 <= i < a :: IsWhiteSpace(s[i]))
      && (forall i | a + |r| <= i < |s| :: IsWhiteSpace(s[i]))
    ensures r != [] ==> !IsWhiteSpace(r[0]) && !IsWhiteSpace(r[|r| - 1])
    ensures r == [] <==> forall i | 0 <= i < |s| :: IsWhiteSpace(s[i])
  {
    var t := TrimStart(s);
    var r := TrimEnd(t);
    TrimSlices(s, t, r);
    r
  }

  /**
   * How the two trimming steps sit inside `s`: `t` is `s` without a run of
   * leading white space and `r` is `t` without a run of trailing white space.
   */
  lemma TrimSlices(s: string, t: string, r: string)
    requires |t| <= |s| && t == s[|s| - |t|..]
    requires forall i | 0 <= i < |s| - |t| :: IsWhiteSpace(s[i])
    requires t != [] ==> !IsWhiteSpace(t[0])
    requires |r| <= |t| && r == t[..|r|]
    requires forall i | |r| <= i < |t| :: IsWhiteSpace(t[i])
    requires r != [] ==> !IsWhiteSpace(r[|r| - 1])
    ensures var a := |s| - |t|;
      && a + |r| <= |s| && r == s[a..a + |r|]
      && (forall i | 0 <= i < a :: IsWhiteSpace(s[i]))
      && (forall i | a + |r| <= i < |s| :: IsWhiteSpace(s[i]))
    ensures r != [] ==> !IsWhiteSpace(r[0]) && !IsWhiteSpace(r[|r| - 1])
    ensures r == [] <==> forall i | 0 <= i < |s| :: IsWhiteSpace(s[i])
  {
    var a := |s| - |t|;
    forall i | a + |r| <= i < |s|
      ensures IsWhiteSpace(s[i])
    {
      assert s[i] == t[i - a];
    }
    if r != [] {
      assert r[0] == t[0] == s[a];
    }
  }

  /** `!s.trim()`: the string is empty or white space throughout. */
  predicate IsBlank(s: string) {
    Trim(s) == ""
  }

  // ---------------------------------------------------------------------------
  // Decimal text of integral numbers

  predicate IsDigit(c: char) {
    '0' <= c <= '9'
  }

  function DigitChar(d: int): (c: char)
    requires 0 <= d < 10
    ensures IsDigit(c) && c as int - '0' as int == d
  {
    (d + '0' as int) as char
  }

  function DigitValue(c: char): int
    requires IsDigit(c)
  {
    c as int - '0' as int
  }

  /** Decimal digits of `n`, most significant first, with no leading zero. */
  function NatToText(n: nat): (r: string)
    ensures r != [] && forall i | 0 <= i < |r| :: IsDigit(r[i])
    ensures r[0] == '0' ==> r == "0"
  {
    if n < 10 then [DigitChar(n)] else NatToText(n / 10) + [DigitChar(n % 10)]
  }

  /** The text JavaScript produces for an integral number (`String(i)`, `${i}`); it reads back as `i`. */
  function NumberToText(i: int): (r: string)
    ensures ParseInt(r) == Some((i, ""))
  {
    var r := if i < 0 then "-" + NatToText(-i) else NatToText(i);
    ReadSignedText(i, r, "");
    assert r + "" == r;
    r
  }

  /** The value of a run of decimal digits. */
  function DigitsValue(ds: string): nat
    requires forall i | 0 <= i < |ds| :: IsDigit(ds[i])
  {
    if ds == [] then 0 else DigitsValue(ds[..|ds| - 1]) * 10 + DigitValue(ds[|ds| - 1])
  }

  /** Length of the run of digits that starts `s`. */
  function DigitRun(s: string): (k: nat)
    ensures k <= |s|
    ensures forall i | 0 <= i < k :: IsDigit(s[i])
    ensures k < |s| ==> !IsDigit(s[k])
  {
    if s != [] && IsDigit(s[0]) then 1 + DigitRun(s[1..]) else 0
  }

  /** Reads a run of decimal digits without a redundant leading zero, and returns its value and the text after it. */
  function ParseNat(s: string): Option<(nat, string)> {
    var k := DigitRun(s);
    if k == 0 || (k > 1 && s[0] == '0') then None else Some((DigitsValue(s[..k]), s[k..]))
  }

  /**
   * Reads an integer written as an optional minus sign and decimal digits
   * without a redundant leading zero (the integer syntax of JSON), and returns
   * its value and the text after it.
   */
  function ParseInt(s: string): Option<(int, string)> {
    if s != [] && s[0] == '-' then
      var p :- ParseNat(s[1..]);
      Some((0 - p.0, p.1))
    else
      var p :- ParseNat(s);
      Some((p.0 as int, p.1))
  }

  lemma {:induction false} DigitsValueOfText(n: nat)
    ensures DigitsValue(NatToText(n)) == n
  {
    if n >= 10 {
      var t := NatToText(n);
      assert t[..|t| - 1] == NatToText(n / 10);
      DigitsValueOfText(n / 10);
    }
  }

  /** The digits of `n` followed by `rest` read back as `n`, leaving `rest`. */
  lemma ReadNatText(n: nat, rest: string)
    requires rest == [] || !IsDigit(rest[0])
    ensures ParseNat(NatToText(n) + rest) == Some((n, rest))
  {
    var t := NatToText(n);
    var body := t + rest;
    DigitRunOf(t, rest);
    DigitsValueOfText(n);
    assert body[..|t|] == t && body[|t|..] == rest;
    assert body[0] == t[0];
  }

  /** A minus sign for a negative `i`, then the digits of its magnitude, read back as `i`, leaving `rest`. */
  lemma ReadSignedText(i: int, t: string, rest: string)
    requires t == if i < 0 then "-" + NatToText(-i) else NatToText(i)
    requires rest == [] || !IsDigit(rest[0])
    ensures ParseInt(t + rest) == Some((i, rest))
  {
    var n: nat := if i < 0 then -i else i;
    var body := NatToText(n) + rest;
    ReadNatText(n, rest);
    if i < 0 {
      var s := "-" + NatToText(n) + rest;
      assert s[0] == '-' && s[1..] == body;
    } else {
      assert IsDigit(body[0]);
    }
  }

  /** Reading back the text of an integer gives the integer and leaves what follows it. */
  lemma NumberTextRoundTrip(i: int, rest: string)
    requires rest == [] || !IsDigit(rest[0])
    ensures ParseInt(NumberToText(i) + rest) == Some((i, rest))
  {
    ReadSignedText(i, NumberToText(i), rest);
  }

  lemma {:induction false} DigitRunOf(t: string, rest: string)
    requires forall i | 0 <= i < |t| :: IsDigit(t[i])
    requires rest == [] || !IsDigit(rest[0])
    ensures DigitRun(t + rest) == |t|
  {
    if t != [] {
      assert (t + rest)[1..] == t[1..] + rest;
      DigitRunOf(t[1..], rest);
    }
  }

  /** The value of a hexadecimal digit in either case. */
  function HexValue(c: char): (r: Option<int>)
    ensures r.Some? ==> 0 <= r.value < 16
  {
    if '0' <= c <= '9' then Some(c as int - '0' as int)
    else if 'a' <= c <= 'f' then Some(c as int - 'a' as int + 10)
    else if 'A' <= c <= 'F' then Some(c as int - 'A' as int + 10)
    else None
  }

  /** `t` is what a reader leaves of `s` once it has consumed a prefix of it. */
  predicate EndsWith(s: string, t: string) {
    |t| <= |s| && s[|s| - |t|..] == t
  }

  lemma EndsWithTrans(s: string, m: string, t: string)
    requires EndsWith(s, m) && EndsWith(m, t)
    ensures EndsWith(s, t)
  {
    assert s[|s| - |t|..] == s[|s| - |m|..][|m| - |t|..];
  }

  /** What `Expect` leaves is the end of its input. */
  lemma ExpectRest(literal: string, s: string)
    requires Expect(literal, s).Some?
    ensures EndsWith(s, Expect(literal, s).value)
  {
  }

  /** What `ParseInt` leaves is the end of its input. */
  lemma ParseIntRest(s: string)
    requires ParseInt(s).Some?
    ensures EndsWith(s, ParseInt(s).value.1)
  {
  }

  /** The text after `literal` when `s` starts with it. */
  function Expect(literal: string, s: string): (r: Option<string>)
    ensures r.Some? ==> s == literal + r.value
  {
    if |literal| <= |s| && s[..|literal|] == literal then Some(s[|literal|..]) else None
  }

  lemma ExpectLiteral(literal: string, t: string)
    ensures Expect(literal, literal + t) == Some(t)
  {
    assert (literal + t)[..|literal|] == literal;
    assert (literal + t)[|literal|..] == t;
  }
}
