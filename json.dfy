/**
 * JSON text of strings as `JSON.stringify` writes it (ECMA-262, QuoteJSONString),
 * and a reader for JSON string literals standing for that part of `JSON.parse`.
 * Reading back what was written gives the original string.
 */
module Json {
  import opened JsRuntime

  /** A lower-case hexadecimal digit, as `JSON.stringify` writes them in `\u00XX`. */
  function HexLower(d: int): (c: char)
    requires 0 <= d < 16
  {
    if d < 10 then (d + '0' as int) as char else (d - 10 + 'a' as int) as char
  }

  lemma HexLowerValue(d: int)
    requires 0 <= d < 16
    ensures HexValue(HexLower(d)) == Some(d)
  {
  }

  /** The value of four hexadecimal digits. */
  function Hex4(s: string): (r: Option<int>)
    requires |s| == 4
    ensures r.Some? ==> 0 <= r.value < 0x1_0000
  {
    var a :- HexValue(s[0]);
    var b :- HexValue(s[1]);
    var c :- HexValue(s[2]);
    var d :- HexValue(s[3]);
    Some(((a * 16 + b) * 16 + c) * 16 + d)
  }

  /** What `JSON.stringify` writes for one character inside a string literal. */
  function EscapeChar(c: char): string {
    if c == '"' then "\\\""
    else if c == '\\' then "\\\\"
    else if c == '\U{8}' then "\\b"
    else if c == '\t' then "\\t"
    else if c == '\n' then "\\n"
    else if c == '\U{C}' then "\\f"
    else if c == '\r' then "\\r"
    else if c < ' ' then "\\u00" + [HexLower(c as int / 16), HexLower(c as int % 16)]
    else [c]
  }

  /** The body of a string literal, every character escaped where JSON requires it. */
  function Escape(s: string): string {
    if s == [] then "" else EscapeChar(s[0]) + Escape(s[1..])
  }

  /** `JSON.stringify(s)` for a string `s`. */
  function Quote(s: string): string {
    "\"" + Escape(s) + "\""
  }

  /**
   * The character that a backslash escape stands for, and how many characters
   * after the backslash the escape takes.
   */
  function Unescape(s: string): (r: Option<(char, nat)>)
    ensures r.Some? ==> 1 <= r.value.1 <= |s|
  {
    if s == [] then None
    else if s[0] == '"' || s[0] == '\\' || s[0] == '/' then Some((s[0], 1))
    else if s[0] == 'b' then Some(('\U{8}', 1))
    else if s[0] == 'f' then Some(('\U{C}', 1))
    else if s[0] == 'n' then Some(('\n', 1))
    else if s[0] == 'r' then Some(('\r', 1))
    else if s[0] == 't' then Some(('\t', 1))
    else if s[0] == 'u' && |s| >= 5 then
      var v :- Hex4(s[1..5]);
      if 0xD800 <= v < 0xE000 then None else Some((v as char, 5))
    else None
  }

  /** `c` put in front of the text a successful read returned. */
  function Cons(c: char, r: Option<(string, string)>): Option<(string, string)> {
    match r
    case None => None
    case Some((text, rest)) => Some(([c] + text, rest))
  }

  /**
   * Reads the body of a string literal up to and including its closing quote,
   * returning the text it stands for and what follows. A raw control character
   * or an unknown escape makes the literal invalid.
   */
  function ParseStringBody(s: string): (r: Option<(string, string)>)
    ensures r.Some? ==> EndsWith(s, r.value.1)
    decreases |s|
  {
    if s == [] then None
    else if s[0] == '"' then Some(([], s[1..]))
    else if s[0] == '\\' then
      match Unescape(s[1..])
      case None => None
      case Some((c, k)) => Cons(c, ParseStringBody(s[1 + k..]))
    else if s[0] < ' ' then None
    else Cons(s[0], ParseStringBody(s[1..]))
  }

  /** Reads a string literal at the start of `s`. */
  function ParseString(s: string): (r: Option<(string, string)>)
    ensures r.Some? ==> EndsWith(s, r.value.1)
  {
    if s != [] && s[0] == '"' then ParseStringBody(s[1..]) else None
  }

  /** Reading the escape of one character gives that character and continues after the escape. */
  lemma ReadEscapedChar(c: char, t: string)
    ensures ParseStringBody(EscapeChar(c) + t) == Cons(c, ParseStringBody(t))
  {
    var s := EscapeChar(c) + t;
    if c == '"' || c == '\\' || c == '\U{8}' || c == '\t' || c == '\n' || c == '\U{C}' || c == '\r' {
      assert s[0] == '\\' && s[2..] == t;
      assert s[1..][0] == s[1];
    } else if c < ' ' {
      var hi, lo := c as int / 16, c as int % 16;
      assert EscapeChar(c) == ['\\', 'u', '0', '0', HexLower(hi), HexLower(lo)];
      assert s[0] == '\\' && s[6..] == t;
      var u := s[1..];
      assert u[1..5] == ['0', '0', HexLower(hi), HexLower(lo)];
      HexLowerValue(hi);
      HexLowerValue(lo);
      assert Hex4(u[1..5]) == Some(c as int);
      assert Unescape(u) == Some((c, 5));
    } else {
      assert s[0] == c && s[1..] == t;
    }
  }

  /** Reading back an escaped string body gives the string and leaves what follows its closing quote. */
  lemma {:induction false} EscapeRoundTrip(s: string, rest: string)
    ensures ParseStringBody(Escape(s) + "\"" + rest) == Some((s, rest))
  {
    if s == [] {
      assert Escape(s) + "\"" + rest == "\"" + rest;
    } else {
      var tail := Escape(s[1..]) + "\"" + rest;
      assert Escape(s) + "\"" + rest == EscapeChar(s[0]) + tail;
      ReadEscapedChar(s[0], tail);
      EscapeRoundTrip(s[1..], rest);
      assert [s[0]] + s[1..] == s;
    }
  }

  /** `JSON.parse` of `JSON.stringify(s)` is `s`, whatever text follows. */
  lemma QuoteRoundTrip(s: string, rest: string)
    ensures ParseString(Quote(s) + rest) == Some((s, rest))
  {
    var t := Quote(s) + rest;
    assert t[0] == '"';
    assert t[1..] == Escape(s) + "\"" + rest;
    EscapeRoundTrip(s, rest);
  }
}
