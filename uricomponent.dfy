/**
 * `encodeURIComponent` (section 18.2.6.5 of ECMA-262, 6th edition): every
 * character outside the unreserved set is written as the percent-escapes of its
 * UTF-8 bytes, with upper-case hexadecimal digits (the Encode operation of
 * section 18.2.6.1.1). `Decode` is the inverse a server applies to the
 * component (the Decode operation of section 18.2.6.1.2 with an empty reserved
 * set); decoding an encoded component gives the original text back.
 */
module UriComponent {
  import opened JsRuntime

  /** uriAlpha, DecimalDigit and uriMark: what `encodeURIComponent` leaves unescaped. */
  predicate Unreserved(c: char) {
    || ('A' <= c <= 'Z') || ('a' <= c <= 'z') || ('0' <= c <= '9')
    || c == '-' || c == '_' || c == '.' || c == '!' || c == '~' || c == '*' || c == '\'' || c == '(' || c == ')'
  }

  predicate IsByte(b: int) {
    0 <= b < 256
  }

  predicate IsContinuation(b: int) {
    0x80 <= b < 0xC0
  }

  /** A Unicode scalar value: what a Dafny `char` holds. */
  predicate IsScalar(cp: int) {
    0 <= cp < 0xD800 || 0xE000 <= cp < 0x11_0000
  }

  /** The UTF-8 encoding of a code point (the table "UTF-8 Encodings" of section 18.2.6.1). */
  function Utf8(cp: int): (bs: seq<int>)
    requires 0 <= cp < 0x11_0000
    ensures 1 <= |bs| <= 4 && forall i | 0 <= i < |bs| :: IsByte(bs[i])
  {
    var q1 := cp / 64;
    var q2 := q1 / 64;
    var q3 := q2 / 64;
    if cp < 0x80 then [cp]
    else if cp < 0x800 then [0xC0 + q1, 0x80 + cp % 64]
    else if cp < 0x1_0000 then [0xE0 + q2, 0x80 + q1 % 64, 0x80 + cp % 64]
    else [0xF0 + q3, 0x80 + q2 % 64, 0x80 + q1 % 64, 0x80 + cp % 64]
  }

  function HexUpper(d: int): (c: char)
    requires 0 <= d < 16
    ensures Unreserved(c) && HexValue(c) == Some(d)
  {
    if d < 10 then (d + '0' as int) as char else (d - 10 + 'A' as int) as char
  }

  /** One byte as `%XY`. */
  function PercentByte(b: int): string
    requires IsByte(b)
  {
    ['%', HexUpper(b / 16), HexUpper(b % 16)]
  }

  /** Bytes as consecutive `%XY` escapes. */
  function Percent(bs: seq<int>): (r: string)
    requires forall i | 0 <= i < |bs| :: IsByte(bs[i])
    ensures |r| == 3 * |bs|
    ensures forall i | 0 <= i < |r| :: Unreserved(r[i]) || r[i] == '%'
  {
    if bs == [] then "" else PercentByte(bs[0]) + Percent(bs[1..])
  }

  function EncodeChar(c: char): string {
    if Unreserved(c) then [c] else Percent(Utf8(c as int))
  }

  /**
   * `encodeURIComponent(s)`. The result holds only unreserved characters and
   * `%`, so it can stand in a path segment or a query value without changing
   * the structure of the URL around it (no `/`, `?`, `&`, `=` or `#`). It never
   * throws: the URIError for an unpaired surrogate cannot arise, a Dafny
   * string holding only scalar values.
   */
  function Encode(s: string): (r: string)
    ensures forall i | 0 <= i < |r| :: Unreserved(r[i]) || r[i] == '%'
  {
    if s == [] then "" else EncodeChar(s[0]) + Encode(s[1..])
  }

  // ---------------------------------------------------------------------------
  // The inverse

  /** The byte written as `%XY` at the start of `t`. */
  function ReadByte(t: string): (r: Option<int>)
    ensures r.Some? ==> IsByte(r.value)
  {
    if |t| >= 3 && t[0] == '%' then
      var hi :- HexValue(t[1]);
      var lo :- HexValue(t[2]);
      Some(hi * 16 + lo)
    else None
  }

  /** `n` bytes written as consecutive `%XY` escapes at the start of `t`. */
  function ReadBytes(t: string, n: nat): (r: Option<seq<int>>)
    ensures r.Some? ==> |r.value| == n && 3 * n <= |t|
  {
    if n == 0 then Some([])
    else
      var b :- ReadByte(t);
      var bs :- ReadBytes(t[3..], n - 1);
      Some([b] + bs)
  }

  /** How many bytes the UTF-8 sequence started by `b` has; 0 when `b` cannot start one. */
  function SequenceLength(b: int): nat {
    if 0 <= b < 0x80 then 1
    else if 0xC0 <= b < 0xE0 then 2
    else if 0xE0 <= b < 0xF0 then 3
    else if 0xF0 <= b < 0xF8 then 4
    else 0
  }

  /** Every byte after the first is a continuation byte. */
  predicate Continuations(bs: seq<int>) {
    forall i | 1 <= i < |bs| :: IsContinuation(bs[i])
  }

  /** The smallest code point that needs `n` bytes: a smaller one written with `n` bytes is overlong. */
  function MinCodePoint(n: nat): int {
    if n <= 1 then 0 else if n == 2 then 0x80 else if n == 3 then 0x800 else 0x1_0000
  }

  /** The code point a UTF-8 sequence of one to four bytes stands for. */
  function CodePoint(bs: seq<int>): int
    requires 1 <= |bs| <= 4
  {
    if |bs| == 1 then bs[0]
    else if |bs| == 2 then (bs[0] - 0xC0) * 64 + (bs[1] - 0x80)
    else if |bs| == 3 then ((bs[0] - 0xE0) * 64 + (bs[1] - 0x80)) * 64 + (bs[2] - 0x80)
    else (((bs[0] - 0xF0) * 64 + (bs[1] - 0x80)) * 64 + (bs[2] - 0x80)) * 64 + (bs[3] - 0x80)
  }

  /**
   * Reads one escaped UTF-8 sequence at the start of `t`: the character it
   * stands for and how much text it takes. Invalid UTF-8 (a bad lead or
   * continuation byte, an overlong form, a surrogate) is refused.
   */
  function ReadSequence(t: string): (r: Option<(char, nat)>)
    ensures r.Some? ==> 3 <= r.value.1 <= |t|
  {
    var b0 :- ReadByte(t);
    var n := SequenceLength(b0);
    if n == 0 then None
    else
      var bs :- ReadBytes(t, n);
      if !Continuations(bs) then None
      else
        var cp := CodePoint(bs);
        if cp < MinCodePoint(n) || !IsScalar(cp) then None else Some((cp as char, 3 * n))
  }

  /** `decodeURIComponent(t)`, or None where it throws a URIError. */
  function Decode(t: string): Option<string>
    decreases |t|
  {
    if t == [] then Some([])
    else if t[0] != '%' then
      var rest :- Decode(t[1..]);
      Some([t[0]] + rest)
    else
      var p :- ReadSequence(t);
      var rest :- Decode(t[p.1..]);
      Some([p.0] + rest)
  }

  // ---------------------------------------------------------------------------
  // Decoding an encoded component gives it back

  /** A scalar value's UTF-8 bytes form one valid, shortest sequence that stands for it. */
  lemma Utf8Valid(cp: int)
    requires IsScalar(cp)
    ensures var bs := Utf8(cp);
      && SequenceLength(bs[0]) == |bs|
      && Continuations(bs)
      && CodePoint(bs) == cp
      && MinCodePoint(|bs|) <= cp
  {
    var q1 := cp / 64;
    var q2 := q1 / 64;
    var q3 := q2 / 64;
    assert cp == q1 * 64 + cp % 64;
    assert q1 == q2 * 64 + q1 % 64;
    assert q2 == q3 * 64 + q2 % 64;
  }

  lemma ReadPercentByte(b: int, t: string)
    requires IsByte(b)
    ensures ReadByte(PercentByte(b) + t) == Some(b)
  {
    var s := PercentByte(b) + t;
    assert s[0] == '%' && s[1] == HexUpper(b / 16) && s[2] == HexUpper(b % 16);
  }

  lemma {:induction false} ReadPercent(bs: seq<int>, t: string)
    requires forall i | 0 <= i < |bs| :: IsByte(bs[i])
    ensures ReadBytes(Percent(bs) + t, |bs|) == Some(bs)
    ensures bs != [] ==> ReadByte(Percent(bs) + t) == Some(bs[0])
  {
    if bs != [] {
      var head := PercentByte(bs[0]);
      var tail := Percent(bs[1..]) + t;
      var s := Percent(bs) + t;
      assert Percent(bs) == head + Percent(bs[1..]);
      assert s == head + tail;
      ReadPercentByte(bs[0], tail);
      assert |head| == 3;
      assert s[3..] == tail;
      ReadPercent(bs[1..], t);
      assert ReadBytes(s[3..], |bs| - 1) == Some(bs[1..]);
      assert [bs[0]] + bs[1..] == bs;
    }
  }

  /** Text that starts with the escapes of a valid, shortest UTF-8 sequence reads back as its code point. */
  lemma ReadValidBytes(s: string, bs: seq<int>)
    requires 1 <= |bs| <= 4 && ReadByte(s) == Some(bs[0]) && ReadBytes(s, |bs|) == Some(bs)
    requires SequenceLength(bs[0]) == |bs| && Continuations(bs)
    requires MinCodePoint(|bs|) <= CodePoint(bs) && IsScalar(CodePoint(bs))
    ensures ReadSequence(s) == Some((CodePoint(bs) as char, 3 * |bs|))
  {
  }

  /** The escapes of a valid, shortest UTF-8 sequence read back as the code point it stands for. */
  lemma ReadValidSequence(bs: seq<int>, t: string)
    requires 1 <= |bs| <= 4 && forall i | 0 <= i < |bs| :: IsByte(bs[i])
    requires SequenceLength(bs[0]) == |bs| && Continuations(bs)
    requires MinCodePoint(|bs|) <= CodePoint(bs) && IsScalar(CodePoint(bs))
    ensures ReadSequence(Percent(bs) + t) == Some((CodePoint(bs) as char, 3 * |bs|))
  {
    ReadPercent(bs, t);
    ReadValidBytes(Percent(bs) + t, bs);
  }

  /** The escapes of a reserved character read back as that character. */
  lemma ReadEncodedChar(c: char, t: string)
    requires !Unreserved(c)
    ensures ReadSequence(EncodeChar(c) + t) == Some((c, |EncodeChar(c)|))
  {
    var bs := Utf8(c as int);
    Utf8Valid(c as int);
    ReadValidSequence(bs, t);
    assert (CodePoint(bs) as char) == c;
  }

  lemma DecodeEncodedChar(c: char, t: string)
    ensures Decode(EncodeChar(c) + t) == (var rest :- Decode(t); Some([c] + rest))
  {
    var s := EncodeChar(c) + t;
    if Unreserved(c) {
      assert s[0] == c && s[1..] == t;
    } else {
      ReadEncodedChar(c, t);
      assert s[0] == '%';
      assert s[|EncodeChar(c)|..] == t;
    }
  }

  /** `decodeURIComponent(encodeURIComponent(s)) == s`: the encoding loses nothing. */
  lemma {:induction false} DecodeEncode(s: string)
    ensures Decode(Encode(s)) == Some(s)
  {
    if s != [] {
      DecodeEncodedChar(s[0], Encode(s[1..]));
      DecodeEncode(s[1..]);
      assert [s[0]] + s[1..] == s;
    }
  }

  /** Distinct components are encoded as distinct texts. */
  lemma EncodeInjective(s: string, t: string)
    requires Encode(s) == Encode(t)
    ensures s == t
  {
    DecodeEncode(s);
    DecodeEncode(t);
  }
}
