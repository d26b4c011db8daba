/**
 * Percent-encoding of query-string values (section 2.1 of RFC 3986):
 * JavaScript's encodeURIComponent and Ruby's CGI.escape. Both escape a
 * character as the UTF-8 bytes of its code point, each written `%XY` with
 * upper-case hexadecimal digits; they differ in which characters they
 * leave alone and in CGI.escape writing a space as '+'.
 */
module PercentEncoding {

  type Byte = b: int | 0 <= b < 256

  /** The UTF-8 encoding of one Unicode scalar value. */
  function Utf8(c: char): (bs: seq<Byte>)
    ensures 1 <= |bs| <= 4
    ensures (c as int < 0x80) <==> |bs| == 1
    ensures c as int < 0x80 ==> bs == [c as int]
  {
    var v := c as int;
    if v < 0x80 then [v]
    else if v < 0x800 then [0xC0 + v / 0x40, 0x80 + v % 0x40]
    else if v < 0x1_0000 then [0xE0 + v / 0x1000, 0x80 + (v / 0x40) % 0x40, 0x80 + v % 0x40]
    else [0xF0 + v / 0x4_0000, 0x80 + (v / 0x1000) % 0x40, 0x80 + (v / 0x40) % 0x40, 0x80 + v % 0x40]
  }

  /** The UTF-8 encoding of a string (Ruby's `string.b`). */
  function Utf8Bytes(s: string): seq<Byte>
  {
    if s == [] then [] else Utf8(s[0]) + Utf8Bytes(s[1..])
  }

  /** The hexadecimal digit of d, upper-case as both encoders write it. */
  function HexDigit(d: int): (c: char)
    requires 0 <= d < 16
    ensures '0' <= c <= '9' || 'A' <= c <= 'F'
    ensures IsHexDigit(c) && HexValue(c) == d
  {
    "0123456789ABCDEF"[d]
  }

  predicate IsHexDigit(c: char)
  {
    '0' <= c <= '9' || 'A' <= c <= 'F' || 'a' <= c <= 'f'
  }

  function HexValue(c: char): int
    requires IsHexDigit(c)
  {
    if '0' <= c <= '9' then c as int - '0' as int
    else if 'A' <= c <= 'F' then c as int - 'A' as int + 10
    else c as int - 'a' as int + 10
  }

  /** `%XY` for each byte. */
  function PercentBytes(bs: seq<Byte>): (s: string)
    ensures |s| == 3 * |bs|
  {
    if bs == [] then "" else ['%', HexDigit(bs[0] / 16), HexDigit(bs[0] % 16)] + PercentBytes(bs[1..])
  }

  predicate IsAlphaNum(c: char)
  {
    'a' <= c <= 'z' || 'A' <= c <= 'Z' || '0' <= c <= '9'
  }

  /** Characters encodeURIComponent leaves as they are. */
  predicate UriComponentUnescaped(c: char)
  {
    IsAlphaNum(c) || c == '-' || c == '_' || c == '.' || c == '!' || c == '~' || c == '*' || c == '\'' || c == '(' || c == ')'
  }

  /** Characters CGI.escape leaves as they are. */
  predicate CgiUnescaped(c: char)
  {
    IsAlphaNum(c) || c == '_' || c == '.' || c == '-' || c == '~'
  }

  function EncodeUriComponentChar(c: char): string
  {
    if UriComponentUnescaped(c) then [c] else PercentBytes(Utf8(c))
  }

  /**
   * JavaScript's encodeURIComponent: never shorter than its input, and the
   * identity on a string of unescaped characters.
   */
  function EncodeUriComponent(s: string): (e: string)
    ensures |e| >= |s|
    ensures (forall i :: 0 <= i < |s| ==> UriComponentUnescaped(s[i])) ==> e == s
  {
    if s == [] then "" else EncodeUriComponentChar(s[0]) + EncodeUriComponent(s[1..])
  }

  function CgiEscapeChar(c: char): string
  {
    if CgiUnescaped(c) then [c] else if c == ' ' then "+" else PercentBytes(Utf8(c))
  }

  /**
   * Ruby's CGI.escape: never shorter than its input, and the identity on a
   * string of unescaped characters.
   */
  function CgiEscape(s: string): (e: string)
    ensures |e| >= |s|
    ensures (forall i :: 0 <= i < |s| ==> CgiUnescaped(s[i])) ==> e == s
  {
    if s == [] then "" else CgiEscapeChar(s[0]) + CgiEscape(s[1..])
  }

  /**
   * Characters that can appear in an encoded value. None of them is a
   * query-string delimiter ('&', '=', '?', '#', '/') nor a ',' or a space.
   */
  predicate QuerySafe(c: char)
  {
    UriComponentUnescaped(c) || c == '%' || c == '+'
  }

  predicate AllQuerySafe(s: string)
  {
    forall i :: 0 <= i < |s| ==> QuerySafe(s[i])
  }

  /** The characters that delimit query parameters and range values. */
  predicate IsQueryDelimiter(c: char)
  {
    c == '&' || c == '=' || c == '?' || c == '#' || c == '/' || c == ',' || c == ' '
  }

  lemma SafeHasNoDelimiter(s: string)
    requires AllQuerySafe(s)
    ensures forall i :: 0 <= i < |s| ==> !IsQueryDelimiter(s[i])
  {
  }

  lemma {:induction false} PercentBytesSafe(bs: seq<Byte>)
    ensures AllQuerySafe(PercentBytes(bs))
  {
    if bs != [] {
      PercentBytesSafe(bs[1..]);
    }
  }

  lemma ConcatSafe(a: string, b: string)
    requires AllQuerySafe(a) && AllQuerySafe(b)
    ensures AllQuerySafe(a + b)
  {
  }

  /** An encodeURIComponent value cannot end a query parameter or start another. */
  lemma {:induction false} EncodeUriComponentSafe(s: string)
    ensures AllQuerySafe(EncodeUriComponent(s))
    ensures forall i :: 0 <= i < |EncodeUriComponent(s)| ==> !IsQueryDelimiter(EncodeUriComponent(s)[i])
  {
    if s != [] {
      if !UriComponentUnescaped(s[0]) {
        PercentBytesSafe(Utf8(s[0]));
      }
      EncodeUriComponentSafe(s[1..]);
      ConcatSafe(EncodeUriComponentChar(s[0]), EncodeUriComponent(s[1..]));
    }
    SafeHasNoDelimiter(EncodeUriComponent(s));
  }

  /** The same for a CGI.escape value. */
  lemma {:induction false} CgiEscapeSafe(s: string)
    ensures AllQuerySafe(CgiEscape(s))
    ensures forall i :: 0 <= i < |CgiEscape(s)| ==> !IsQueryDelimiter(CgiEscape(s)[i])
  {
    if s != [] {
      if !CgiUnescaped(s[0]) && s[0] != ' ' {
        PercentBytesSafe(Utf8(s[0]));
      }
      CgiEscapeSafe(s[1..]);
      ConcatSafe(CgiEscapeChar(s[0]), CgiEscape(s[1..]));
    }
    SafeHasNoDelimiter(CgiEscape(s));
  }

  /**
   * Percent-decoding of a query value into bytes: `%XY` is one byte, and
   * when `plusIsSpace` (form decoding, the inverse of CGI.escape) a '+' is a
   * space; any other character stands for its own UTF-8 bytes.
   */
  function PercentDecode(s: string, plusIsSpace: bool): seq<Byte>
    decreases |s|
  {
    if s == [] then []
    else if s[0] == '%' && |s| >= 3 && IsHexDigit(s[1]) && IsHexDigit(s[2]) then
      [HexValue(s[1]) * 16 + HexValue(s[2])] + PercentDecode(s[3..], plusIsSpace)
    else if s[0] == '+' && plusIsSpace then [0x20] + PercentDecode(s[1..], plusIsSpace)
    else Utf8(s[0]) + PercentDecode(s[1..], plusIsSpace)
  }

  lemma {:induction false} DecodePercentBytes(bs: seq<Byte>, rest: string, plusIsSpace: bool)
    ensures PercentDecode(PercentBytes(bs) + rest, plusIsSpace) == bs + PercentDecode(rest, plusIsSpace)
  {
    if bs != [] {
      var s := PercentBytes(bs) + rest;
      var b := bs[0];
      assert s[0] == '%' && s[1] == HexDigit(b / 16) && s[2] == HexDigit(b % 16);
      assert HexValue(s[1]) * 16 + HexValue(s[2]) == b;
      assert s[3..] == PercentBytes(bs[1..]) + rest;
      assert PercentDecode(s, plusIsSpace) == [b] + PercentDecode(s[3..], plusIsSpace);
      DecodePercentBytes(bs[1..], rest, plusIsSpace);
      assert bs == [b] + bs[1..];
    } else {
      assert PercentBytes(bs) + rest == rest;
    }
  }

  /** Decoding an encodeURIComponent value gives back the UTF-8 bytes of the original. */
  lemma {:induction false} EncodeUriComponentRoundTrip(s: string)
    ensures PercentDecode(EncodeUriComponent(s), false) == Utf8Bytes(s)
  {
    if s != [] {
      var rest := EncodeUriComponent(s[1..]);
      if UriComponentUnescaped(s[0]) {
        assert ([s[0]] + rest)[1..] == rest;
      } else {
        DecodePercentBytes(Utf8(s[0]), rest, false);
      }
      EncodeUriComponentRoundTrip(s[1..]);
    }
  }

  /** Form-decoding a CGI.escape value gives back the UTF-8 bytes of the original. */
  lemma {:induction false} CgiEscapeRoundTrip(s: string)
    ensures PercentDecode(CgiEscape(s), true) == Utf8Bytes(s)
  {
    if s != [] {
      var rest := CgiEscape(s[1..]);
      if CgiUnescaped(s[0]) || s[0] == ' ' {
        assert (CgiEscapeChar(s[0]) + rest)[1..] == rest;
      } else {
        DecodePercentBytes(Utf8(s[0]), rest, true);
      }
      CgiEscapeRoundTrip(s[1..]);
    }
  }
}
