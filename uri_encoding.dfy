/**
  `encodeURIComponent` (ECMAScript section 19.2.6.4): every character outside
  the unreserved set is replaced by the percent-escapes of its UTF-8 bytes
  (RFC 3629 section 3), with upper-case hexadecimal digits.
*/
module UriEncoding {

  /** uriAlpha, DecimalDigit and uriMark of ECMAScript section 19.2.6. */
  predicate IsUnreserved(c: char) {
    ('A' <= c <= 'Z') || ('a' <= c <= 'z') || ('0' <= c <= '9')
    || c == '-' || c == '_' || c == '.' || c == '!' || c == '~' || c == '*'
    || c == '\'' || c == '(' || c == ')'
  }

  /** A character that can appear in the output of `EncodeUriComponent`. */
  predicate IsEncodedChar(c: char) {
    IsUnreserved(c) || c == '%'
  }

  predicate IsEncoded(s: string) {
    forall k :: 0 <= k < |s| ==> IsEncodedChar(s[k])
  }

  predicate IsUpperHex(c: char) {
    ('0' <= c <= '9') || ('A' <= c <= 'F')
  }

  /** Every '%' starts an escape: two upper-case hexadecimal digits follow. */
  predicate WellEscaped(s: string) {
    forall k :: 0 <= k < |s| && s[k] == '%' ==> k + 2 < |s| && IsUpperHex(s[k + 1]) && IsUpperHex(s[k + 2])
  }

  /** Joining two well-escaped strings cannot break an escape. */
  lemma WellEscapedAppend(a: string, b: string)
    requires WellEscaped(a) && WellEscaped(b)
    ensures WellEscaped(a + b)
  {
    var s := a + b;
    forall k | 0 <= k < |s| && s[k] == '%'
      ensures k + 2 < |s| && IsUpperHex(s[k + 1]) && IsUpperHex(s[k + 2])
    {
      if k < |a| {
        assert a[k] == '%';
      } else {
        assert b[k - |a|] == '%';
      }
    }
  }

  function HexDigit(d: nat): (c: char)
    requires d < 16
    ensures IsUnreserved(c) && IsUpperHex(c)
    ensures d < 10 ==> c as int == '0' as int + d
    ensures 10 <= d ==> c as int == 'A' as int + (d - 10)
  {
    if d < 10 then (48 + d) as char else (55 + d) as char
  }

  /** "%XY" for one byte. */
  function PercentByte(b: nat): (r: string)
    requires b < 256
    ensures |r| == 3 && r[0] == '%' && IsEncoded(r) && WellEscaped(r)
  {
    ['%', HexDigit(b / 16), HexDigit(b % 16)]
  }

  /** The value of an upper-case hexadecimal digit. */
  function HexValue(c: char): (d: nat)
    requires IsUpperHex(c)
    ensures d < 16
  {
    if c <= '9' then c as int - '0' as int else c as int - 'A' as int + 10
  }

  /** An escape names its byte: reading the two digits back gives `b`. */
  lemma PercentByteDecodes(b: nat)
    requires b < 256
    ensures HexValue(PercentByte(b)[1]) * 16 + HexValue(PercentByte(b)[2]) == b
  {
    assert HexValue(HexDigit(b / 16)) == b / 16;
    assert HexValue(HexDigit(b % 16)) == b % 16;
  }

  predicate AreBytes(bs: seq<nat>) {
    forall k :: 0 <= k < |bs| ==> bs[k] < 256
  }

  /** The UTF-8 bytes of a Unicode scalar value. */
  function Utf8(cp: nat): (bs: seq<nat>)
    requires cp < 0x11_0000
    ensures 1 <= |bs| <= 4 && AreBytes(bs)
  {
    if cp < 0x80 then [cp]
    else if cp < 0x800 then [0xC0 + cp / 64, 0x80 + cp % 64]
    else if cp < 0x1_0000 then [0xE0 + cp / 4096, 0x80 + (cp / 64) % 64, 0x80 + cp % 64]
    else [0xF0 + cp / 262144, 0x80 + (cp / 4096) % 64, 0x80 + (cp / 64) % 64, 0x80 + cp % 64]
  }

  function PercentBytes(bs: seq<nat>): (r: string)
    requires AreBytes(bs)
    ensures |r| == 3 * |bs| && IsEncoded(r) && WellEscaped(r)
    ensures bs != [] ==> r[0] == '%'
  {
    if bs == [] then []
    else
      var r := PercentByte(bs[0]) + PercentBytes(bs[1..]);
      WellEscapedAppend(PercentByte(bs[0]), PercentBytes(bs[1..]));
      r
  }

  /** The encoding of one character: itself when unreserved, else its escapes. */
  function EscapeChar(c: char): (r: string)
    ensures IsEncoded(r) && WellEscaped(r)
    ensures IsUnreserved(c) ==> r == [c]
    ensures !IsUnreserved(c) ==> 3 <= |r| <= 12 && r[0] == '%'
  {
    if IsUnreserved(c) then [c] else PercentBytes(Utf8(c as int))
  }

  /** `encodeURIComponent`: only unreserved characters and '%' come out,
      every '%' starts an escape of two upper-case hexadecimal digits, and the
      result is never shorter than the input. */
  function EncodeUriComponent(s: string): (r: string)
    ensures IsEncoded(r) && WellEscaped(r)
    ensures |r| >= |s|
  {
    if s == [] then []
    else
      var r := EscapeChar(s[0]) + EncodeUriComponent(s[1..]);
      WellEscapedAppend(EscapeChar(s[0]), EncodeUriComponent(s[1..]));
      r
  }

  /** Encoding distributes over concatenation. */
  lemma {:induction false} EncodeAppend(a: string, b: string)
    ensures EncodeUriComponent(a + b) == EncodeUriComponent(a) + EncodeUriComponent(b)
  {
    if a == [] {
      assert a + b == b;
    } else {
      assert (a + b)[0] == a[0];
      assert (a + b)[1..] == a[1..] + b;
      EncodeAppend(a[1..], b);
    }
  }

  /** A string of unreserved characters is encoded as itself. */
  lemma {:induction false} EncodeUnreserved(s: string)
    requires forall k :: 0 <= k < |s| ==> IsUnreserved(s[k])
    ensures EncodeUriComponent(s) == s
  {
    if s != [] {
      EncodeUnreserved(s[1..]);
    }
  }

  /** ':' and '/' never survive encoding. */
  lemma EncodedHasNoColonOrSlash(s: string)
    ensures forall k :: 0 <= k < |EncodeUriComponent(s)| ==>
              EncodeUriComponent(s)[k] != ':' && EncodeUriComponent(s)[k] != '/'
  {
    var r := EncodeUriComponent(s);
    assert forall k :: 0 <= k < |r| ==> IsEncodedChar(r[k]);
  }
}
