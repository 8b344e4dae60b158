/** `b64EncodeUnicode` and `farsparkEncodeUrl` of the API client: a URL is
    turned into the UTF-8 bytes of its characters (by `encodeURIComponent`
    and a `%XX` replacement), encoded with the base64 alphabet of section 4
    of RFC 4648 by `btoa`, and then rewritten into the URL-safe alphabet of
    section 5 of RFC 4648 with the padding removed, because the farspark
    thumbnail server cannot read `=`. */
module Farspark {
  import opened Strings

  type byte = x: int | 0 <= x < 256

  // ---------------------------------------------------------------------
  // UTF-8 and encodeURIComponent
  // ---------------------------------------------------------------------

  /** The UTF-8 encoding of one Unicode scalar value. */
  function Utf8Char(c: char): (bs: seq<byte>)
    ensures 1 <= |bs| <= 4
    ensures (|bs| == 1) <==> (c as int < 0x80)
  {
    var n := c as int;
    if n < 0x80 then [n]
    else if n < 0x800 then [0xC0 + n / 64, 0x80 + n % 64]
    else if n < 0x10000 then [0xE0 + n / 4096, 0x80 + (n / 64) % 64, 0x80 + n % 64]
    else [0xF0 + n / 262144, 0x80 + (n / 4096) % 64, 0x80 + (n / 64) % 64, 0x80 + n % 64]
  }

  /** The UTF-8 encoding of a string. */
  function Utf8(s: string): seq<byte> {
    if s == [] then [] else Utf8Char(s[0]) + Utf8(s[1..])
  }

  /** The characters `encodeURIComponent` leaves as they are. */
  predicate Unreserved(c: char) {
    ('A' <= c <= 'Z') || ('a' <= c <= 'z') || ('0' <= c <= '9') ||
    c in {'-', '_', '.', '!', '~', '*', '\'', '(', ')'}
  }

  function HexDigit(d: nat): char
    requires d < 16
  {
    "0123456789ABCDEF"[d]
  }

  /** `%XX` for every byte, with upper-case hexadecimal digits. */
  function Escape(bs: seq<byte>): string {
    if bs == [] then [] else ['%', HexDigit(bs[0] / 16), HexDigit(bs[0] % 16)] + Escape(bs[1..])
  }

  /** `encodeURIComponent(s)`: an unreserved character stands for itself,
      every other character becomes the percent-escapes of its UTF-8 bytes.
      Lone surrogates, on which the original throws, cannot occur in a
      Dafny string. */
  function EncodeUriComponent(s: string): string {
    if s == [] then []
    else (if Unreserved(s[0]) then [s[0]] else Escape(Utf8Char(s[0]))) + EncodeUriComponent(s[1..])
  }

  predicate IsUpperHex(c: char) {
    ('0' <= c <= '9') || ('A' <= c <= 'F')
  }

  function HexValue(c: char): (d: nat)
    requires IsUpperHex(c)
    ensures d < 16
  {
    if c <= '9' then c as int - '0' as int else c as int - 'A' as int + 10
  }

  /** `s.replace(/%([0-9A-F]{2})/g, (_, p1) => String.fromCharCode("0x" + p1))`:
      scanning left to right, every `%` followed by two upper-case hex digits
      becomes the character with that code. */
  function ReplaceEscapes(s: string): string {
    if |s| >= 3 && s[0] == '%' && IsUpperHex(s[1]) && IsUpperHex(s[2]) then
      [(HexValue(s[1]) * 16 + HexValue(s[2])) as char] + ReplaceEscapes(s[3..])
    else if s == [] then []
    else [s[0]] + ReplaceEscapes(s[1..])
  }

  /** Bytes as the one-byte characters `btoa` expects. */
  function Latin1(bs: seq<byte>): string {
    seq(|bs|, i requires 0 <= i < |bs| => bs[i] as char)
  }

  lemma HexDigitValue(d: nat)
    requires d < 16
    ensures IsUpperHex(HexDigit(d)) && HexValue(HexDigit(d)) == d
  {
  }

  /** One `%XX` escape of a byte turns back into that byte. */
  lemma ReplaceEscapeStep(b: byte, tail: string)
    ensures ReplaceEscapes(['%', HexDigit(b / 16), HexDigit(b % 16)] + tail) == [b as char] + ReplaceEscapes(tail)
  {
    var hi, lo := HexDigit(b / 16), HexDigit(b % 16);
    HexDigitValue(b / 16);
    HexDigitValue(b % 16);
    var t := ['%', hi, lo] + tail;
    assert t[3..] == tail;
  }

  lemma Latin1Cons(bs: seq<byte>)
    requires bs != []
    ensures Latin1(bs) == [bs[0] as char] + Latin1(bs[1..])
  {
  }

  lemma {:induction false} ReplaceEscapesOfEscape(bs: seq<byte>, rest: string)
    ensures ReplaceEscapes(Escape(bs) + rest) == Latin1(bs) + ReplaceEscapes(rest)
  {
    if bs != [] {
      var b := bs[0];
      var tail := Escape(bs[1..]) + rest;
      calc {
        ReplaceEscapes(Escape(bs) + rest);
        { assert Escape(bs) + rest == ['%', HexDigit(b / 16), HexDigit(b % 16)] + tail; }
        ReplaceEscapes(['%', HexDigit(b / 16), HexDigit(b % 16)] + tail);
        { ReplaceEscapeStep(b, tail); }
        [b as char] + ReplaceEscapes(tail);
        { ReplaceEscapesOfEscape(bs[1..], rest); }
        [b as char] + (Latin1(bs[1..]) + ReplaceEscapes(rest));
        { Latin1Cons(bs); }
        Latin1(bs) + ReplaceEscapes(rest);
      }
    } else {
      assert Escape(bs) + rest == rest;
    }
  }

  /** The first two steps of `b64EncodeUnicode` produce exactly the UTF-8
      bytes of the input, one character per byte. */
  lemma {:induction false} PercentDecodedIsUtf8(s: string)
    ensures ReplaceEscapes(EncodeUriComponent(s)) == Latin1(Utf8(s))
  {
    if s != [] {
      var rest := EncodeUriComponent(s[1..]);
      PercentDecodedIsUtf8(s[1..]);
      if Unreserved(s[0]) {
        assert EncodeUriComponent(s) == [s[0]] + rest;
        assert ([s[0]] + rest)[1..] == rest;
        assert Latin1(Utf8Char(s[0])) == [s[0]];
      } else {
        ReplaceEscapesOfEscape(Utf8Char(s[0]), rest);
      }
      Latin1Append(Utf8Char(s[0]), Utf8(s[1..]));
    }
  }

  lemma Latin1Append(a: seq<byte>, b: seq<byte>)
    ensures Latin1(a + b) == Latin1(a) + Latin1(b)
  {
  }

  // ---------------------------------------------------------------------
  // Base64 (RFC 4648 sections 4 and 5)
  // ---------------------------------------------------------------------

  /** The 6-bit groups of RFC 4648 section 4: three bytes give four groups,
      a final single byte two groups and a final pair three groups, the
      missing low bits being zero. */
  function Sextets(bs: seq<byte>): (sx: seq<nat>)
    ensures forall k :: 0 <= k < |sx| ==> sx[k] < 64
    ensures |sx| == |bs| / 3 * 4 + (if |bs| % 3 == 0 then 0 else |bs| % 3 + 1)
  {
    if |bs| == 0 then []
    else if |bs| == 1 then [bs[0] / 4, bs[0] % 4 * 16]
    else if |bs| == 2 then [bs[0] / 4, bs[0] % 4 * 16 + bs[1] / 16, bs[1] % 16 * 4]
    else [bs[0] / 4, bs[0] % 4 * 16 + bs[1] / 16, bs[1] % 16 * 4 + bs[2] / 64, bs[2] % 64] + Sextets(bs[3..])
  }

  /** The base64 alphabet (RFC 4648, table 1). */
  function StdChar(v: nat): char
    requires v < 64
  {
    if v < 26 then (('A' as int) + v) as char
    else if v < 52 then (('a' as int) + v - 26) as char
    else if v < 62 then (('0' as int) + v - 52) as char
    else if v == 62 then '+'
    else '/'
  }

  /** The URL and filename safe alphabet (RFC 4648, table 2). */
  function UrlChar(v: nat): char
    requires v < 64
  {
    if v < 62 then StdChar(v) else if v == 62 then '-' else '_'
  }

  function StdChars(sx: seq<nat>): string
    requires forall k :: 0 <= k < |sx| ==> sx[k] < 64
  {
    seq(|sx|, i requires 0 <= i < |sx| => StdChar(sx[i]))
  }

  /** Base64 with `=` padding to a multiple of four characters: what `btoa`
      returns for a string of one-byte characters. */
  function Base64(bs: seq<byte>): string {
    StdChars(Sextets(bs)) + (if |bs| % 3 == 1 then "==" else if |bs| % 3 == 2 then "=" else "")
  }

  /** Base64url without padding (RFC 4648 section 5, padding omitted as
      section 3.2 allows): the form the thumbnail server reads. */
  function Base64UrlNoPad(bs: seq<byte>): string {
    var sx := Sextets(bs);
    seq(|sx|, i requires 0 <= i < |sx| => UrlChar(sx[i]))
  }

  /** `btoa(s)`: `None` stands for the `InvalidCharacterError` it throws on a
      character above U+00FF. */
  function Btoa(s: string): Option<string> {
    if forall k :: 0 <= k < |s| ==> s[k] as int < 256 then
      Some(Base64(seq(|s|, i requires 0 <= i < |s| && s[i] as int < 256 => s[i] as int)))
    else None
  }

  /** `b64EncodeUnicode(str)`: never throws, and is the base64 of the UTF-8
      bytes of `str`. */
  function B64EncodeUnicode(str: string): (r: Option<string>)
    ensures r == Some(Base64(Utf8(str)))
  {
    var latin := ReplaceEscapes(EncodeUriComponent(str));
    PercentDecodedIsUtf8(str);
    var bytes := Utf8(str);
    assert seq(|latin|, i requires 0 <= i < |latin| && latin[i] as int < 256 => latin[i] as int) == bytes;
    Btoa(latin)
  }

  /** `s.replace(/=+$/g, "")`: the trailing run of `=` removed. */
  function TrimTrailingEquals(s: string): string {
    if s != [] && s[|s| - 1] == '=' then TrimTrailingEquals(s[..|s| - 1]) else s
  }

  /** `s.replace(/a/g, b)` for a single character `a`. */
  function ReplaceAll(s: string, a: char, b: char): (r: string)
    ensures |r| == |s|
  {
    seq(|s|, i requires 0 <= i < |s| => if s[i] == a then b else s[i])
  }

  /** `farsparkEncodeUrl(url)`: the unpadded base64url encoding of the
      UTF-8 bytes of `url`, which holds none of `=`, `+` and `/`. */
  function FarsparkEncodeUrl(url: string): (r: string)
    ensures r == Base64UrlNoPad(Utf8(url))
    ensures '=' !in r && '+' !in r && '/' !in r
  {
    var b64 := B64EncodeUnicode(url).value;
    var r := ReplaceAll(ReplaceAll(TrimTrailingEquals(b64), '+', '-'), '/', '_');
    PaddingStripped(Utf8(url));
    UrlSafeAlphabet(Utf8(url));
    r
  }

  /** The base64url alphabet has no `=`, `+` or `/`. */
  lemma UrlSafeAlphabet(bs: seq<byte>)
    ensures '=' !in Base64UrlNoPad(bs) && '+' !in Base64UrlNoPad(bs) && '/' !in Base64UrlNoPad(bs)
  {
    var r := Base64UrlNoPad(bs);
    var sx := Sextets(bs);
    forall k | 0 <= k < |r| ensures r[k] != '=' && r[k] != '+' && r[k] != '/' {
      assert r[k] == UrlChar(sx[k]);
    }
  }

  lemma StdCharIsNotPad(v: nat)
    requires v < 64
    ensures StdChar(v) != '='
  {
  }

  lemma {:induction false} TrimPad(body: string, pad: string)
    requires body == [] || body[|body| - 1] != '='
    requires forall k :: 0 <= k < |pad| ==> pad[k] == '='
    ensures TrimTrailingEquals(body + pad) == body
    decreases |pad|
  {
    if pad == [] {
      assert body + pad == body;
    } else {
      assert (body + pad)[..|body + pad| - 1] == body + pad[..|pad| - 1];
      TrimPad(body, pad[..|pad| - 1]);
    }
  }

  /** Stripping the padding of `Base64` and translating `+`, `/` to `-`,
      `_` gives the unpadded base64url encoding. */
  lemma PaddingStripped(bs: seq<byte>)
    ensures ReplaceAll(ReplaceAll(TrimTrailingEquals(Base64(bs)), '+', '-'), '/', '_') == Base64UrlNoPad(bs)
  {
    var sx := Sextets(bs);
    var body := StdChars(sx);
    var pad := if |bs| % 3 == 1 then "==" else if |bs| % 3 == 2 then "=" else "";
    if body != [] { StdCharIsNotPad(sx[|sx| - 1]); }
    TrimPad(body, pad);
  }

  // ---------------------------------------------------------------------
  // Decoding, the inverse the thumbnail server applies
  // ---------------------------------------------------------------------

  /** The 6-bit value of a base64url character. */
  function UrlValue(c: char): Option<nat> {
    if 'A' <= c <= 'Z' then Some(c as int - 'A' as int)
    else if 'a' <= c <= 'z' then Some(c as int - 'a' as int + 26)
    else if '0' <= c <= '9' then Some(c as int - '0' as int + 52)
    else if c == '-' then Some(62)
    else if c == '_' then Some(63)
    else None
  }

  lemma UrlValueOfUrlChar(v: nat)
    requires v < 64
    ensures UrlValue(UrlChar(v)) == Some(v)
  {
  }

  /** The 6-bit values of a base64url string, or `None` when a character is
      outside the alphabet. */
  function UrlValues(s: string): (r: Option<seq<nat>>)
    ensures r.Some? ==> |r.value| == |s| && forall k :: 0 <= k < |s| ==> r.value[k] < 64
  {
    if s == [] then Some([])
    else match (UrlValue(s[0]), UrlValues(s[1..]))
      case (Some(v), Some(vs)) => if v < 64 then Some([v] + vs) else None
      case _ => None
  }

  /** The bytes that a list of 6-bit values encodes; a lone trailing value
      cannot end a base64 text. */
  function BytesOfSextets(sx: seq<nat>): Option<seq<byte>>
    requires forall k :: 0 <= k < |sx| ==> sx[k] < 64
  {
    if |sx| == 0 then Some([])
    else if |sx| == 1 then None
    else if |sx| == 2 then Some([sx[0] * 4 + sx[1] / 16])
    else if |sx| == 3 then Some([sx[0] * 4 + sx[1] / 16, sx[1] % 16 * 16 + sx[2] / 4])
    else
      match BytesOfSextets(sx[4..])
      case None => None
      case Some(rest) =>
        Some([sx[0] * 4 + sx[1] / 16, sx[1] % 16 * 16 + sx[2] / 4, sx[2] % 4 * 64 + sx[3]] + rest)
  }

  /** Decoding of unpadded base64url text. */
  function DecodeBase64UrlNoPad(s: string): Option<seq<byte>> {
    match UrlValues(s)
    case None => None
    case Some(sx) => BytesOfSextets(sx)
  }

  lemma {:induction false} SextetsRoundTrip(bs: seq<byte>)
    ensures BytesOfSextets(Sextets(bs)) == Some(bs)
    decreases |bs|, 1
  {
    if |bs| >= 3 {
      SextetsGroupRoundTrip(bs);
    } else if |bs| == 2 {
      GroupRoundTrip(bs[0], bs[1], 0);
      assert bs == [bs[0], bs[1]];
    } else if |bs| == 1 {
      GroupRoundTrip(bs[0], 0, 0);
      assert bs == [bs[0]];
    }
  }

  /** `SextetsRoundTrip` for input of three bytes or more: the first group
      comes back, then the rest by induction. */
  lemma {:induction false} SextetsGroupRoundTrip(bs: seq<byte>)
    requires |bs| >= 3
    ensures BytesOfSextets(Sextets(bs)) == Some(bs)
    decreases |bs|, 0
  {
    var sx := Sextets(bs);
    assert sx[4..] == Sextets(bs[3..]);
    SextetsRoundTrip(bs[3..]);
    GroupRoundTrip(bs[0], bs[1], bs[2]);
    assert bs == [bs[0], bs[1], bs[2]] + bs[3..];
  }

  /** Three bytes cut into four sextets and put back together. */
  lemma GroupRoundTrip(b0: byte, b1: byte, b2: byte)
    ensures var s1, s2 := b0 % 4 * 16 + b1 / 16, b1 % 16 * 4 + b2 / 64;
      b0 / 4 * 4 + s1 / 16 == b0 && s1 % 16 * 16 + s2 / 4 == b1 && s2 % 4 * 64 + b2 % 64 == b2
  {
  }

  lemma {:induction false} UrlValuesOfEncoding(sx: seq<nat>)
    requires forall k :: 0 <= k < |sx| ==> sx[k] < 64
    ensures UrlValues(seq(|sx|, i requires 0 <= i < |sx| => UrlChar(sx[i]))) == Some(sx)
  {
    var s := seq(|sx|, i requires 0 <= i < |sx| => UrlChar(sx[i]));
    if sx != [] {
      assert s[1..] == seq(|sx[1..]|, i requires 0 <= i < |sx[1..]| => UrlChar(sx[1..][i]));
      UrlValuesOfEncoding(sx[1..]);
      UrlValueOfUrlChar(sx[0]);
      assert sx == [sx[0]] + sx[1..];
    }
  }

  /** Unpadded base64url loses nothing: decoding an encoding gives the
      bytes back. */
  lemma Base64UrlRoundTrip(bs: seq<byte>)
    ensures DecodeBase64UrlNoPad(Base64UrlNoPad(bs)) == Some(bs)
  {
    UrlValuesOfEncoding(Sextets(bs));
    SextetsRoundTrip(bs);
  }

  /** What the thumbnail server recovers from a `farsparkEncodeUrl` path
      segment is exactly the UTF-8 encoding of the original URL. */
  lemma FarsparkRoundTrip(url: string)
    ensures DecodeBase64UrlNoPad(FarsparkEncodeUrl(url)) == Some(Utf8(url))
  {
    Base64UrlRoundTrip(Utf8(url));
  }
}
