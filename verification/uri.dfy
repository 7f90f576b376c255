/** JavaScript `encodeURIComponent`, used only for the place id in the
    details path (the navigation URLs interpolate their fields unencoded):
    characters outside
    the unreserved set are written as `%XX` escapes of their UTF-8 bytes,
    with upper-case hexadecimal digits. A Dafny `char` is a Unicode scalar
    value, so the lone-surrogate error of JavaScript cannot arise. */
module Uri {
  /** The characters `encodeURIComponent` leaves as they are. */
  predicate Unreserved(c: char) {
    ('A' <= c <= 'Z') || ('a' <= c <= 'z') || ('0' <= c <= '9')
    || c == '-' || c == '_' || c == '.' || c == '!' || c == '~' || c == '*' || c == '\'' || c == '(' || c == ')'
  }

  /** An upper-case hexadecimal digit. */
  function HexDigit(n: int): (c: char)
    requires 0 <= n < 16
    ensures Unreserved(c)
  {
    if n < 10 then ('0' as int + n) as char else ('A' as int + n - 10) as char
  }

  predicate IsHexDigit(c: char) {
    ('0' <= c <= '9') || ('A' <= c <= 'F') || ('a' <= c <= 'f')
  }

  /** The value of a hexadecimal digit of either case. */
  function HexValue(c: char): (n: int)
    requires IsHexDigit(c)
    ensures 0 <= n < 16
  {
    if '0' <= c <= '9' then c as int - '0' as int
    else if 'A' <= c <= 'F' then c as int - 'A' as int + 10
    else c as int - 'a' as int + 10
  }

  lemma HexRoundTrip(n: int)
    requires 0 <= n < 16
    ensures IsHexDigit(HexDigit(n)) && HexValue(HexDigit(n)) == n
  {
  }

  /** The UTF-8 bytes of one scalar value. */
  function Utf8(c: char): (bytes: seq<int>)
    ensures 1 <= |bytes| <= 4
    ensures forall i :: 0 <= i < |bytes| ==> 0 <= bytes[i] < 256
    ensures (c as int < 0x80) <==> |bytes| == 1
    ensures c as int < 0x80 ==> bytes == [c as int]
  {
    var cp := c as int;
    if cp < 0x80 then [cp]
    else if cp < 0x800 then [0xC0 + cp / 64, 0x80 + cp % 64]
    else if cp < 0x10000 then [0xE0 + cp / 4096, 0x80 + (cp / 64) % 64, 0x80 + cp % 64]
    else [0xF0 + cp / 262144, 0x80 + (cp / 4096) % 64, 0x80 + (cp / 64) % 64, 0x80 + cp % 64]
  }

  /** `%XX` for one byte. */
  function EscapeByte(b: int): (r: string)
    requires 0 <= b < 256
    ensures |r| == 3 && r[0] == '%' && Unreserved(r[1]) && Unreserved(r[2])
  {
    ['%', HexDigit(b / 16), HexDigit(b % 16)]
  }

  function EscapeBytes(bytes: seq<int>): (r: string)
    requires forall i :: 0 <= i < |bytes| ==> 0 <= bytes[i] < 256
    ensures forall i :: 0 <= i < |r| ==> Unreserved(r[i]) || r[i] == '%'
    decreases |bytes|
  {
    if |bytes| == 0 then "" else EscapeByte(bytes[0]) + EscapeBytes(bytes[1..])
  }

  /** One character, encoded. */
  function EncodeChar(c: char): (r: string)
    ensures forall i :: 0 <= i < |r| ==> Unreserved(r[i]) || r[i] == '%'
    ensures Unreserved(c) ==> r == [c]
  {
    if Unreserved(c) then [c] else EscapeBytes(Utf8(c))
  }

  /** `encodeURIComponent`. */
  function EncodeUriComponent(s: string): (r: string)
    ensures forall i :: 0 <= i < |r| ==> Unreserved(r[i]) || r[i] == '%'
    ensures |r| >= |s|
    decreases |s|
  {
    if |s| == 0 then "" else EncodeChar(s[0]) + EncodeUriComponent(s[1..])
  }

  /** The encoding never contains a delimiter of paths, queries, fragments or
      parameters, so it always stays within one path segment or one query
      value. */
  lemma EncodedHasNoDelimiters(s: string)
    ensures '/' !in EncodeUriComponent(s) && '?' !in EncodeUriComponent(s) && '#' !in EncodeUriComponent(s)
    ensures '&' !in EncodeUriComponent(s) && '=' !in EncodeUriComponent(s) && ',' !in EncodeUriComponent(s)
  {
  }

  /** A string of unreserved characters is its own encoding. */
  lemma {:induction false} EncodeUnreservedIsIdentity(s: string)
    requires forall i :: 0 <= i < |s| ==> Unreserved(s[i])
    ensures EncodeUriComponent(s) == s
    decreases |s|
  {
    if |s| > 0 {
      EncodeUnreservedIsIdentity(s[1..]);
      assert [s[0]] + s[1..] == s;
    }
  }

  /** `decodeURIComponent` restricted to single-byte escapes: each `%XX`
      becomes the character with that code; everything else is kept. */
  function DecodeAscii(s: string): string
    decreases |s|
  {
    if |s| == 0 then ""
    else if s[0] == '%' && |s| >= 3 && IsHexDigit(s[1]) && IsHexDigit(s[2])
    then [(16 * HexValue(s[1]) + HexValue(s[2])) as char] + DecodeAscii(s[3..])
    else [s[0]] + DecodeAscii(s[1..])
  }

  /** Decoding the encoding of one ASCII character, followed by anything,
      gives that character followed by the decoding of the rest. */
  lemma DecodeEncodedChar(c: char, rest: string)
    requires c as int < 0x80
    ensures DecodeAscii(EncodeChar(c) + rest) == [c] + DecodeAscii(rest)
  {
    if Unreserved(c) {
      assert ([c] + rest)[1..] == rest;
    } else {
      var cp := c as int;
      HexRoundTrip(cp / 16);
      HexRoundTrip(cp % 16);
      var e := EscapeByte(cp);
      assert EscapeBytes([cp]) == e + "" by {
        assert [cp][1..] == [];
      }
      assert EncodeChar(c) == e;
      assert (e + rest)[3..] == rest;
      assert (16 * HexValue(e[1]) + HexValue(e[2])) as char == c;
    }
  }

  /** For ASCII text, decoding undoes `encodeURIComponent`. */
  lemma {:induction false} DecodeEncodeAscii(s: string)
    requires forall i :: 0 <= i < |s| ==> s[i] as int < 0x80
    ensures DecodeAscii(EncodeUriComponent(s)) == s
    decreases |s|
  {
    if |s| > 0 {
      DecodeEncodeAscii(s[1..]);
      DecodeEncodedChar(s[0], EncodeUriComponent(s[1..]));
      assert [s[0]] + s[1..] == s;
    }
  }
}
