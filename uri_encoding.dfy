/**
 * `encodeURIComponent` (section 19.2.6 of ECMA-262): characters of the
 * unreserved set stay, every other character is written as the
 * percent-escaped bytes of its UTF-8 form, with upper-case hex digits.
 *
 * Dafny's `char` is a Unicode scalar value, so the lone-surrogate URIError
 * cannot arise. `Decode` is a left inverse, used to prove that encoding is
 * injective.
 */
module UriEncoding {
  import opened Results

  /** uriAlpha, DecimalDigit and uriMark: the characters left as they are. */
  predicate Unreserved(c: char) {
    ('A' <= c <= 'Z') || ('a' <= c <= 'z') || ('0' <= c <= '9') || c in "-_.!~*'()"
  }

  predicate IsByte(b: int) { 0 <= b < 256 }

  /** An upper-case hexadecimal digit. */
  function HexDigit(d: int): (c: char)
    requires 0 <= d < 16
    ensures c != ':' && c != '%'
  {
    if d < 10 then ('0' as int + d) as char else ('A' as int + d - 10) as char
  }

  function HexValue(c: char): Option<int> {
    if '0' <= c <= '9' then Some(c as int - '0' as int)
    else if 'A' <= c <= 'F' then Some(c as int - 'A' as int + 10)
    else if 'a' <= c <= 'f' then Some(c as int - 'a' as int + 10)
    else None
  }

  lemma HexRoundTrip(d: int)
    requires 0 <= d < 16
    ensures HexValue(HexDigit(d)) == Some(d)
  {
  }

  /** The UTF-8 bytes of a code point. */
  function Utf8(cp: int): (bytes: seq<int>)
    requires 0 <= cp < 0x110000
    ensures 1 <= |bytes| <= 4 && forall i :: 0 <= i < |bytes| ==> IsByte(bytes[i])
  {
    if cp < 0x80 then [cp]
    else if cp < 0x800 then [0xC0 + cp / 64, 0x80 + cp % 64]
    else if cp < 0x10000 then [0xE0 + cp / 4096, 0x80 + (cp / 64) % 64, 0x80 + cp % 64]
    else [0xF0 + cp / 262144, 0x80 + (cp / 4096) % 64, 0x80 + (cp / 64) % 64, 0x80 + cp % 64]
  }

  /** Each byte as `%XY`. */
  function Escape(bytes: seq<int>): (s: string)
    requires forall i :: 0 <= i < |bytes| ==> IsByte(bytes[i])
    ensures |s| == 3 * |bytes|
    ensures forall i :: 0 <= i < |s| ==> s[i] != ':'
  {
    if bytes == [] then []
    else
      assert IsByte(bytes[0]);
      ['%', HexDigit(bytes[0] / 16), HexDigit(bytes[0] % 16)] + Escape(bytes[1..])
  }

  function EncodeChar(c: char): (s: string)
    ensures s != [] && forall i :: 0 <= i < |s| ==> s[i] != ':'
  {
    if Unreserved(c) then [c] else Escape(Utf8(c as int))
  }

  /** `encodeURIComponent`. Its result never contains `:`. */
  function EncodeURIComponent(s: string): (r: string)
    ensures forall i :: 0 <= i < |r| ==> r[i] != ':'
  {
    if s == [] then [] else EncodeChar(s[0]) + EncodeURIComponent(s[1..])
  }

  /** A string of unreserved characters encodes to itself. */
  lemma {:induction false} EncodeUnreserved(s: string)
    requires forall i :: 0 <= i < |s| ==> Unreserved(s[i])
    ensures EncodeURIComponent(s) == s
  {
    if s != [] {
      EncodeUnreserved(s[1..]);
    }
  }

  // ---------------------------------------------------------------------
  // The left inverse
  // ---------------------------------------------------------------------

  /** The number of UTF-8 bytes announced by a lead byte. */
  function Utf8Length(lead: int): nat {
    if lead < 0x80 then 1 else if lead < 0xE0 then 2 else if lead < 0xF0 then 3 else 4
  }

  /** The code point of a UTF-8 sequence of one to four bytes. */
  function CodePoint(b: seq<int>): int
    requires 1 <= |b| <= 4
  {
    if |b| == 1 then b[0]
    else if |b| == 2 then (b[0] - 0xC0) * 64 + (b[1] - 0x80)
    else if |b| == 3 then ((b[0] - 0xE0) * 64 + (b[1] - 0x80)) * 64 + (b[2] - 0x80)
    else (((b[0] - 0xF0) * 64 + (b[1] - 0x80)) * 64 + (b[2] - 0x80)) * 64 + (b[3] - 0x80)
  }

  /** The byte written as `%XY` at the start of `s`, if any. */
  function FirstByte(s: string): Option<int> {
    if |s| >= 3 && s[0] == '%' && HexValue(s[1]).Some? && HexValue(s[2]).Some?
    then Some(16 * HexValue(s[1]).value + HexValue(s[2]).value)
    else None
  }

  /** `n` escaped bytes from the start of `s`. */
  function ReadBytes(s: string, n: nat): (r: Option<seq<int>>)
    ensures r.Some? ==> |r.value| == n && 3 * n <= |s|
  {
    if n == 0 then Some([])
    else match FirstByte(s)
      case None => None
      case Some(b) =>
        match ReadBytes(s[3..], n - 1)
        case None => None
        case Some(bs) => Some([b] + bs)
  }

  predicate IsScalar(cp: int) {
    (0 <= cp < 0xD800) || (0xE000 <= cp < 0x110000)
  }

  /** The first character of `s` and the number of characters it took. */
  function DecodeFirst(s: string): (r: Option<(char, nat)>)
    requires s != []
    ensures r.Some? ==> 1 <= r.value.1 <= |s|
  {
    if s[0] != '%' then Some((s[0], 1))
    else match FirstByte(s)
      case None => None
      case Some(lead) =>
        var n := Utf8Length(lead);
        match ReadBytes(s, n)
        case None => None
        case Some(bytes) =>
          var cp := CodePoint(bytes);
          if IsScalar(cp) then Some((cp as char, 3 * n)) else None
  }

  function Decode(s: string): Option<string>
    decreases |s|
  {
    if s == [] then Some([])
    else match DecodeFirst(s)
      case None => None
      case Some((c, k)) =>
        match Decode(s[k..])
        case None => None
        case Some(rest) => Some([c] + rest)
  }

  lemma {:induction false} ReadEscaped(bytes: seq<int>, rest: string)
    requires forall i :: 0 <= i < |bytes| ==> IsByte(bytes[i])
    ensures ReadBytes(Escape(bytes) + rest, |bytes|) == Some(bytes)
  {
    if bytes != [] {
      var b := bytes[0];
      var s := Escape(bytes) + rest;
      HexRoundTrip(b / 16);
      HexRoundTrip(b % 16);
      assert s[..3] == ['%', HexDigit(b / 16), HexDigit(b % 16)];
      assert FirstByte(s) == Some(b);
      assert s[3..] == Escape(bytes[1..]) + rest;
      ReadEscaped(bytes[1..], rest);
      assert [b] + bytes[1..] == bytes;
    }
  }

  /** The lead byte announces the length, and the bytes give back the code point. */
  lemma Utf8Decodes(cp: int)
    requires 0 <= cp < 0x110000
    ensures Utf8Length(Utf8(cp)[0]) == |Utf8(cp)|
    ensures CodePoint(Utf8(cp)) == cp
  {
    if 0x800 <= cp < 0x10000 {
      ThreeByteDecodes(cp);
    } else if 0x10000 <= cp {
      FourByteDecodes(cp);
    }
  }

  lemma ThreeByteDecodes(cp: int)
    requires 0x800 <= cp < 0x10000
    ensures CodePoint(Utf8(cp)) == cp
  {
    var b := Utf8(cp);
    assert b[0] - 0xE0 == cp / 4096 && b[1] - 0x80 == (cp / 64) % 64 && b[2] - 0x80 == cp % 64;
    assert cp / 64 == (cp / 4096) * 64 + (cp / 64) % 64;
  }

  lemma FourByteDecodes(cp: int)
    requires 0x10000 <= cp < 0x110000
    ensures CodePoint(Utf8(cp)) == cp
  {
    var b := Utf8(cp);
    assert b[0] - 0xF0 == cp / 262144 && b[1] - 0x80 == (cp / 4096) % 64;
    assert b[2] - 0x80 == (cp / 64) % 64 && b[3] - 0x80 == cp % 64;
    assert cp / 4096 == (cp / 262144) * 64 + (cp / 4096) % 64;
    assert cp / 64 == (cp / 4096) * 64 + (cp / 64) % 64;
  }

  lemma DecodeFirstOfEncoded(c: char, rest: string)
    ensures DecodeFirst(EncodeChar(c) + rest) == Some((c, |EncodeChar(c)|))
  {
    var s := EncodeChar(c) + rest;
    if !Unreserved(c) {
      var cp := c as int;
      var bytes := Utf8(cp);
      Utf8Decodes(cp);
      ReadEscaped(bytes, rest);
      HexRoundTrip(bytes[0] / 16);
      HexRoundTrip(bytes[0] % 16);
      assert s[0] == '%' && s[1] == HexDigit(bytes[0] / 16) && s[2] == HexDigit(bytes[0] % 16);
      assert FirstByte(s) == Some(bytes[0]);
      assert (cp as char) == c;
    }
  }

  /** Decoding undoes encoding. */
  lemma {:induction false} DecodeEncode(s: string)
    ensures Decode(EncodeURIComponent(s)) == Some(s)
  {
    if s != [] {
      var head := EncodeChar(s[0]);
      var tail := EncodeURIComponent(s[1..]);
      DecodeFirstOfEncoded(s[0], tail);
      assert (head + tail)[|head|..] == tail;
      DecodeEncode(s[1..]);
      assert [s[0]] + s[1..] == s;
    }
  }

  /** Distinct strings have distinct encodings. */
  lemma EncodeInjective(a: string, b: string)
    ensures EncodeURIComponent(a) == EncodeURIComponent(b) <==> a == b
  {
    DecodeEncode(a);
    DecodeEncode(b);
  }
}
