/**
 * `encodeURIComponent`, as the dork generator calls it (components/tools/google-dork-modal.tsx):
 * every character outside the unreserved set `A-Z a-z 0-9 - _ . ! ~ * ' ( )` is written as the
 * `%XX` escapes (upper-case hexadecimal) of its UTF-8 bytes, the percent-encoding of section 2.1
 * of RFC 3986 with the UTF-8 encoding of RFC 3629.
 *
 * `Decode` is the inverse this module defines to show that the encoding loses nothing.
 */
module UriComponent {
  import opened Wrappers
  import opened Strings

  type Byte = b: int | 0 <= b < 256

  /** The characters `encodeURIComponent` leaves alone. */
  predicate Unreserved(c: char) {
    'A' <= c <= 'Z' || 'a' <= c <= 'z' || '0' <= c <= '9' ||
    c == '-' || c == '_' || c == '.' || c == '!' || c == '~' || c == '*' || c == '\'' || c == '(' || c == ')'
  }

  predicate IsContinuation(b: int) { 0x80 <= b < 0xC0 }

  /** The UTF-8 encoding of one Unicode scalar value (section 3 of RFC 3629). */
  function Utf8(c: char): (r: seq<Byte>)
    ensures 1 <= |r| <= 4
    ensures |r| == 1 <==> r[0] < 0x80
    ensures |r| == 2 ==> 0xC0 <= r[0] < 0xE0
    ensures |r| == 3 ==> 0xE0 <= r[0] < 0xF0
    ensures |r| == 4 ==> 0xF0 <= r[0] < 0xF8
    ensures forall k :: 1 <= k < |r| ==> IsContinuation(r[k])
  {
    var n := c as int;
    if n < 0x80 then [n]
    else if n < 0x800 then [0xC0 + n / 64, 0x80 + n % 64]
    else if n < 0x10000 then [0xE0 + n / 4096, 0x80 + (n / 64) % 64, 0x80 + n % 64]
    else [0xF0 + n / 262144, 0x80 + (n / 4096) % 64, 0x80 + (n / 64) % 64, 0x80 + n % 64]
  }

  /** An upper-case hexadecimal digit. */
  function HexDigit(d: int): (c: char)
    requires 0 <= d < 16
    ensures HexValue(c) == Some(d)
  {
    if d < 10 then ('0' as int + d) as char else ('A' as int + d - 10) as char
  }

  function HexValue(c: char): (r: Option<int>)
    ensures r.Some? ==> 0 <= r.value < 16
  {
    if '0' <= c <= '9' then Some(c as int - '0' as int)
    else if 'A' <= c <= 'F' then Some(c as int - 'A' as int + 10)
    else if 'a' <= c <= 'f' then Some(c as int - 'a' as int + 10)
    else None
  }

  /** `%XX` */
  function Escape(b: Byte): (r: string)
    ensures |r| == 3 && r[0] == '%'
  {
    ['%', HexDigit(b / 16), HexDigit(b % 16)]
  }

  function EscapeAll(bytes: seq<Byte>): (r: string)
    ensures |r| == 3 * |bytes|
  {
    if |bytes| == 0 then "" else Escape(bytes[0]) + EscapeAll(bytes[1..])
  }

  function EncodeChar(c: char): string {
    if Unreserved(c) then [c] else EscapeAll(Utf8(c))
  }

  /** `encodeURIComponent(s)` */
  function EncodeUriComponent(s: string): (r: string)
    ensures |s| <= |r|
  {
    if |s| == 0 then "" else EncodeChar(s[0]) + EncodeUriComponent(s[1..])
  }

  /** A character the encoding may emit. */
  predicate Emitted(c: char) {
    Unreserved(c) || c == '%' || ('A' <= c <= 'F')
  }

  /** The encoding is plain ASCII: unreserved characters, `%` and hexadecimal digits. In
      particular no space, `&`, `#`, `=` or `+` survives into the query string. */
  lemma {:induction false} EncodedIsSafe(s: string)
    ensures forall k :: 0 <= k < |EncodeUriComponent(s)| ==> Emitted(EncodeUriComponent(s)[k])
  {
    if |s| > 0 {
      EncodedIsSafe(s[1..]);
      var c := s[0];
      if !Unreserved(c) {
        EscapesAreSafe(Utf8(c));
      }
      var a := EncodeChar(c);
      var b := EncodeUriComponent(s[1..]);
      forall k | 0 <= k < |a + b| ensures Emitted((a + b)[k]) {
        if k >= |a| { assert (a + b)[k] == b[k - |a|]; }
      }
    }
  }

  lemma {:induction false} EscapesAreSafe(bytes: seq<Byte>)
    ensures forall k :: 0 <= k < |EscapeAll(bytes)| ==> Emitted(EscapeAll(bytes)[k])
  {
    if |bytes| > 0 {
      EscapesAreSafe(bytes[1..]);
      var a := Escape(bytes[0]);
      var b := EscapeAll(bytes[1..]);
      forall k | 0 <= k < |a + b| ensures Emitted((a + b)[k]) {
        if k >= |a| { assert (a + b)[k] == b[k - |a|]; }
      }
    }
  }

  /** An unreserved character is copied as it is. */
  lemma UnreservedKept(c: char, s: string)
    requires Unreserved(c)
    ensures EncodeUriComponent([c] + s) == [c] + EncodeUriComponent(s)
  {
    assert ([c] + s)[1..] == s;
  }

  // ---------------------------------------------------------------------------------------------
  // The inverse

  /** The byte written by the `%XX` escape at the start of `t`. */
  function ReadEscape(t: string): Option<Byte> {
    if |t| < 3 || t[0] != '%' then None
    else match (HexValue(t[1]), HexValue(t[2]))
      case (Some(h), Some(l)) => Some(16 * h + l)
      case _ => None
  }

  /** The `count` escaped bytes at the start of `t`. */
  function ReadEscapes(t: string, count: nat): (r: Option<seq<Byte>>)
    ensures r.Some? ==> |r.value| == count && 3 * count <= |t|
    decreases count
  {
    if count == 0 then Some([])
    else match ReadEscape(t)
      case None => None
      case Some(b) =>
        match ReadEscapes(t[3..], count - 1)
        case None => None
        case Some(bs) => Some([b] + bs)
  }

  /** The number of bytes of the UTF-8 sequence a lead byte starts. */
  function SequenceLength(lead: Byte): nat {
    if lead < 0x80 then 1 else if lead < 0xE0 then 2 else if lead < 0xF0 then 3 else 4
  }

  /** The scalar value a UTF-8 sequence of 1 to 4 bytes stands for. */
  function Utf8Value(bytes: seq<Byte>): int
    requires 1 <= |bytes| <= 4
  {
    match |bytes|
    case 1 => bytes[0]
    case 2 => (bytes[0] as int - 0xC0) * 64 + (bytes[1] as int - 0x80)
    case 3 => (bytes[0] as int - 0xE0) * 4096 + (bytes[1] as int - 0x80) * 64 + (bytes[2] as int - 0x80)
    case 4 => (bytes[0] as int - 0xF0) * 262144 + (bytes[1] as int - 0x80) * 4096 + (bytes[2] as int - 0x80) * 64 + (bytes[3] as int - 0x80)
  }

  predicate IsScalar(n: int) { 0 <= n < 0xD800 || 0xE000 <= n < 0x11_0000 }

  /** The character at the start of an encoded text and the length of its encoding. */
  function DecodeFirst(t: string): (r: Option<(char, nat)>)
    requires |t| > 0
    ensures r.Some? ==> 1 <= r.value.1 <= |t|
  {
    if t[0] != '%' then Some((t[0], 1))
    else match ReadEscape(t)
      case None => None
      case Some(lead) =>
        var count := SequenceLength(lead);
        match ReadEscapes(t, count)
        case None => None
        case Some(bytes) =>
          var n := Utf8Value(bytes);
          if IsScalar(n) then Some((n as char, 3 * count)) else None
  }

  function Decode(t: string): (r: Option<string>)
    decreases |t|
  {
    if |t| == 0 then Some("")
    else match DecodeFirst(t)
      case None => None
      case Some((c, used)) =>
        match Decode(t[used..])
        case None => None
        case Some(rest) => Some([c] + rest)
  }

  lemma ReadEscapeOf(b: Byte, rest: string)
    ensures ReadEscape(Escape(b) + rest) == Some(b)
  {
    var t := Escape(b) + rest;
    assert t[1] == HexDigit(b / 16) && t[2] == HexDigit(b % 16);
  }

  lemma {:induction false} ReadEscapesOf(bytes: seq<Byte>, rest: string)
    ensures ReadEscapes(EscapeAll(bytes) + rest, |bytes|) == Some(bytes)
    decreases |bytes|
  {
    if |bytes| > 0 {
      var t := EscapeAll(bytes) + rest;
      ConcatAssoc(Escape(bytes[0]), EscapeAll(bytes[1..]), rest);
      ReadEscapeOf(bytes[0], EscapeAll(bytes[1..]) + rest);
      assert t[3..] == EscapeAll(bytes[1..]) + rest;
      ReadEscapesOf(bytes[1..], rest);
      assert [bytes[0]] + bytes[1..] == bytes;
    }
  }

  /** UTF-8 decoding undoes UTF-8 encoding. */
  lemma Utf8RoundTrip(c: char)
    ensures SequenceLength(Utf8(c)[0]) == |Utf8(c)|
    ensures Utf8Value(Utf8(c)) == c as int
  {
    var n := c as int;
    if n < 0x80 {
    } else if n < 0x800 {
      assert n == (n / 64) * 64 + n % 64;
    } else if n < 0x10000 {
      assert n / 64 == (n / 4096) * 64 + (n / 64) % 64;
      assert n == (n / 64) * 64 + n % 64;
    } else {
      assert n / 4096 == (n / 262144) * 64 + (n / 4096) % 64;
      assert n / 64 == (n / 4096) * 64 + (n / 64) % 64;
      assert n == (n / 64) * 64 + n % 64;
    }
  }

  lemma DecodeFirstOf(c: char, rest: string)
    ensures DecodeFirst(EncodeChar(c) + rest) == Some((c, |EncodeChar(c)|))
  {
    var t := EncodeChar(c) + rest;
    if Unreserved(c) {
      assert t[0] == c;
    } else {
      var bytes := Utf8(c);
      Utf8RoundTrip(c);
      ReadEscapesOf(bytes, rest);
      ReadEscapeOf(bytes[0], EscapeAll(bytes[1..]) + rest) by {
        ConcatAssoc(Escape(bytes[0]), EscapeAll(bytes[1..]), rest);
      }
      assert t[0] == '%';
    }
  }

  /** The encoding is reversible, so two different queries never give the same URL. */
  lemma {:induction false} RoundTrip(s: string)
    ensures Decode(EncodeUriComponent(s)) == Some(s)
  {
    if |s| > 0 {
      var a := EncodeChar(s[0]);
      var b := EncodeUriComponent(s[1..]);
      DecodeFirstOf(s[0], b);
      assert (a + b)[|a|..] == b;
      RoundTrip(s[1..]);
      assert [s[0]] + s[1..] == s;
    }
  }

  lemma EncodingIsInjective(s: string, t: string)
    requires EncodeUriComponent(s) == EncodeUriComponent(t)
    ensures s == t
  {
    RoundTrip(s);
    RoundTrip(t);
  }
}
