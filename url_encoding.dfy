/**
 * The two ways the request builders escape text for a URL:
 *
 *  - `encodeURIComponent` (ECMA-262, section 19.2.6.5), used for the
 *    `country` query value of the curl command;
 *  - the application/x-www-form-urlencoded serializer behind
 *    `URLSearchParams.prototype.toString` (WHATWG URL Standard, section 5.2),
 *    used for the query string of the API tester.
 *
 * Both work on the UTF-8 bytes of the text. The partner of each encoder is
 * the percent-decoder of the URL Standard (section 1.3), which a server
 * applies to read the value back, and the UTF-8 decoder.
 */
module UrlEncoding {
  import opened Wrappers
  import opened Text

  type Byte = b: int | 0 <= b < 256

  predicate IsSurrogate(n: int)
  {
    0xD800 <= n < 0xE000
  }

  /** The UTF-8 encoding of one Unicode scalar value. */
  function Utf8(c: char): (bs: seq<Byte>)
    ensures 1 <= |bs| <= 4
    ensures (|bs| == 1) <==> (c as int < 0x80)
  {
    var n := c as int;
    if n < 0x80 then [n]
    else if n < 0x800 then [0xC0 + n / 64, 0x80 + n % 64]
    else if n < 0x10000 then [0xE0 + n / 4096, 0x80 + (n / 64) % 64, 0x80 + n % 64]
    else [0xF0 + n / 262144, 0x80 + (n / 4096) % 64, 0x80 + (n / 64) % 64, 0x80 + n % 64]
  }

  function Utf8Bytes(s: string): seq<Byte>
  {
    if s == [] then [] else Utf8(s[0]) + Utf8Bytes(s[1..])
  }

  predicate IsContinuation(b: Byte)
  {
    0x80 <= b < 0xC0
  }

  /**
   * Decodes the first scalar value of `bs`, giving it and the number of
   * bytes it takes; `None` for an invalid, overlong or truncated sequence.
   */
  function DecodeChar(bs: seq<Byte>): (r: Option<(char, nat)>)
    ensures r.Some? ==> 1 <= r.value.1 <= |bs|
  {
    if |bs| == 0 then None
    else if bs[0] < 0x80 then Some((bs[0] as char, 1))
    else if 0xC0 <= bs[0] < 0xE0 && |bs| >= 2 && IsContinuation(bs[1]) then
      var n := (bs[0] as int - 0xC0) * 64 + (bs[1] as int - 0x80);
      if 0x80 <= n then Some((n as char, 2)) else None
    else if 0xE0 <= bs[0] < 0xF0 && |bs| >= 3 && IsContinuation(bs[1]) && IsContinuation(bs[2]) then
      var n := (bs[0] as int - 0xE0) * 4096 + (bs[1] as int - 0x80) * 64 + (bs[2] as int - 0x80);
      if 0x800 <= n && !IsSurrogate(n) then Some((n as char, 3)) else None
    else if 0xF0 <= bs[0] < 0xF5 && |bs| >= 4 && IsContinuation(bs[1]) && IsContinuation(bs[2])
      && IsContinuation(bs[3]) then
      var n := (bs[0] as int - 0xF0) * 262144 + (bs[1] as int - 0x80) * 4096 + (bs[2] as int - 0x80) * 64
        + (bs[3] as int - 0x80);
      if 0x10000 <= n < 0x110000 then Some((n as char, 4)) else None
    else None
  }

  /** Strict UTF-8 decoding: `None` when some sequence is not valid UTF-8. */
  function Utf8Decode(bs: seq<Byte>): (r: Option<string>)
    decreases |bs|
  {
    if bs == [] then Some([])
    else match DecodeChar(bs)
      case None => None
      case Some((c, k)) =>
        match Utf8Decode(bs[k..])
        case None => None
        case Some(rest) => Some([c] + rest)
  }

  lemma DecodeTwo(n: int, b0: Byte, b1: Byte, rest: seq<Byte>)
    requires 0x80 <= n < 0x800 && b0 == 0xC0 + n / 64 && b1 == 0x80 + n % 64
    ensures DecodeChar([b0, b1] + rest) == Some((n as char, 2))
  {
    var bs := [b0, b1] + rest;
    assert bs[0] == b0 && bs[1] == b1;
    assert (b0 as int - 0xC0) * 64 + (b1 as int - 0x80) == n;
  }

  lemma DecodeThree(c: char, b0: Byte, b1: Byte, b2: Byte, rest: seq<Byte>)
    requires 0x800 <= c as int < 0x10000
    requires b0 == 0xE0 + (c as int) / 4096 && b1 == 0x80 + ((c as int) / 64) % 64 && b2 == 0x80 + (c as int) % 64
    ensures DecodeChar([b0, b1, b2] + rest) == Some((c, 3))
  {
    var n := c as int;
    var bs := [b0, b1, b2] + rest;
    assert bs[0] == b0 && bs[1] == b1 && bs[2] == b2;
    assert n / 64 == 64 * (n / 4096) + (n / 64) % 64;
    assert n == 64 * (n / 64) + n % 64;
    assert (b0 as int - 0xE0) * 4096 + (b1 as int - 0x80) * 64 + (b2 as int - 0x80) == n;
  }

  lemma DecodeFour(n: int, b0: Byte, b1: Byte, b2: Byte, b3: Byte, rest: seq<Byte>)
    requires 0x10000 <= n < 0x110000
    requires b0 == 0xF0 + n / 262144 && b1 == 0x80 + (n / 4096) % 64
    requires b2 == 0x80 + (n / 64) % 64 && b3 == 0x80 + n % 64
    ensures DecodeChar([b0, b1, b2, b3] + rest) == Some((n as char, 4))
  {
    var bs := [b0, b1, b2, b3] + rest;
    assert bs[0] == b0 && bs[1] == b1 && bs[2] == b2 && bs[3] == b3;
    assert n / 4096 == 64 * (n / 262144) + (n / 4096) % 64;
    assert n / 64 == 64 * (n / 4096) + (n / 64) % 64;
    assert n == 64 * (n / 64) + n % 64;
    assert (b0 as int - 0xF0) * 262144 + (b1 as int - 0x80) * 4096 + (b2 as int - 0x80) * 64
      + (b3 as int - 0x80) == n;
  }

  lemma DecodeUtf8Char(c: char, rest: seq<Byte>)
    ensures DecodeChar(Utf8(c) + rest) == Some((c, |Utf8(c)|))
  {
    var n := c as int;
    var u := Utf8(c);
    if n < 0x80 {
      assert (u + rest)[0] == n;
    } else if n < 0x800 {
      DecodeTwo(n, u[0], u[1], rest);
      assert u == [u[0], u[1]];
    } else if n < 0x10000 {
      DecodeThree(c, u[0], u[1], u[2], rest);
      assert u == [u[0], u[1], u[2]];
    } else {
      DecodeFour(n, u[0], u[1], u[2], u[3], rest);
      assert u == [u[0], u[1], u[2], u[3]];
    }
  }

  /** UTF-8 decoding reads back every encoded string. */
  lemma {:induction false} Utf8RoundTrip(s: string)
    ensures Utf8Decode(Utf8Bytes(s)) == Some(s)
  {
    if s != [] {
      var bs := Utf8Bytes(s);
      DecodeUtf8Char(s[0], Utf8Bytes(s[1..]));
      assert bs[|Utf8(s[0])|..] == Utf8Bytes(s[1..]);
      Utf8RoundTrip(s[1..]);
      assert [s[0]] + s[1..] == s;
    }
  }

  lemma {:induction false} Utf8BytesAppend(a: string, b: string)
    ensures Utf8Bytes(a + b) == Utf8Bytes(a) + Utf8Bytes(b)
  {
    if a != [] {
      assert (a + b)[0] == a[0];
      assert (a + b)[1..] == a[1..] + b;
      Utf8BytesAppend(a[1..], b);
      assert Utf8(a[0]) + (Utf8Bytes(a[1..]) + Utf8Bytes(b)) == (Utf8(a[0]) + Utf8Bytes(a[1..])) + Utf8Bytes(b);
    } else {
      assert a + b == b;
    }
  }

  /** Upper-case hexadecimal digit, as both encoders write them. */
  function HexDigit(d: nat): char
    requires d < 16
  {
    "0123456789ABCDEF"[d]
  }

  predicate IsHex(c: char)
  {
    '0' <= c <= '9' || 'A' <= c <= 'F' || 'a' <= c <= 'f'
  }

  function HexValue(c: char): nat
    requires IsHex(c)
  {
    if '0' <= c <= '9' then c as int - '0' as int
    else if 'A' <= c <= 'F' then c as int - 'A' as int + 10
    else c as int - 'a' as int + 10
  }

  lemma HexDigitValue(d: nat)
    requires d < 16
    ensures IsHex(HexDigit(d)) && HexValue(HexDigit(d)) == d
  {
  }

  /** `%HH` for each byte. */
  function PercentBytes(bs: seq<Byte>): (r: string)
    ensures |r| == 3 * |bs|
  {
    if bs == [] then []
    else ['%', HexDigit(bs[0] / 16), HexDigit(bs[0] % 16)] + PercentBytes(bs[1..])
  }

  /** Percent-encoded bytes are `%` signs and hexadecimal digits. */
  lemma {:induction false} PercentBytesChars(bs: seq<Byte>)
    ensures forall i :: 0 <= i < |PercentBytes(bs)| ==> PercentBytes(bs)[i] == '%' || IsHex(PercentBytes(bs)[i])
  {
    if bs != [] {
      var t := PercentBytes(bs[1..]);
      HexDigitValue(bs[0] / 16);
      HexDigitValue(bs[0] % 16);
      PercentBytesChars(bs[1..]);
      assert forall i :: 3 <= i < |PercentBytes(bs)| ==> PercentBytes(bs)[i] == t[i - 3];
    }
  }

  predicate IsAsciiAlnum(c: char)
  {
    'A' <= c <= 'Z' || 'a' <= c <= 'z' || '0' <= c <= '9'
  }

  /** The characters `encodeURIComponent` leaves alone. */
  predicate UriUnreserved(c: char)
  {
    IsAsciiAlnum(c) || c in "-_.!~*'()"
  }

  /** The characters the form serializer leaves alone. */
  predicate FormSafe(c: char)
  {
    IsAsciiAlnum(c) || c in "*-._"
  }

  function EncodeUriChar(c: char): string
  {
    if UriUnreserved(c) then [c] else PercentBytes(Utf8(c))
  }

  function FormEncodeChar(c: char): string
  {
    if c == ' ' then "+" else if FormSafe(c) then [c] else PercentBytes(Utf8(c))
  }

  /**
   * `encodeURIComponent(s)`. Dafny strings hold scalar values only, so the
   * lone-surrogate case, where JavaScript throws a URIError, cannot arise.
   */
  function EncodeUriComponent(s: string): string
  {
    if s == [] then [] else EncodeUriChar(s[0]) + EncodeUriComponent(s[1..])
  }

  /** A character `encodeURIComponent` may write: an unreserved one or `%`. */
  predicate UriEscapedChar(c: char)
  {
    UriUnreserved(c) || c == '%'
  }

  lemma UriCharEscaped(c: char)
    ensures forall i :: 0 <= i < |EncodeUriChar(c)| ==> UriEscapedChar(EncodeUriChar(c)[i])
  {
    if !UriUnreserved(c) {
      PercentBytesChars(Utf8(c));
    }
  }

  /** The escaped text holds only unreserved characters and `%`. */
  lemma {:induction false} UriEncodedChars(s: string)
    ensures forall i :: 0 <= i < |EncodeUriComponent(s)| ==> UriEscapedChar(EncodeUriComponent(s)[i])
  {
    if s != [] {
      UriCharEscaped(s[0]);
      UriEncodedChars(s[1..]);
      AllAppend(UriEscapedChar, EncodeUriChar(s[0]), EncodeUriComponent(s[1..]));
    }
  }

  lemma AllAppend<T>(p: T -> bool, a: seq<T>, b: seq<T>)
    requires forall i :: 0 <= i < |a| ==> p(a[i])
    requires forall i :: 0 <= i < |b| ==> p(b[i])
    ensures forall i :: 0 <= i < |a + b| ==> p((a + b)[i])
  {
    forall i | 0 <= i < |a + b| ensures p((a + b)[i]) {
      if i >= |a| {
        assert (a + b)[i] == b[i - |a|];
      }
    }
  }

  /** The form-urlencoded byte serializer applied to the UTF-8 encoding of `s`. */
  function FormUrlEncode(s: string): string
  {
    if s == [] then [] else FormEncodeChar(s[0]) + FormUrlEncode(s[1..])
  }

  /** A character the form serializer may write: a safe one, `%` or `+`. */
  predicate FormEscapedChar(c: char)
  {
    FormSafe(c) || c == '%' || c == '+'
  }

  lemma FormCharEscaped(c: char)
    ensures forall i :: 0 <= i < |FormEncodeChar(c)| ==> FormEscapedChar(FormEncodeChar(c)[i])
  {
    if c != ' ' && !FormSafe(c) {
      PercentBytesChars(Utf8(c));
    }
  }

  /** The serialized text holds only form-safe characters, `%` and `+`. */
  lemma {:induction false} FormEncodedChars(s: string)
    ensures forall i :: 0 <= i < |FormUrlEncode(s)| ==> FormEscapedChar(FormUrlEncode(s)[i])
  {
    if s != [] {
      FormCharEscaped(s[0]);
      FormEncodedChars(s[1..]);
      AllAppend(FormEscapedChar, FormEncodeChar(s[0]), FormUrlEncode(s[1..]));
    }
  }

  /** `new URLSearchParams(pairs).toString()`: `name=value` pairs joined by `&`. */
  function SerializeForm(pairs: seq<(string, string)>): (r: string)
    ensures pairs == [] <==> r == []
  {
    Join(EncodedPieces(pairs), '&')
  }

  /**
   * The percent-decode of the URL Standard (section 1.3) applied to the
   * UTF-8 encoding of `t`: `%HH` becomes the byte `HH`, a `%` not followed
   * by two hex digits stays as it is, and, when `plusIsSpace`, `+` becomes a
   * space as the form parser wants.
   */
  function PercentDecode(t: string, plusIsSpace: bool): seq<Byte>
    decreases |t|
  {
    if t == [] then []
    else if t[0] == '%' && |t| >= 3 && IsHex(t[1]) && IsHex(t[2]) then
      [HexValue(t[1]) * 16 + HexValue(t[2])] + PercentDecode(t[3..], plusIsSpace)
    else if t[0] == '+' && plusIsSpace then [0x20] + PercentDecode(t[1..], plusIsSpace)
    else Utf8(t[0]) + PercentDecode(t[1..], plusIsSpace)
  }

  lemma DecodeTriplet(hi: char, lo: char, tail: string, plusIsSpace: bool)
    requires IsHex(hi) && IsHex(lo)
    ensures PercentDecode(['%', hi, lo] + tail, plusIsSpace)
      == [HexValue(hi) * 16 + HexValue(lo)] + PercentDecode(tail, plusIsSpace)
  {
    assert (['%', hi, lo] + tail)[3..] == tail;
  }

  /** One `%HH` triplet decodes to its byte. */
  lemma DecodeByte(b: Byte, tail: string, plusIsSpace: bool)
    ensures PercentDecode(['%', HexDigit(b / 16), HexDigit(b % 16)] + tail, plusIsSpace)
      == [b] + PercentDecode(tail, plusIsSpace)
  {
    HexDigitValue(b / 16);
    HexDigitValue(b % 16);
    DecodeTriplet(HexDigit(b / 16), HexDigit(b % 16), tail, plusIsSpace);
  }

  lemma {:induction false} DecodePercentBytes(bs: seq<Byte>, rest: string, plusIsSpace: bool)
    ensures PercentDecode(PercentBytes(bs) + rest, plusIsSpace) == bs + PercentDecode(rest, plusIsSpace)
  {
    if bs != [] {
      var b0, t := bs[0], PercentBytes(bs[1..]);
      var triplet := ['%', HexDigit(b0 / 16), HexDigit(b0 % 16)];
      PercentBytesCons(bs);
      Regroup(triplet, t, rest);
      DecodeByte(b0, t + rest, plusIsSpace);
      DecodePercentBytes(bs[1..], rest, plusIsSpace);
      Regroup([b0], bs[1..], PercentDecode(rest, plusIsSpace));
      assert [b0] + bs[1..] == bs;
    } else {
      assert PercentBytes(bs) + rest == rest;
    }
  }

  lemma PercentBytesCons(bs: seq<Byte>)
    requires bs != []
    ensures PercentBytes(bs) == ['%', HexDigit(bs[0] / 16), HexDigit(bs[0] % 16)] + PercentBytes(bs[1..])
  {
  }

  lemma Regroup<T>(a: seq<T>, b: seq<T>, c: seq<T>)
    ensures a + b + c == a + (b + c)
  {
  }

  /** A server that percent-decodes the `country` value gets back the UTF-8 bytes of what was typed. */
  lemma {:induction false} UriComponentRoundTrip(s: string)
    ensures PercentDecode(EncodeUriComponent(s), false) == Utf8Bytes(s)
    ensures Utf8Decode(PercentDecode(EncodeUriComponent(s), false)) == Some(s)
  {
    if s != [] {
      var c := s[0];
      var tail := EncodeUriComponent(s[1..]);
      UriComponentRoundTrip(s[1..]);
      if UriUnreserved(c) {
        assert ([c] + tail)[1..] == tail;
      } else {
        DecodePercentBytes(Utf8(c), tail, false);
      }
    }
    Utf8RoundTrip(s);
  }

  /** The same for the form serializer and the form parser's decoding. */
  lemma {:induction false} FormRoundTrip(s: string)
    ensures PercentDecode(FormUrlEncode(s), true) == Utf8Bytes(s)
    ensures Utf8Decode(PercentDecode(FormUrlEncode(s), true)) == Some(s)
  {
    if s != [] {
      var c := s[0];
      var tail := FormUrlEncode(s[1..]);
      FormRoundTrip(s[1..]);
      if c == ' ' {
        assert ("+" + tail)[1..] == tail;
      } else if FormSafe(c) {
        assert ([c] + tail)[1..] == tail;
      } else {
        DecodePercentBytes(Utf8(c), tail, true);
      }
    }
    Utf8RoundTrip(s);
  }

  /** The characters on which the two encoders differ. */
  predicate EncodersDiffer(c: char)
  {
    c in " !'()~"
  }

  lemma EncodeCharsAgree(c: char)
    ensures EncodeUriChar(c) == FormEncodeChar(c) <==> !EncodersDiffer(c)
  {
    if EncodersDiffer(c) {
      assert EncodeUriChar(c)[0] != FormEncodeChar(c)[0];
    }
  }

  lemma {:induction false} EncodeUriAppend(a: string, b: string)
    ensures EncodeUriComponent(a + b) == EncodeUriComponent(a) + EncodeUriComponent(b)
  {
    if a != [] {
      assert (a + b)[0] == a[0];
      assert (a + b)[1..] == a[1..] + b;
      EncodeUriAppend(a[1..], b);
    } else {
      assert a + b == b;
    }
  }

  lemma FormEncodeCons(c: char, s: string)
    ensures FormUrlEncode([c] + s) == FormEncodeChar(c) + FormUrlEncode(s)
  {
    assert ([c] + s)[1..] == s;
  }

  lemma {:induction false} FormEncodeAppend(a: string, b: string)
    ensures FormUrlEncode(a + b) == FormUrlEncode(a) + FormUrlEncode(b)
  {
    if a != [] {
      var c, t := a[0], a[1..];
      assert a == [c] + t && a + b == [c] + (t + b);
      FormEncodeCons(c, t + b);
      FormEncodeCons(c, t);
      FormEncodeAppend(t, b);
      Regroup(FormEncodeChar(c), FormUrlEncode(t), FormUrlEncode(b));
    } else {
      assert a + b == b;
    }
  }

  /**
   * `encodeURIComponent` and the form serializer give the same text exactly
   * when the value holds none of space, `!`, `'`, `(`, `)` and `~`.
   */
  lemma {:induction false} EncodersAgreeIff(s: string)
    ensures EncodeUriComponent(s) == FormUrlEncode(s) <==> forall i :: 0 <= i < |s| ==> !EncodersDiffer(s[i])
  {
    if s != [] {
      var u, f := EncodeUriChar(s[0]), FormEncodeChar(s[0]);
      var ut, ft := EncodeUriComponent(s[1..]), FormUrlEncode(s[1..]);
      EncodeCharsAgree(s[0]);
      if EncodersDiffer(s[0]) {
        assert (u + ut)[0] == u[0] && (f + ft)[0] == f[0];
      } else {
        EncodersAgreeIff(s[1..]);
        assert u == f;
        assert (u + ut)[|u|..] == ut && (f + ft)[|u|..] == ft;
        assert (forall i :: 0 <= i < |s| ==> !EncodersDiffer(s[i]))
          <==> (forall i :: 0 <= i < |s[1..]| ==> !EncodersDiffer(s[1..][i])) by {
          assert forall i :: 0 < i < |s| ==> s[i] == s[1..][i - 1];
        }
      }
    }
  }

  /** A name/value piece of a form body: split at the first `=`. */
  function ParsePiece(piece: string): (string, string)
  {
    if '=' in piece then
      var i := FirstIndex(piece, '=');
      (piece[..i], piece[i + 1..])
    else (piece, "")
  }

  function DecodeFormText(t: string): Option<string>
  {
    Utf8Decode(PercentDecode(t, true))
  }

  function DecodePairs(pieces: seq<string>): Option<seq<(string, string)>>
  {
    if pieces == [] then Some([])
    else if pieces[0] == [] then DecodePairs(pieces[1..])
    else
      var (n, v) := ParsePiece(pieces[0]);
      match (DecodeFormText(n), DecodeFormText(v), DecodePairs(pieces[1..]))
      case (Some(n'), Some(v'), Some(rest)) => Some([(n', v')] + rest)
      case _ => None
  }

  /**
   * The application/x-www-form-urlencoded parser (URL Standard, section
   * 5.1): split at `&`, skip empty pieces, split each at its first `=`,
   * decode both halves; `None` where a decoded half is not UTF-8.
   */
  function ParseForm(t: string): Option<seq<(string, string)>>
  {
    DecodePairs(Split(t, '&'))
  }

  /** A piece whose name holds no `=` splits right after the name. */
  lemma ParseAtSeparator(name: string, value: string)
    requires '=' !in name
    ensures ParsePiece(name + "=" + value) == (name, value)
  {
    var piece := name + "=" + value;
    assert piece[|name|] == '=';
    var i := FirstIndex(piece, '=');
    assert piece[..|name|] == name;
    assert i == |name|;
    assert piece[i + 1..] == value;
  }

  lemma ParseEncodedPiece(n: string, v: string)
    ensures ParsePiece(FormUrlEncode(n) + "=" + FormUrlEncode(v)) == (FormUrlEncode(n), FormUrlEncode(v))
  {
    var en := FormUrlEncode(n);
    FormEncodedChars(n);
    assert '=' !in en by {
      forall i | 0 <= i < |en| ensures en[i] != '=' {
        assert FormEscapedChar(en[i]);
      }
    }
    ParseAtSeparator(en, FormUrlEncode(v));
  }

  /** A non-empty first piece whose halves decode is read as the first pair. */
  lemma DecodePairsCons(pieces: seq<string>, n': string, v': string, rest: seq<(string, string)>)
    requires pieces != [] && pieces[0] != []
    requires DecodeFormText(ParsePiece(pieces[0]).0) == Some(n')
    requires DecodeFormText(ParsePiece(pieces[0]).1) == Some(v')
    requires DecodePairs(pieces[1..]) == Some(rest)
    ensures DecodePairs(pieces) == Some([(n', v')] + rest)
  {
  }

  /** `name=value`, each half serialized. */
  function EncodedPiece(pair: (string, string)): string
  {
    FormUrlEncode(pair.0) + "=" + FormUrlEncode(pair.1)
  }

  /** The encoded piece of each pair, as the serializer joins them. */
  function EncodedPieces(pairs: seq<(string, string)>): (pieces: seq<string>)
    ensures |pieces| == |pairs|
  {
    if pairs == [] then [] else [EncodedPiece(pairs[0])] + EncodedPieces(pairs[1..])
  }

  lemma {:induction false} EncodedPieceAt(pairs: seq<(string, string)>, i: nat)
    requires i < |pairs|
    ensures EncodedPieces(pairs)[i] == EncodedPiece(pairs[i])
  {
    if i > 0 {
      EncodedPieceAt(pairs[1..], i - 1);
    }
  }

  lemma EncodedPiecesCons(pairs: seq<(string, string)>)
    requires pairs != []
    ensures EncodedPieces(pairs)[0] == EncodedPiece(pairs[0])
    ensures EncodedPieces(pairs)[1..] == EncodedPieces(pairs[1..])
  {
    assert EncodedPieces(pairs) == [EncodedPiece(pairs[0])] + EncodedPieces(pairs[1..]);
  }

  /** One encoded pair splits at its `=` into halves that decode to the name and the value. */
  lemma EncodedPieceDecodes(n: string, v: string)
    ensures ParsePiece(FormUrlEncode(n) + "=" + FormUrlEncode(v)) == (FormUrlEncode(n), FormUrlEncode(v))
    ensures DecodeFormText(FormUrlEncode(n)) == Some(n) && DecodeFormText(FormUrlEncode(v)) == Some(v)
  {
    ParseEncodedPiece(n, v);
    FormRoundTrip(n);
    FormRoundTrip(v);
  }

  /** Pieces headed by an encoded pair decode to that pair before the rest. */
  lemma DecodeEncodedHead(pair: (string, string), pieces: seq<string>, rest: seq<(string, string)>)
    requires pieces != [] && pieces[0] == EncodedPiece(pair)
    requires DecodePairs(pieces[1..]) == Some(rest)
    ensures DecodePairs(pieces) == Some([pair] + rest)
  {
    EncodedPieceDecodes(pair.0, pair.1);
    DecodePairsCons(pieces, pair.0, pair.1, rest);
  }

  lemma {:induction false} DecodeEncodedPieces(pairs: seq<(string, string)>)
    ensures DecodePairs(EncodedPieces(pairs)) == Some(pairs)
  {
    if pairs != [] {
      var rest := pairs[1..];
      EncodedPiecesCons(pairs);
      DecodeEncodedPieces(rest);
      DecodeEncodedHead(pairs[0], EncodedPieces(pairs), rest);
      assert [pairs[0]] + rest == pairs;
    }
  }

  /** A query string the tester builds reads back, pair for pair, with the form parser. */
  lemma QueryRoundTrip(pairs: seq<(string, string)>)
    ensures ParseForm(SerializeForm(pairs)) == Some(pairs)
  {
    var pieces := EncodedPieces(pairs);
    if pairs == [] {
      assert Split([], '&') == [[]];
    } else {
      forall i | 0 <= i < |pieces|
        ensures '&' !in pieces[i]
      {
        var en, ev := FormUrlEncode(pairs[i].0), FormUrlEncode(pairs[i].1);
        EncodedPieceAt(pairs, i);
        FormEncodedChars(pairs[i].0);
        FormEncodedChars(pairs[i].1);
        assert forall k :: 0 <= k < |en| ==> en[k] != '&';
        assert forall k :: 0 <= k < |ev| ==> ev[k] != '&';
        assert pieces[i] == en + "=" + ev;
      }
      SplitJoin(pieces, '&');
      DecodeEncodedPieces(pairs);
    }
  }
}
