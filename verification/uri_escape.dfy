/** `Uri.EscapeDataString`: percent-encoding as defined in section 2.1 of
    RFC 3986. Every character outside the unreserved set of section 2.3 is
    encoded in UTF-8 and each byte is written as '%' followed by two
    upper-case hexadecimal digits. */
module UriEscape {
  import opened Basics

  type Byte = b: int | 0 <= b < 256

  /** The unreserved characters of section 2.3 of RFC 3986:
      ALPHA / DIGIT / "-" / "." / "_" / "~". */
  predicate IsUnreserved(c: char) {
    || ('A' <= c <= 'Z')
    || ('a' <= c <= 'z')
    || ('0' <= c <= '9')
    || c == '-' || c == '.' || c == '_' || c == '~'
  }

  /** The UTF-8 encoding of one Unicode scalar value. */
  function Utf8(c: char): (bs: seq<Byte>)
    ensures 1 <= |bs| <= 4
    ensures |bs| == 1 <==> c as int < 0x80
    ensures |bs| == 1 ==> bs[0] == c as int
  {
    var n := c as int;
    if n < 0x80 then [n]
    else if n < 0x800 then [0xC0 + n / 64, 0x80 + n % 64]
    else if n < 0x10000 then [0xE0 + n / 4096, 0x80 + (n / 64) % 64, 0x80 + n % 64]
    else [0xF0 + n / 262144, 0x80 + (n / 4096) % 64, 0x80 + (n / 64) % 64, 0x80 + n % 64]
  }

  /** The UTF-8 encoding of a whole string. */
  function Utf8String(s: string): seq<Byte>
  {
    if |s| == 0 then [] else Utf8(s[0]) + Utf8String(s[1..])
  }

  const HexDigits: string := "0123456789ABCDEF"

  /** One byte as "%XY". */
  function PercentByte(b: Byte): (r: string)
    ensures |r| == 3 && r[0] == '%'
    ensures IsUnreserved(r[1]) && IsUnreserved(r[2])
  {
    ['%', HexDigits[b / 16], HexDigits[b % 16]]
  }

  function PercentBytes(bs: seq<Byte>): (r: string)
    ensures |r| == 3 * |bs|
    ensures forall i :: 0 <= i < |r| ==> IsUnreserved(r[i]) || r[i] == '%'
  {
    if |bs| == 0 then "" else PercentByte(bs[0]) + PercentBytes(bs[1..])
  }

  /** One character: itself when unreserved, otherwise its UTF-8 bytes
      percent-encoded. */
  function EscapeChar(c: char): (r: string)
    ensures IsUnreserved(c) ==> r == [c]
    ensures !IsUnreserved(c) ==> |r| >= 3 && r[0] == '%'
  {
    if IsUnreserved(c) then [c] else PercentBytes(Utf8(c))
  }

  /** `Uri.EscapeDataString`. The result is made only of unreserved
      characters and '%', so it can never contain a delimiter such as
      '&', '=', '?', '/' or '#', and it is never shorter than the input. */
  function EscapeDataString(s: string): (r: string)
    ensures forall i :: 0 <= i < |r| ==> IsUnreserved(r[i]) || r[i] == '%'
    ensures |r| >= |s|
    ensures |s| == 0 <==> |r| == 0
  {
    if |s| == 0 then "" else EscapeChar(s[0]) + EscapeDataString(s[1..])
  }

  /** Escaping a concatenation escapes each part. */
  lemma {:induction false} EscapeAppend(a: string, b: string)
    ensures EscapeDataString(a + b) == EscapeDataString(a) + EscapeDataString(b)
    decreases |a|
  {
    if |a| == 0 {
      assert a + b == b;
    } else {
      assert (a + b)[0] == a[0];
      assert (a + b)[1..] == a[1..] + b;
      EscapeAppend(a[1..], b);
    }
  }

  /** Escaping changes nothing exactly when every character is unreserved. */
  lemma {:induction false} EscapeIsIdentityIffUnreserved(s: string)
    ensures EscapeDataString(s) == s <==> forall i :: 0 <= i < |s| ==> IsUnreserved(s[i])
    decreases |s|
  {
    if |s| > 0 {
      EscapeIsIdentityIffUnreserved(s[1..]);
      var rest := EscapeDataString(s[1..]);
      if IsUnreserved(s[0]) {
        assert EscapeDataString(s) == [s[0]] + rest;
        if rest == s[1..] {
          assert [s[0]] + s[1..] == s;
        }
        assert forall i :: 1 <= i < |s| ==> s[i] == s[1..][i - 1];
      } else {
        assert |EscapeDataString(s)| >= 3 + |s[1..]|;
      }
    }
  }

  /** The value of a hexadecimal digit, upper or lower case. */
  function HexValue(c: char): Option<int>
  {
    if '0' <= c <= '9' then Some(c as int - '0' as int)
    else if 'A' <= c <= 'F' then Some(c as int - 'A' as int + 10)
    else if 'a' <= c <= 'f' then Some(c as int - 'a' as int + 10)
    else None
  }

  /** Percent-decoding back to bytes: "%XY" is the byte XY, any other ASCII
      character is its own byte; anything else is not an escaped string. */
  function PercentDecode(t: string): Option<seq<Byte>>
  {
    if |t| == 0 then Some([])
    else if t[0] == '%' then
      if |t| < 3 || HexValue(t[1]).None? || HexValue(t[2]).None? then None
      else
        var b := HexValue(t[1]).value * 16 + HexValue(t[2]).value;
        match PercentDecode(t[3..])
        case None => None
        case Some(rest) => Some([b as Byte] + rest)
    else if t[0] as int < 0x80 then
      match PercentDecode(t[1..])
      case None => None
      case Some(rest) => Some([t[0] as int as Byte] + rest)
    else None
  }

  lemma HexDigitValue(n: int)
    requires 0 <= n < 16
    ensures HexValue(HexDigits[n]) == Some(n)
  {
  }

  /** `bs` in front of a decoding, if it succeeded. */
  function Prepend(bs: seq<Byte>, o: Option<seq<Byte>>): Option<seq<Byte>>
  {
    match o
    case None => None
    case Some(r) => Some(bs + r)
  }

  /** Decoding one "%XY" in front of a text yields its byte in front of
      the decoding of the text. */
  lemma DecodePercentByte(b: Byte, tail: string)
    ensures PercentDecode(PercentByte(b) + tail) == Prepend([b], PercentDecode(tail))
  {
    var t := PercentByte(b) + tail;
    HexDigitValue(b / 16);
    HexDigitValue(b % 16);
    assert t[0] == '%' && t[1] == HexDigits[b / 16] && t[2] == HexDigits[b % 16];
    assert t[3..] == tail;
  }

  lemma PrependAssociates(a: seq<Byte>, b: seq<Byte>, o: Option<seq<Byte>>)
    ensures Prepend(a, Prepend(b, o)) == Prepend(a + b, o)
    ensures Prepend([], o) == o
  {
    if o.Some? {
      assert a + (b + o.value) == (a + b) + o.value;
      assert [] + o.value == o.value;
    }
  }

  /** Decoding a run of "%XY" escapes in front of a text yields their
      bytes in front of the decoding of the text. */
  lemma {:induction false} DecodePercentBytes(bs: seq<Byte>, rest: string)
    ensures PercentDecode(PercentBytes(bs) + rest) == Prepend(bs, PercentDecode(rest))
    decreases |bs|
  {
    if |bs| == 0 {
      assert PercentBytes(bs) + rest == rest;
      PrependAssociates([], [], PercentDecode(rest));
    } else {
      var tail := PercentBytes(bs[1..]) + rest;
      DecodePercentBytes(bs[1..], rest);
      PercentBytesCons(bs, rest);
      DecodeOneMore(bs[0], bs[1..], tail, PercentDecode(rest));
      assert [bs[0]] + bs[1..] == bs;
    }
  }

  lemma PercentBytesCons(bs: seq<Byte>, rest: string)
    requires |bs| > 0
    ensures PercentBytes(bs) + rest == PercentByte(bs[0]) + (PercentBytes(bs[1..]) + rest)
  {
    Associates(PercentByte(bs[0]), PercentBytes(bs[1..]), rest);
  }

  lemma Associates<T>(a: seq<T>, b: seq<T>, c: seq<T>)
    ensures (a + b) + c == a + (b + c)
  {
  }

  /** The inductive step: one more escape in front of a decoding. */
  lemma DecodeOneMore(b: Byte, bs: seq<Byte>, tail: string, d: Option<seq<Byte>>)
    requires PercentDecode(tail) == Prepend(bs, d)
    ensures PercentDecode(PercentByte(b) + tail) == Prepend([b] + bs, d)
  {
    DecodePercentByte(b, tail);
    PrependAssociates([b], bs, d);
  }

  /** Decoding undoes escaping: the escaped text decodes to exactly the
      UTF-8 bytes of the original string. */
  lemma {:induction false} DecodeEscape(s: string)
    ensures PercentDecode(EscapeDataString(s)) == Some(Utf8String(s))
    decreases |s|
  {
    if |s| > 0 {
      var rest := EscapeDataString(s[1..]);
      DecodeEscape(s[1..]);
      if IsUnreserved(s[0]) {
        var t := [s[0]] + rest;
        assert t[1..] == rest;
        assert Utf8String(s) == [s[0] as int] + Utf8String(s[1..]);
      } else {
        DecodePercentBytes(Utf8(s[0]), rest);
      }
    }
  }
}
