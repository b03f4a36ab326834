/** `java.util.Base64.getEncoder()` and `getDecoder()` (the basic RFC 4648 alphabet):
    the encoder pads with '=', the decoder accepts padded or unpadded endings and
    rejects any character outside the alphabet. */
module Base64 {
  import opened Support

  type byte = x: int | 0 <= x < 256
  type sextet = x: int | 0 <= x < 64

  /** The alphabet: A-Z, a-z, 0-9, '+', '/'. */
  predicate IsBase64Char(c: char)
  {
    ('A' <= c <= 'Z') || ('a' <= c <= 'z') || ('0' <= c <= '9') || c == '+' || c == '/'
  }

  function CharOf(v: sextet): (c: char)
    ensures IsBase64Char(c)
  {
    if v < 26 then (65 + v) as char
    else if v < 52 then (97 + v - 26) as char
    else if v < 62 then (48 + v - 52) as char
    else if v == 62 then '+'
    else '/'
  }

  function ValueOf(c: char): (v: sextet)
    requires IsBase64Char(c)
    ensures CharOf(v) == c
  {
    if 'A' <= c <= 'Z' then c as int - 65
    else if 'a' <= c <= 'z' then c as int - 97 + 26
    else if '0' <= c <= '9' then c as int - 48 + 52
    else if c == '+' then 62
    else 63
  }

  lemma ValueOfCharOf(v: sextet)
    ensures ValueOf(CharOf(v)) == v
  {
  }

  /** Three bytes become four characters. */
  function EncodeTriple(a: byte, b: byte, c: byte): (s: string)
    ensures |s| == 4 && forall i :: 0 <= i < 4 ==> IsBase64Char(s[i])
  {
    [CharOf(a / 4), CharOf((a % 4) * 16 + b / 16), CharOf((b % 16) * 4 + c / 64), CharOf(c % 64)]
  }

  /** A final pair of bytes: three characters and one '='. */
  function EncodePair(a: byte, b: byte): (s: string)
    ensures |s| == 4
  {
    [CharOf(a / 4), CharOf((a % 4) * 16 + b / 16), CharOf((b % 16) * 4), '=']
  }

  /** A final single byte: two characters and "==". */
  function EncodeSingle(a: byte): (s: string)
    ensures |s| == 4
  {
    [CharOf(a / 4), CharOf((a % 4) * 16), '=', '=']
  }

  /** `Base64.getEncoder().encodeToString(bytes)` */
  function Encode(bytes: seq<byte>): (s: string)
    ensures |s| % 4 == 0
    decreases |bytes|
  {
    if |bytes| == 0 then []
    else if |bytes| == 1 then EncodeSingle(bytes[0])
    else if |bytes| == 2 then EncodePair(bytes[0], bytes[1])
    else EncodeTriple(bytes[0], bytes[1], bytes[2]) + Encode(bytes[3..])
  }

  /** Four alphabet characters carry three bytes. */
  function DecodeQuad(c0: char, c1: char, c2: char, c3: char): seq<byte>
    requires IsBase64Char(c0) && IsBase64Char(c1) && IsBase64Char(c2) && IsBase64Char(c3)
  {
    var s0, s1, s2, s3 := ValueOf(c0), ValueOf(c1), ValueOf(c2), ValueOf(c3);
    [s0 * 4 + s1 / 16, (s1 % 16) * 16 + s2 / 4, (s2 % 4) * 64 + s3]
  }

  /** The last unit of the input: two or three alphabet characters, optionally padded
      with '=' to four, and nothing after the padding. */
  function DecodeFinal(s: string): Option<seq<byte>>
  {
    if |s| >= 2 && IsBase64Char(s[0]) && IsBase64Char(s[1]) then
      var s0, s1 := ValueOf(s[0]), ValueOf(s[1]);
      if |s| == 2 || (|s| == 4 && s[2] == '=' && s[3] == '=') then
        Some([s0 * 4 + s1 / 16])
      else if IsBase64Char(s[2]) && (|s| == 3 || (|s| == 4 && s[3] == '=')) then
        var s2 := ValueOf(s[2]);
        Some([s0 * 4 + s1 / 16, (s1 % 16) * 16 + s2 / 4])
      else None
    else None
  }

  /** `Base64.getDecoder().decode(text)`: None where Java throws IllegalArgumentException. */
  function Decode(s: string): Option<seq<byte>>
    decreases |s|
  {
    if |s| == 0 then Some([])
    else if |s| >= 4 && IsBase64Char(s[0]) && IsBase64Char(s[1]) && IsBase64Char(s[2]) && IsBase64Char(s[3]) then
      match Decode(s[4..])
      case None => None
      case Some(rest) => Some(DecodeQuad(s[0], s[1], s[2], s[3]) + rest)
    else DecodeFinal(s)
  }

  /** A sextet that joins the low bits of one byte to the high bits of the next splits
      back into the two parts. */
  lemma Split16(hi: int, lo: int)
    requires 0 <= lo < 16
    ensures (hi * 16 + lo) / 16 == hi && (hi * 16 + lo) % 16 == lo
  {
  }

  lemma Split4(hi: int, lo: int)
    requires 0 <= lo < 4
    ensures (hi * 4 + lo) / 4 == hi && (hi * 4 + lo) % 4 == lo
  {
  }

  lemma TripleRoundTrip(a: byte, b: byte, c: byte)
    ensures var s := EncodeTriple(a, b, c); DecodeQuad(s[0], s[1], s[2], s[3]) == [a, b, c]
  {
    var v0, v1, v2, v3 := a / 4, (a % 4) * 16 + b / 16, (b % 16) * 4 + c / 64, c % 64;
    ValueOfCharOf(v0);
    ValueOfCharOf(v1);
    ValueOfCharOf(v2);
    ValueOfCharOf(v3);
    Split16(a % 4, b / 16);
    Split4(b % 16, c / 64);
    assert v0 * 4 + v1 / 16 == a;
    assert (v1 % 16) * 16 + v2 / 4 == b;
    assert (v2 % 4) * 64 + v3 == c;
  }

  lemma PairRoundTrip(a: byte, b: byte)
    ensures Decode(EncodePair(a, b)) == Some([a, b])
  {
    var e := EncodePair(a, b);
    var v0, v1, v2 := a / 4, (a % 4) * 16 + b / 16, (b % 16) * 4;
    ValueOfCharOf(v0);
    ValueOfCharOf(v1);
    ValueOfCharOf(v2);
    Split16(a % 4, b / 16);
    Split4(b % 16, 0);
    assert v0 * 4 + v1 / 16 == a && (v1 % 16) * 16 + v2 / 4 == b;
    assert !IsBase64Char(e[3]);
    assert Decode(e) == DecodeFinal(e);
  }

  lemma SingleRoundTrip(a: byte)
    ensures Decode(EncodeSingle(a)) == Some([a])
  {
    var e := EncodeSingle(a);
    ValueOfCharOf(a / 4);
    ValueOfCharOf((a % 4) * 16);
    assert !IsBase64Char(e[3]);
    assert Decode(e) == DecodeFinal(e);
  }

  /** A leading unit of four alphabet characters is decoded on its own. */
  lemma DecodeLeadingQuad(q: string, rest: string)
    requires |q| == 4 && forall i :: 0 <= i < 4 ==> IsBase64Char(q[i])
    ensures Decode(q + rest) == match Decode(rest)
                                case None => None
                                case Some(tail) => Some(DecodeQuad(q[0], q[1], q[2], q[3]) + tail)
  {
    assert (q + rest)[4..] == rest;
  }

  /** Decoding undoes encoding: what `encodeToString` produces, `decode` turns back into
      the same bytes, so the decoder never rejects the encoder's output. */
  lemma {:induction false} DecodeEncode(bytes: seq<byte>)
    ensures Decode(Encode(bytes)) == Some(bytes)
    decreases |bytes|
  {
    if |bytes| == 1 {
      SingleRoundTrip(bytes[0]);
      assert Encode(bytes) == EncodeSingle(bytes[0]);
      assert bytes == [bytes[0]];
    } else if |bytes| == 2 {
      PairRoundTrip(bytes[0], bytes[1]);
      assert Encode(bytes) == EncodePair(bytes[0], bytes[1]);
      assert bytes == [bytes[0], bytes[1]];
    } else if |bytes| >= 3 {
      var rest := bytes[3..];
      DecodeEncode(rest);
      LeadingTriple(bytes[0], bytes[1], bytes[2], rest);
      assert Encode(bytes) == EncodeTriple(bytes[0], bytes[1], bytes[2]) + Encode(rest);
      SplitThree(bytes);
    }
  }

  lemma SplitThree<T>(s: seq<T>)
    requires |s| >= 3
    ensures [s[0], s[1], s[2]] + s[3..] == s
  {
  }

  /** The step of the round trip: a leading triple is decoded back in front of the rest. */
  lemma LeadingTriple(a: byte, b: byte, c: byte, rest: seq<byte>)
    requires Decode(Encode(rest)) == Some(rest)
    ensures Decode(EncodeTriple(a, b, c) + Encode(rest)) == Some([a, b, c] + rest)
  {
    var q := EncodeTriple(a, b, c);
    DecodeLeadingQuad(q, Encode(rest));
    TripleRoundTrip(a, b, c);
  }

  /** The encoder's output uses only the alphabet and '=' padding, and contains no comma. */
  lemma {:induction false} EncodeHasNoComma(bytes: seq<byte>)
    ensures ',' !in Encode(bytes)
    decreases |bytes|
  {
    if |bytes| >= 3 {
      EncodeHasNoComma(bytes[3..]);
      assert Encode(bytes) == EncodeTriple(bytes[0], bytes[1], bytes[2]) + Encode(bytes[3..]);
    }
  }
}
