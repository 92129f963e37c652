/** UTF-8 byte lengths and `utf8_truncate` (django_sagepay/utils.py).

    A string is a sequence of Unicode code points. The source encodes a string
    to UTF-8, keeps the first `max_length` bytes and decodes them again with
    errors ignored, so a code point cut in half by the byte slice disappears.
    `Truncate` states that outcome on code points; `TruncateBytes` ties it back
    to the bytes. */
module Utf8 {

  newtype byte = x: int | 0 <= x < 256

  /** How many bytes UTF-8 spends on one code point. */
  function CharLength(c: char): (n: nat)
    ensures 1 <= n <= 4
  {
    if c as int < 0x80 then 1
    else if c as int < 0x800 then 2
    else if c as int < 0x1_0000 then 3
    else 4
  }

  /** The UTF-8 encoding of one code point (RFC 3629, section 3). */
  function EncodeChar(c: char): (bs: seq<byte>)
    ensures |bs| == CharLength(c)
    ensures CharLength(c) == 1 <==> bs[0] < 0x80
    ensures forall i :: 1 <= i < |bs| ==> 0x80 <= bs[i] < 0xC0
  {
    var n := c as int;
    if n < 0x80 then [n as byte]
    else if n < 0x800 then [(0xC0 + n / 0x40) as byte, (0x80 + n % 0x40) as byte]
    else if n < 0x1_0000 then
      [(0xE0 + n / 0x1000) as byte, (0x80 + n / 0x40 % 0x40) as byte, (0x80 + n % 0x40) as byte]
    else
      [(0xF0 + n / 0x4_0000) as byte, (0x80 + n / 0x1000 % 0x40) as byte,
       (0x80 + n / 0x40 % 0x40) as byte, (0x80 + n % 0x40) as byte]
  }

  /** `s.encode('utf-8')` */
  function Encode(s: string): (bs: seq<byte>)
  {
    if s == [] then [] else EncodeChar(s[0]) + Encode(s[1..])
  }

  /** The length in bytes of the UTF-8 encoding of `s`. */
  function Length(s: string): nat
  {
    |Encode(s)|
  }

  lemma {:induction false} EncodeAppend(a: string, b: string)
    ensures Encode(a + b) == Encode(a) + Encode(b)
  {
    if a != [] {
      assert (a + b)[0] == a[0];
      assert (a + b)[1..] == a[1..] + b;
      calc {
        Encode(a + b);
        EncodeChar(a[0]) + Encode(a[1..] + b);
        { EncodeAppend(a[1..], b); }
        EncodeChar(a[0]) + (Encode(a[1..]) + Encode(b));
        Encode(a) + Encode(b);
      }
    } else {
      assert a + b == b;
    }
  }

  /** Each byte length of a prefix never exceeds that of the whole string. */
  lemma PrefixLength(s: string, k: nat)
    requires k <= |s|
    ensures Length(s[..k]) <= Length(s)
  {
    assert s == s[..k] + s[k..];
    EncodeAppend(s[..k], s[k..]);
  }

  /** `utf8_truncate(s, max_length)`: the longest code-point prefix of `s`
      whose UTF-8 encoding fits in `maxLength` bytes. */
  function Truncate(s: string, maxLength: nat): (r: string)
    ensures |r| <= |s| && r == s[..|r|]
    ensures Length(r) <= maxLength
    ensures |r| < |s| ==> maxLength < Length(r) + CharLength(s[|r|])
  {
    if s == [] || maxLength < CharLength(s[0]) then []
    else
      var rest := Truncate(s[1..], maxLength - CharLength(s[0]));
      assert ([s[0]] + rest)[0] == s[0] && ([s[0]] + rest)[1..] == rest;
      [s[0]] + rest
  }

  /** A string that already fits is returned unchanged, and only such a
      string: the comparison `basket == utf8_truncate(basket, n)` the
      truncator makes is a byte-length test. */
  lemma {:induction false} TruncateUnchangedIff(s: string, maxLength: nat)
    ensures Truncate(s, maxLength) == s <==> Length(s) <= maxLength
  {
    var r := Truncate(s, maxLength);
    if |r| < |s| {
      var k := |r| + 1;
      assert s[..k] == r + [s[|r|]];
      EncodeAppend(r, [s[|r|]]);
      assert Encode([s[|r|]]) == EncodeChar(s[|r|]);
      PrefixLength(s, k);
    }
  }

  /** Truncating twice is truncating once. */
  lemma TruncateIdempotent(s: string, maxLength: nat)
    ensures Truncate(Truncate(s, maxLength), maxLength) == Truncate(s, maxLength)
  {
    TruncateUnchangedIff(Truncate(s, maxLength), maxLength);
  }

  /** The bytes that follow the encoding of the truncated string in the byte
      slice: part of the next code point's encoding, or nothing. */
  function DroppedBytes(s: string, maxLength: nat): seq<byte>
  {
    var r := Truncate(s, maxLength);
    if |r| < |s| then EncodeChar(s[|r|])[..maxLength - Length(r)] else []
  }

  lemma SliceOfConcat(a: seq<byte>, b: seq<byte>, c: seq<byte>, k: nat)
    requires |a| <= k <= |a| + |b|
    ensures (a + b + c)[..k] == a + b[..k - |a|]
  {
  }

  /** The encoding around one code point of `s`. */
  lemma EncodeAround(s: string, i: nat)
    requires i < |s|
    ensures Encode(s) == Encode(s[..i]) + EncodeChar(s[i]) + Encode(s[i + 1..])
  {
    var tail := s[i..];
    assert s == s[..i] + tail;
    EncodeAppend(s[..i], tail);
    assert tail[0] == s[i] && tail[1..] == s[i + 1..];
  }

  /** What the byte slice `encoded[:max_length]` holds: the encoding of the
      truncated string followed by fewer bytes than the next code point needs.
      Those trailing bytes are an incomplete sequence, which decoding with
      errors ignored drops, so no part of a multi-byte code point survives. */
  lemma TruncateBytes(s: string, maxLength: nat)
    ensures var cut := if maxLength < Length(s) then maxLength else Length(s);
            Encode(s)[..cut] == Encode(Truncate(s, maxLength)) + DroppedBytes(s, maxLength)
    ensures |Truncate(s, maxLength)| < |s| ==>
              |DroppedBytes(s, maxLength)| < CharLength(s[|Truncate(s, maxLength)|])
  {
    var r := Truncate(s, maxLength);
    if |r| < |s| {
      EncodeAround(s, |r|);
      SliceOfConcat(Encode(r), EncodeChar(s[|r|]), Encode(s[|r| + 1..]), maxLength);
    } else {
      TruncateUnchangedIff(s, maxLength);
    }
  }
}
