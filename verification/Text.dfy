/** Go strings: valid UTF-8, seen either as code points (`string`) or as bytes.
  *
  * Edit distance counts code points; `len`, indexing and Jaro similarity work on bytes.
  */
module Text {

  type Byte = b: int | 0 <= b < 256 witness 0

  /** Bytes that UTF-8 spends on one code point. */
  function Utf8Width(c: char): (n: nat)
    ensures 1 <= n <= 4
  {
    if c < '\U{80}' then 1
    else if c < '\U{800}' then 2
    else if c < '\U{10000}' then 3
    else 4
  }

  function ByteLength(s: string): nat {
    if s == [] then 0 else Utf8Width(s[0]) + ByteLength(s[1..])
  }

  lemma {:induction false} ByteLengthCoversRunes(s: string)
    ensures |s| <= ByteLength(s) <= 4 * |s|
  {
    if s != [] {
      ByteLengthCoversRunes(s[1..]);
    }
  }

  function EncodeRune(c: char): (bs: seq<Byte>)
    ensures |bs| == Utf8Width(c)
  {
    var n := c as int;
    if c < '\U{80}' then [n]
    else if c < '\U{800}' then [0xC0 + n / 64, 0x80 + n % 64]
    else if c < '\U{10000}' then [0xE0 + n / 4096, 0x80 + n / 64 % 64, 0x80 + n % 64]
    else [0xF0 + n / 262144, 0x80 + n / 4096 % 64, 0x80 + n / 64 % 64, 0x80 + n % 64]
  }

  function Utf8Bytes(s: string): seq<Byte> {
    if s == [] then [] else EncodeRune(s[0]) + Utf8Bytes(s[1..])
  }

  lemma {:induction false} Utf8BytesLength(s: string)
    ensures |Utf8Bytes(s)| == ByteLength(s)
  {
    if s != [] {
      Utf8BytesLength(s[1..]);
    }
  }

  /** The lead byte tells the width, so code points are recovered from their bytes. */
  lemma EncodeRuneInjective(c: char, d: char, x: seq<Byte>, y: seq<Byte>)
    requires EncodeRune(c) + x == EncodeRune(d) + y
    ensures c == d && x == y
  {
    var u, v := EncodeRune(c) + x, EncodeRune(d) + y;
    assert u[0] == EncodeRune(c)[0] && v[0] == EncodeRune(d)[0];
    assert Utf8Width(c) == Utf8Width(d);
    var w := Utf8Width(c);
    assert EncodeRune(c) == u[..w] == v[..w] == EncodeRune(d);
    assert x == u[w..] && y == v[w..];
    SameEncodingSameRune(c, d);
  }

  lemma SameEncodingSameRune(c: char, d: char)
    requires EncodeRune(c) == EncodeRune(d)
    ensures c == d
  {
    var s, t := EncodeRune(c), EncodeRune(d);
    assert |s| == Utf8Width(c) && |t| == Utf8Width(d);
    assert forall k :: 0 <= k < |s| ==> s[k] == t[k];
    DigitsOf(c as int);
    DigitsOf(d as int);
    assert c as int == d as int;
  }

  lemma DigitsOf(n: nat)
    ensures n == 64 * (n / 64) + n % 64
    ensures n / 64 == 64 * (n / 4096) + n / 64 % 64
    ensures n / 4096 == 64 * (n / 262144) + n / 4096 % 64
  {
    assert n / 4096 == n / 64 / 64;
    assert n / 262144 == n / 4096 / 64;
  }

  lemma {:induction false} Utf8BytesInjective(s: string, t: string)
    requires Utf8Bytes(s) == Utf8Bytes(t)
    ensures s == t
  {
    Utf8BytesLength(s);
    Utf8BytesLength(t);
    ByteLengthCoversRunes(s);
    ByteLengthCoversRunes(t);
    if s != [] && t != [] {
      EncodeRuneInjective(s[0], t[0], Utf8Bytes(s[1..]), Utf8Bytes(t[1..]));
      Utf8BytesInjective(s[1..], t[1..]);
      assert s == [s[0]] + s[1..] && t == [t[0]] + t[1..];
    }
  }

  /** Up to code point 127 a string is its own encoding. */
  lemma {:induction false} AsciiBytes(s: string)
    requires forall k :: 0 <= k < |s| ==> s[k] < '\U{80}'
    ensures ByteLength(s) == |s| == |Utf8Bytes(s)|
    ensures forall k :: 0 <= k < |s| ==> Utf8Bytes(s)[k] == s[k] as int
  {
    if s != [] {
      AsciiBytes(s[1..]);
    }
  }

  /** What the bytes of a code point mean, read as section 3 of RFC 3629 has it. */
  function Payload(bs: seq<int>): int
    requires 1 <= |bs| <= 4
  {
    if |bs| == 1 then bs[0]
    else if |bs| == 2 then (bs[0] - 0xC0) * 64 + (bs[1] - 0x80)
    else if |bs| == 3 then ((bs[0] - 0xE0) * 64 + (bs[1] - 0x80)) * 64 + (bs[2] - 0x80)
    else (((bs[0] - 0xF0) * 64 + (bs[1] - 0x80)) * 64 + (bs[2] - 0x80)) * 64 + (bs[3] - 0x80)
  }

  /** The bytes of a code point decode to it, follow the pattern of their number, and are no more than needed. */
  lemma EncodingIsShortest(c: char)
    ensures var bs := EncodeRune(c);
            && Payload(bs) == c as int
            && (forall k :: 1 <= k < |bs| ==> 0x80 <= bs[k] < 0xC0)
            && match |bs|
               case 1 => true
               case 2 => 0xC0 <= bs[0] < 0xE0 && Payload(bs) >= 0x80
               case 3 => 0xE0 <= bs[0] < 0xF0 && Payload(bs) >= 0x800
               case _ => 0xF0 <= bs[0] < 0xF8 && Payload(bs) >= 0x10000
  {
    DigitsOf(c as int);
  }
}
