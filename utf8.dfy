/** `Encoding.UTF8.GetBytes`, on strings of Unicode scalar values. */
module Utf8 {
  type byte = b: nat | b < 256

  /** The bytes of one code point, in the shortest form. */
  function EncodeChar(c: char): (r: seq<byte>)
    ensures 1 <= |r| <= 4
  {
    var n := c as int;
    if n < 0x80 then [n]
    else if n < 0x800 then [0xC0 + n / 64, 0x80 + n % 64]
    else if n < 0x1_0000 then [0xE0 + n / 4096, 0x80 + (n / 64) % 64, 0x80 + n % 64]
    else [0xF0 + n / 262144, 0x80 + (n / 4096) % 64, 0x80 + (n / 64) % 64, 0x80 + n % 64]
  }

  function Encode(s: string): (r: seq<byte>)
    ensures |s| <= |r| <= 4 * |s|
  {
    if s == [] then [] else EncodeChar(s[0]) + Encode(s[1..])
  }

  /** The code point at the start of `bs` and the number of bytes it takes,
      read from the lead byte. */
  function DecodeFirst(bs: seq<byte>): (int, nat)
    requires bs != []
  {
    var b0: int := bs[0];
    if b0 < 0x80 then (b0, 1)
    else if b0 < 0xE0 then (if |bs| < 2 then (0, 1) else ((b0 - 0xC0) * 64 + (bs[1] as int - 0x80), 2))
    else if b0 < 0xF0 then (if |bs| < 3 then (0, 1) else ((b0 - 0xE0) * 4096 + (bs[1] as int - 0x80) * 64 + (bs[2] as int - 0x80), 3))
    else (if |bs| < 4 then (0, 1) else ((b0 - 0xF0) * 262144 + (bs[1] as int - 0x80) * 4096 + (bs[2] as int - 0x80) * 64 + (bs[3] as int - 0x80), 4))
  }

  /** The first character of an encoding can be read back from its lead byte. */
  lemma DecodeEncodeChar(c: char, rest: seq<byte>)
    ensures DecodeFirst(EncodeChar(c) + rest) == (c as int, |EncodeChar(c)|)
  {
    var n := c as int;
    var e := EncodeChar(c);
    if n < 0x80 {
    } else if n < 0x800 {
      assert 0xC0 <= e[0] < 0xE0;
      assert (e[0] as int - 0xC0) * 64 + (e[1] as int - 0x80) == (n / 64) * 64 + n % 64 == n;
    } else if n < 0x1_0000 {
      assert 0xE0 <= e[0] < 0xF0;
      ThreeBytes(n);
    } else {
      assert 0xF0 <= e[0];
      FourBytes(n);
    }
  }

  lemma ThreeBytes(n: int)
    requires 0 <= n < 0x1_0000
    ensures (n / 4096) * 4096 + ((n / 64) % 64) * 64 + n % 64 == n
  {
    assert (n / 64) == (n / 4096) * 64 + (n / 64) % 64;
    assert n == (n / 64) * 64 + n % 64;
  }

  lemma FourBytes(n: int)
    requires 0 <= n
    ensures (n / 262144) * 262144 + ((n / 4096) % 64) * 4096 + ((n / 64) % 64) * 64 + n % 64 == n
  {
    assert (n / 4096) == (n / 262144) * 64 + (n / 4096) % 64;
    assert (n / 64) == (n / 4096) * 64 + (n / 64) % 64;
    assert n == (n / 64) * 64 + n % 64;
  }

  /** Different strings have different encodings. */
  lemma {:induction false} EncodeInjective(s: string, t: string)
    requires Encode(s) == Encode(t)
    ensures s == t
  {
    if s != [] && t != [] {
      DecodeEncodeChar(s[0], Encode(s[1..]));
      DecodeEncodeChar(t[0], Encode(t[1..]));
      assert s[0] as int == t[0] as int;
      var k := |EncodeChar(s[0])|;
      assert Encode(s)[k..] == Encode(s[1..]);
      assert Encode(t)[k..] == Encode(t[1..]);
      EncodeInjective(s[1..], t[1..]);
      assert s == [s[0]] + s[1..] && t == [t[0]] + t[1..];
    }
  }

  /** ASCII text is encoded one byte per character. */
  lemma {:induction false} AsciiIsOneBytePerChar(s: string)
    requires forall i :: 0 <= i < |s| ==> s[i] as int < 0x80
    ensures |Encode(s)| == |s|
    ensures forall i :: 0 <= i < |s| ==> Encode(s)[i] == s[i] as int
  {
    if s != [] {
      AsciiIsOneBytePerChar(s[1..]);
    }
  }
}
