/** `Convert.ToBase64String`: the base 64 encoding of section 4 of RFC 4648,
    with padding and without line breaks. */
module Base64 {
  import opened Utf8

  /** The alphabet of Table 1 of RFC 4648. */
  function Sextet(v: nat): (c: char)
    requires v < 64
  {
    if v < 26 then ('A' as int + v) as char
    else if v < 52 then ('a' as int + v - 26) as char
    else if v < 62 then ('0' as int + v - 52) as char
    else if v == 62 then '+' else '/'
  }

  predicate IsAlphabetChar(c: char) {
    'A' <= c <= 'Z' || 'a' <= c <= 'z' || '0' <= c <= '9' || c == '+' || c == '/'
  }

  /** The value an alphabet character stands for. */
  function SextetValue(c: char): (v: nat)
    ensures v < 64
  {
    if 'A' <= c <= 'Z' then c as int - 'A' as int
    else if 'a' <= c <= 'z' then c as int - 'a' as int + 26
    else if '0' <= c <= '9' then c as int - '0' as int + 52
    else if c == '+' then 62 else if c == '/' then 63 else 0
  }

  lemma SextetRoundTrip(v: nat)
    requires v < 64
    ensures IsAlphabetChar(Sextet(v)) && SextetValue(Sextet(v)) == v
  {
  }

  /** Three octets as four characters. */
  function EncodeGroup(b0: byte, b1: byte, b2: byte): string {
    [Sextet(b0 / 4), Sextet(b0 % 4 * 16 + b1 / 16), Sextet(b1 % 16 * 4 + b2 / 64), Sextet(b2 % 64)]
  }

  lemma GroupChars(b0: byte, b1: byte, b2: byte)
    ensures |EncodeGroup(b0, b1, b2)| == 4
    ensures forall i :: 0 <= i < 4 ==> IsAlphabetChar(EncodeGroup(b0, b1, b2)[i])
  {
    SextetRoundTrip(b0 / 4);
    SextetRoundTrip(b0 % 4 * 16 + b1 / 16);
    SextetRoundTrip(b1 % 16 * 4 + b2 / 64);
    SextetRoundTrip(b2 % 64);
  }

  function Encode(bs: seq<byte>): (s: string)
    ensures |s| == 4 * ((|bs| + 2) / 3)
    ensures forall i :: 0 <= i < |s| ==> IsAlphabetChar(s[i]) || s[i] == '='
    decreases |bs|
  {
    if |bs| >= 3 then
      var g, rest := EncodeGroup(bs[0], bs[1], bs[2]), Encode(bs[3..]);
      GroupChars(bs[0], bs[1], bs[2]);
      assert (|bs| + 2) / 3 == (|bs[3..]| + 2) / 3 + 1;
      assert forall i :: 4 <= i < |g + rest| ==> (g + rest)[i] == rest[i - 4];
      g + rest
    else if |bs| == 2 then [Sextet(bs[0] / 4), Sextet(bs[0] % 4 * 16 + bs[1] / 16), Sextet(bs[1] % 16 * 4), '=']
    else if |bs| == 1 then [Sextet(bs[0] / 4), Sextet(bs[0] % 4 * 16), '=', '=']
    else []
  }

  /** Decoding of well-formed encodings: each group of four characters gives
      three octets, fewer when it ends in padding. */
  function Decode(s: string): seq<byte>
    decreases |s|
  {
    if |s| < 4 then []
    else
      var v0, v1, v2, v3 := SextetValue(s[0]), SextetValue(s[1]), SextetValue(s[2]), SextetValue(s[3]);
      var b0: byte := v0 * 4 + v1 / 16;
      if s[2] == '=' then [b0]
      else
        var b1: byte := v1 % 16 * 16 + v2 / 4;
        if s[3] == '=' then [b0, b1]
        else [b0, b1, v2 % 4 * 64 + v3] + Decode(s[4..])
  }

  lemma GroupRoundTrip(b0: byte, b1: byte, b2: byte)
    ensures var v0, v1, v2, v3 := b0 / 4, b0 % 4 * 16 + b1 / 16, b1 % 16 * 4 + b2 / 64, b2 % 64;
            && v0 * 4 + v1 / 16 == b0
            && v1 % 16 * 16 + v2 / 4 == b1
            && v2 % 4 * 64 + v3 == b2
  {
  }

  /** A full group decodes to its three octets, whatever follows it. */
  lemma DecodeGroup(b0: byte, b1: byte, b2: byte, rest: string)
    ensures Decode(EncodeGroup(b0, b1, b2) + rest) == [b0, b1, b2] + Decode(rest)
  {
    var s := EncodeGroup(b0, b1, b2) + rest;
    GroupRoundTrip(b0, b1, b2);
    SextetRoundTrip(b0 / 4);
    SextetRoundTrip(b0 % 4 * 16 + b1 / 16);
    SextetRoundTrip(b1 % 16 * 4 + b2 / 64);
    SextetRoundTrip(b2 % 64);
    assert s[4..] == rest;
  }

  lemma DecodeTwo(b0: byte, b1: byte)
    ensures Decode(Encode([b0, b1])) == [b0, b1]
  {
    var v0, v1, v2 := b0 / 4, b0 % 4 * 16 + b1 / 16, b1 % 16 * 4;
    SextetRoundTrip(v0);
    SextetRoundTrip(v1);
    SextetRoundTrip(v2);
    var s := Encode([b0, b1]);
    assert s == [Sextet(v0), Sextet(v1), Sextet(v2), '='];
    assert v0 * 4 + v1 / 16 == b0 && v1 % 16 * 16 + v2 / 4 == b1;
  }

  lemma DecodeOne(b0: byte)
    ensures Decode(Encode([b0])) == [b0]
  {
    GroupRoundTrip(b0, 0, 0);
    SextetRoundTrip(b0 / 4);
    SextetRoundTrip(b0 % 4 * 16);
  }

  /** Encoding loses nothing: it can be decoded back. */
  lemma {:induction false} DecodeEncode(bs: seq<byte>)
    ensures Decode(Encode(bs)) == bs
    decreases |bs|
  {
    if |bs| >= 3 {
      DecodeGroup(bs[0], bs[1], bs[2], Encode(bs[3..]));
      DecodeEncode(bs[3..]);
      assert bs == [bs[0], bs[1], bs[2]] + bs[3..];
    } else if |bs| == 2 {
      DecodeTwo(bs[0], bs[1]);
      assert bs == [bs[0], bs[1]];
    } else if |bs| == 1 {
      DecodeOne(bs[0]);
      assert bs == [bs[0]];
    }
  }

  /** Different octet sequences have different encodings. */
  lemma EncodeInjective(a: seq<byte>, b: seq<byte>)
    requires Encode(a) == Encode(b)
    ensures a == b
  {
    DecodeEncode(a);
    DecodeEncode(b);
  }

  /** The test vectors of section 10 of RFC 4648 up to "foo". */
  lemma RfcTestVectors()
    ensures Encode([]) == ""
    ensures Encode([102]) == "Zg=="
    ensures Encode([102, 111]) == "Zm8="
    ensures Encode([102, 111, 111]) == "Zm9v"
  {
    OneOctetVector();
    TwoOctetVector();
    ThreeOctetVector();
  }

  lemma OneOctetVector()
    ensures Encode([102]) == "Zg=="
  {
    assert Sextet(25) == 'Z' && Sextet(32) == 'g';
  }

  lemma TwoOctetVector()
    ensures Encode([102, 111]) == "Zm8="
  {
    assert Sextet(25) == 'Z' && Sextet(38) == 'm' && Sextet(60) == '8';
  }

  lemma ThreeOctetVector()
    ensures Encode([102, 111, 111]) == "Zm9v"
  {
    var bs: seq<byte> := [102, 111, 111];
    assert bs[3..] == [];
    assert Sextet(25) == 'Z' && Sextet(38) == 'm' && Sextet(61) == '9' && Sextet(47) == 'v';
    assert EncodeGroup(102, 111, 111) == "Zm9v";
  }
}
