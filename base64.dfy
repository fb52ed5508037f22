/**
  The standard base64 encoding of section 4 of RFC 4648 (Go's `base64.StdEncoding`),
  with `=` padding, and a decoder that inverts it.
 */
module Base64 {
  import opened Wrappers
  import opened Bytes

  /** A six-bit group: an index into the 64-symbol alphabet. */
  type Sextet = x: int | 0 <= x < 64

  const Padding: char := '='

  /** The alphabet of section 4 of RFC 4648: A-Z, a-z, 0-9, '+', '/'. */
  function Symbol(i: Sextet): char
  {
    if i < 26 then ('A' as int + i) as char
    else if i < 52 then ('a' as int + (i - 26)) as char
    else if i < 62 then ('0' as int + (i - 52)) as char
    else if i == 62 then '+'
    else '/'
  }

  /** The index of an alphabet symbol; `None` for anything else, padding included. */
  function SextetOf(c: char): Option<Sextet>
  {
    if 'A' <= c <= 'Z' then Some(c as int - 'A' as int)
    else if 'a' <= c <= 'z' then Some(c as int - 'a' as int + 26)
    else if '0' <= c <= '9' then Some(c as int - '0' as int + 52)
    else if c == '+' then Some(62)
    else if c == '/' then Some(63)
    else None
  }

  // The six-bit groups of three bytes b0 b1 b2, most significant bits first.

  function Sextet0(b0: byte): Sextet { b0 as int / 4 }
  function Sextet1(b0: byte, b1: byte): Sextet { b0 as int % 4 * 16 + b1 as int / 16 }
  function Sextet2(b1: byte, b2: byte): Sextet { b1 as int % 16 * 4 + b2 as int / 64 }
  function Sextet3(b2: byte): Sextet { b2 as int % 64 }

  // The bytes reassembled from four six-bit groups s0 s1 s2 s3.

  function Byte0(s0: Sextet, s1: Sextet): byte { (s0 as int * 4 + s1 / 16) as byte }
  function Byte1(s1: Sextet, s2: Sextet): byte { (s1 as int % 16 * 16 + s2 / 4) as byte }
  function Byte2(s2: Sextet, s3: Sextet): byte { (s2 as int % 4 * 64 + s3) as byte }

  lemma Reassemble(b0: byte, b1: byte, b2: byte)
    ensures Byte0(Sextet0(b0), Sextet1(b0, b1)) == b0
    ensures Byte1(Sextet1(b0, b1), Sextet2(b1, b2)) == b1
    ensures Byte2(Sextet2(b1, b2), Sextet3(b2)) == b2
  {
    var x0, x1, x2 := b0 as int, b1 as int, b2 as int;
    assert (x0 % 4 * 16 + x1 / 16) / 16 == x0 % 4;
    assert (x0 % 4 * 16 + x1 / 16) % 16 == x1 / 16;
    assert (x1 % 16 * 4 + x2 / 64) / 4 == x1 % 16;
    assert (x1 % 16 * 4 + x2 / 64) % 4 == x2 / 64;
  }

  /** Three bytes become four symbols. */
  function EncodeGroup(b0: byte, b1: byte, b2: byte): string
  {
    [Symbol(Sextet0(b0)), Symbol(Sextet1(b0, b1)), Symbol(Sextet2(b1, b2)), Symbol(Sextet3(b2))]
  }

  /** `base64.StdEncoding.EncodeToString`: every started group of three bytes yields four characters. */
  function Encode(b: ByteString): (s: string)
    ensures |s| == (|b| + 2) / 3 * 4
    decreases |b|
  {
    if |b| == 0 then ""
    else if |b| == 1 then [Symbol(Sextet0(b[0])), Symbol(Sextet1(b[0], 0)), Padding, Padding]
    else if |b| == 2 then [Symbol(Sextet0(b[0])), Symbol(Sextet1(b[0], b[1])), Symbol(Sextet2(b[1], 0)), Padding]
    else EncodeGroup(b[0], b[1], b[2]) + Encode(b[3..])
  }

  /** Four alphabet symbols become three bytes. */
  function DecodeGroup(c0: char, c1: char, c2: char, c3: char): Option<ByteString>
  {
    match (SextetOf(c0), SextetOf(c1), SextetOf(c2), SextetOf(c3))
    case (Some(s0), Some(s1), Some(s2), Some(s3)) => Some([Byte0(s0, s1), Byte1(s1, s2), Byte2(s2, s3)])
    case _ => None
  }

  /** The last group, which may carry one or two padding characters. */
  function DecodeFinal(c0: char, c1: char, c2: char, c3: char): Option<ByteString>
  {
    if c2 == Padding && c3 == Padding then
      match (SextetOf(c0), SextetOf(c1))
      case (Some(s0), Some(s1)) => Some([Byte0(s0, s1)])
      case _ => None
    else if c3 == Padding then
      match (SextetOf(c0), SextetOf(c1), SextetOf(c2))
      case (Some(s0), Some(s1), Some(s2)) => Some([Byte0(s0, s1), Byte1(s1, s2)])
      case _ => None
    else DecodeGroup(c0, c1, c2, c3)
  }

  function Decode(s: string): Option<ByteString>
    decreases |s|
  {
    if |s| == 0 then Some([])
    else if |s| < 4 then None
    else if |s| == 4 then DecodeFinal(s[0], s[1], s[2], s[3])
    else
      match (DecodeGroup(s[0], s[1], s[2], s[3]), Decode(s[4..]))
      case (Some(g), Some(rest)) => Some(g + rest)
      case _ => None
  }

  lemma SextetOfSymbol(i: Sextet)
    ensures SextetOf(Symbol(i)) == Some(i)
  {
  }

  lemma DecodeEncodeGroup(b0: byte, b1: byte, b2: byte)
    ensures var e := EncodeGroup(b0, b1, b2);
      DecodeGroup(e[0], e[1], e[2], e[3]) == Some([b0, b1, b2])
  {
    SextetOfSymbol(Sextet0(b0));
    SextetOfSymbol(Sextet1(b0, b1));
    SextetOfSymbol(Sextet2(b1, b2));
    SextetOfSymbol(Sextet3(b2));
    Reassemble(b0, b1, b2);
  }

  /** A string of exactly four characters is a final group. */
  lemma DecodeFour(s: string)
    requires |s| == 4
    ensures Decode(s) == DecodeFinal(s[0], s[1], s[2], s[3])
  {
  }

  lemma DecodeEncodeOne(b0: byte)
    ensures Decode(Encode([b0])) == Some([b0])
  {
    var s0, s1 := Sextet0(b0), Sextet1(b0, 0);
    var e := [Symbol(s0), Symbol(s1), Padding, Padding];
    assert Encode([b0]) == e;
    SextetOfSymbol(s0);
    SextetOfSymbol(s1);
    assert DecodeFinal(e[0], e[1], e[2], e[3]) == Some([Byte0(s0, s1)]);
    Reassemble(b0, 0, 0);
    DecodeFour(e);
  }

  lemma DecodeEncodeTwo(b0: byte, b1: byte)
    ensures Decode(Encode([b0, b1])) == Some([b0, b1])
  {
    var s0, s1, s2 := Sextet0(b0), Sextet1(b0, b1), Sextet2(b1, 0);
    var e := [Symbol(s0), Symbol(s1), Symbol(s2), Padding];
    assert Encode([b0, b1]) == e;
    SextetOfSymbol(s0);
    SextetOfSymbol(s1);
    SextetOfSymbol(s2);
    assert DecodeFinal(e[0], e[1], e[2], e[3]) == Some([Byte0(s0, s1), Byte1(s1, s2)]);
    Reassemble(b0, b1, 0);
    DecodeFour(e);
  }

  lemma DecodeEncodeThree(b0: byte, b1: byte, b2: byte)
    ensures Decode(Encode([b0, b1, b2])) == Some([b0, b1, b2])
  {
    var g := EncodeGroup(b0, b1, b2);
    assert [b0, b1, b2][3..] == [];
    assert Encode([b0, b1, b2]) == g;
    DecodeEncodeGroup(b0, b1, b2);
    DecodeFour(g);
  }

  /** A full group in front of a non-empty decodable rest decodes group by group. */
  lemma DecodeConcat(g: string, x: ByteString, rest: string, y: ByteString)
    requires |g| == 4 && DecodeGroup(g[0], g[1], g[2], g[3]) == Some(x)
    requires |rest| > 0 && Decode(rest) == Some(y)
    ensures Decode(g + rest) == Some(x + y)
  {
    var s := g + rest;
    assert s[0] == g[0] && s[1] == g[1] && s[2] == g[2] && s[3] == g[3];
    assert s[4..] == rest;
  }

  lemma ThreeAndRest(b: ByteString)
    requires |b| >= 3
    ensures b == [b[0], b[1], b[2]] + b[3..]
  {
  }

  lemma DecodeEncodeStep(b: ByteString)
    requires |b| > 3
    requires Decode(Encode(b[3..])) == Some(b[3..])
    ensures Decode(Encode(b)) == Some(b)
  {
    var g := EncodeGroup(b[0], b[1], b[2]);
    assert Encode(b) == g + Encode(b[3..]);
    DecodeEncodeGroup(b[0], b[1], b[2]);
    DecodeConcat(g, [b[0], b[1], b[2]], Encode(b[3..]), b[3..]);
    ThreeAndRest(b);
  }

  /** Decoding the encoding of any byte string gives it back. */
  lemma {:induction false} DecodeEncode(b: ByteString)
    ensures Decode(Encode(b)) == Some(b)
    decreases |b|
  {
    if |b| == 0 {
    } else if |b| == 1 {
      assert b == [b[0]];
      DecodeEncodeOne(b[0]);
    } else if |b| == 2 {
      assert b == [b[0], b[1]];
      DecodeEncodeTwo(b[0], b[1]);
    } else if |b| == 3 {
      assert b == [b[0], b[1], b[2]];
      DecodeEncodeThree(b[0], b[1], b[2]);
    } else {
      DecodeEncode(b[3..]);
      DecodeEncodeStep(b);
    }
  }

  /** The test vectors of section 10 of RFC 4648, plus two bytes from the top of the alphabet. */
  lemma RfcVectors()
    ensures Encode([]) == ""
    ensures Encode([0x66]) == "Zg=="
    ensures Encode([0x66, 0x6F]) == "Zm8="
    ensures Encode([0x66, 0x6F, 0x6F]) == "Zm9v"
    ensures Encode([0x66, 0x6F, 0x6F, 0x62]) == "Zm9vYg=="
    ensures Encode([0x66, 0x6F, 0x6F, 0x62, 0x61]) == "Zm9vYmE="
    ensures Encode([0x66, 0x6F, 0x6F, 0x62, 0x61, 0x72]) == "Zm9vYmFy"
    ensures Encode([0xFF, 0xFE]) == "//4="
  {
    var b4: ByteString := [0x66, 0x6F, 0x6F, 0x62];
    var b5: ByteString := [0x66, 0x6F, 0x6F, 0x62, 0x61];
    var b6: ByteString := [0x66, 0x6F, 0x6F, 0x62, 0x61, 0x72];
    assert b4[3..] == [0x62];
    assert b5[3..] == [0x62, 0x61];
    assert b6[3..] == [0x62, 0x61, 0x72];
  }
}
