/**
  The standard base 64 encoding of section 4 of RFC 4648, as `btoa` applies it to the
  generated image's bytes (each byte becomes one character code, 0 to 255), and the
  `data:` URL built from it.
*/
module Base64 {

  type Byte = x: int | 0 <= x < 256

  type Sextet = x: int | 0 <= x < 64

  /** Position of `c` in the alphabet `A–Z a–z 0–9 + /`, or -1 when `c` is not in it. */
  function Value(c: char): (k: int)
    ensures -1 <= k < 64
  {
    if 'A' <= c <= 'Z' then c as int - 'A' as int
    else if 'a' <= c <= 'z' then c as int - 'a' as int + 26
    else if '0' <= c <= '9' then c as int - '0' as int + 52
    else if c == '+' then 62
    else if c == '/' then 63
    else -1
  }

  /** The alphabet character for a six-bit value. */
  function Digit(k: Sextet): (c: char)
    ensures Value(c) == k
  {
    if k < 26 then ('A' as int + k) as char
    else if k < 52 then ('a' as int + k - 26) as char
    else if k < 62 then ('0' as int + k - 52) as char
    else if k == 62 then '+'
    else '/'
  }

  predicate IsEncodingChar(c: char) {
    Value(c) >= 0 || c == '='
  }

  /** Three bytes become four characters; a final group of one or two bytes is padded with `=`. */
  function Encode(b: seq<Byte>): (r: string)
    ensures |r| % 4 == 0 && |r| / 4 == (|b| + 2) / 3
    ensures forall i :: 0 <= i < |r| ==> IsEncodingChar(r[i])
  {
    if |b| == 0 then ""
    else if |b| == 1 then
      [Digit(b[0] / 4), Digit(b[0] % 4 * 16), '=', '=']
    else if |b| == 2 then
      [Digit(b[0] / 4), Digit(b[0] % 4 * 16 + b[1] / 16), Digit(b[1] % 16 * 4), '=']
    else
      [Digit(b[0] / 4), Digit(b[0] % 4 * 16 + b[1] / 16), Digit(b[1] % 16 * 4 + b[2] / 64), Digit(b[2] % 64)]
      + Encode(b[3..])
  }

  function Sixbits(c: char): Sextet {
    if Value(c) < 0 then 0 else Value(c)
  }

  /** Reads back one group of four characters. */
  function DecodeGroup(c0: char, c1: char, c2: char, c3: char): seq<Byte> {
    var v0, v1, v2, v3 := Sixbits(c0), Sixbits(c1), Sixbits(c2), Sixbits(c3);
    if c2 == '=' then [v0 * 4 + v1 / 16]
    else if c3 == '=' then [v0 * 4 + v1 / 16, v1 % 16 * 16 + v2 / 4]
    else [v0 * 4 + v1 / 16, v1 % 16 * 16 + v2 / 4, v2 % 4 * 64 + v3]
  }

  /** The reverse of `Encode`, group by group. */
  function Decode(s: string): seq<Byte>
    requires |s| % 4 == 0
  {
    if |s| == 0 then [] else DecodeGroup(s[0], s[1], s[2], s[3]) + Decode(s[4..])
  }

  /** One full group of three bytes survives encoding and decoding. */
  lemma GroupOfThree(b0: Byte, b1: Byte, b2: Byte)
    ensures DecodeGroup(Digit(b0 / 4), Digit(b0 % 4 * 16 + b1 / 16), Digit(b1 % 16 * 4 + b2 / 64), Digit(b2 % 64))
            == [b0, b1, b2]
  {
    var v1, v2 := b0 % 4 * 16 + b1 / 16, b1 % 16 * 4 + b2 / 64;
    assert v1 / 16 == b0 % 4 && v1 % 16 == b1 / 16;
    assert v2 / 4 == b1 % 16 && v2 % 4 == b2 / 64;
  }

  /** A final group of one byte survives encoding and decoding. */
  lemma GroupOfOne(b0: Byte)
    ensures DecodeGroup(Digit(b0 / 4), Digit(b0 % 4 * 16), '=', '=') == [b0]
  {
    assert (b0 % 4 * 16) / 16 == b0 % 4;
  }

  /** A final group of two bytes survives encoding and decoding. */
  lemma GroupOfTwo(b0: Byte, b1: Byte)
    ensures DecodeGroup(Digit(b0 / 4), Digit(b0 % 4 * 16 + b1 / 16), Digit(b1 % 16 * 4), '=') == [b0, b1]
  {
    var v1 := b0 % 4 * 16 + b1 / 16;
    assert v1 / 16 == b0 % 4 && v1 % 16 == b1 / 16;
    assert (b1 % 16 * 4) / 4 == b1 % 16;
  }

  /** Input of one byte survives encoding and decoding. */
  lemma DecodeEncodeOne(b0: Byte)
    ensures Decode(Encode([b0])) == [b0]
  {
    var c0, c1 := Digit(b0 / 4), Digit(b0 % 4 * 16);
    assert Encode([b0]) == [c0, c1, '=', '='];
    DecodeOneGroup([c0, c1, '=', '=']);
    GroupOfOne(b0);
  }

  /** Input of two bytes survives encoding and decoding. */
  lemma DecodeEncodeTwo(b0: Byte, b1: Byte)
    ensures Decode(Encode([b0, b1])) == [b0, b1]
  {
    var c0, c1, c2 := Digit(b0 / 4), Digit(b0 % 4 * 16 + b1 / 16), Digit(b1 % 16 * 4);
    assert Encode([b0, b1]) == [c0, c1, c2, '='];
    DecodeOneGroup([c0, c1, c2, '=']);
    GroupOfTwo(b0, b1);
  }

  /** Decoding a single group of four characters. */
  lemma DecodeOneGroup(g: string)
    requires |g| == 4
    ensures Decode(g) == DecodeGroup(g[0], g[1], g[2], g[3])
  {
    assert g[4..] == [];
  }

  /** Decoding reads the first group of four characters and then the rest. */
  lemma DecodeFirstGroup(c0: char, c1: char, c2: char, c3: char, rest: string)
    requires |rest| % 4 == 0
    ensures Decode([c0, c1, c2, c3] + rest) == DecodeGroup(c0, c1, c2, c3) + Decode(rest)
  {
    var r := [c0, c1, c2, c3] + rest;
    assert r[4..] == rest;
    assert r[0] == c0 && r[1] == c1 && r[2] == c2 && r[3] == c3;
  }

  /** Encoding loses nothing: decoding the text gives back the bytes. */
  lemma {:induction false} DecodeEncode(b: seq<Byte>)
    ensures Decode(Encode(b)) == b
  {
    if |b| == 1 {
      DecodeEncodeOne(b[0]);
      assert b == [b[0]];
    } else if |b| == 2 {
      DecodeEncodeTwo(b[0], b[1]);
      assert b == [b[0], b[1]];
    } else if |b| > 2 {
      DecodeEncode(b[3..]);
      DecodeEncodeGroup(b[0], b[1], b[2], b[3..]);
      assert b == [b[0], b[1], b[2]] + b[3..];
    }
  }

  /** A full first group of three bytes survives, given that the rest does. */
  lemma DecodeEncodeGroup(b0: Byte, b1: Byte, b2: Byte, tail: seq<Byte>)
    requires Decode(Encode(tail)) == tail
    ensures Decode(Encode([b0, b1, b2] + tail)) == [b0, b1, b2] + tail
  {
    var b := [b0, b1, b2] + tail;
    assert b[0] == b0 && b[1] == b1 && b[2] == b2 && b[3..] == tail;
    var c0, c1, c2, c3 := Digit(b0 / 4), Digit(b0 % 4 * 16 + b1 / 16), Digit(b1 % 16 * 4 + b2 / 64), Digit(b2 % 64);
    assert Encode(b) == [c0, c1, c2, c3] + Encode(tail);
    DecodeFirstGroup(c0, c1, c2, c3, Encode(tail));
    GroupOfThree(b0, b1, b2);
  }

  /** The `data:` URL the handler returns and stores: a fixed prefix, then the encoded image. */
  function DataUrl(b: seq<Byte>): (url: string)
    ensures |url| >= 22 && url[..22] == "data:image/png;base64,"
    ensures |url[22..]| % 4 == 0 && Decode(url[22..]) == b
  {
    var url := "data:image/png;base64," + Encode(b);
    assert url[22..] == Encode(b);
    DecodeEncode(b);
    url
  }
}
