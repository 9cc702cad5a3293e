/**
 * `Buffer.from(s).toString('base64')`: the UTF-8 bytes of a string in standard base64 with
 * `=` padding. The TypeScript scraper uses its first eight characters in event identifiers.
 */
module Encoding {

  type Byte = b: int | 0 <= b < 256

  /** The UTF-8 encoding of one Unicode scalar value. */
  function Utf8Char(c: char): (r: seq<Byte>)
    ensures 1 <= |r| <= 4
  {
    var n := c as int;
    if n < 0x80 then [n]
    else if n < 0x800 then [0xC0 + n / 64, 0x80 + n % 64]
    else if n < 0x10000 then [0xE0 + n / 4096, 0x80 + (n / 64) % 64, 0x80 + n % 64]
    else [0xF0 + n / 262144, 0x80 + (n / 4096) % 64, 0x80 + (n / 64) % 64, 0x80 + n % 64]
  }

  function Utf8(s: string): (r: seq<Byte>)
    ensures |s| <= |r|
  {
    if s == [] then [] else Utf8Char(s[0]) + Utf8(s[1..])
  }

  /** The encoding goes character by character: the bytes of a concatenation are the bytes of its parts, in order. */
  lemma {:induction false} Utf8Append(a: string, b: string)
    ensures Utf8(a + b) == Utf8(a) + Utf8(b)
  {
    if a == [] {
      assert a + b == b;
    } else {
      assert (a + b)[0] == a[0] && (a + b)[1..] == a[1..] + b;
      Utf8Append(a[1..], b);
      var h := Utf8Char(a[0]);
      assert Utf8(a + b) == h + (Utf8(a[1..]) + Utf8(b));
      assert h + (Utf8(a[1..]) + Utf8(b)) == (h + Utf8(a[1..])) + Utf8(b);
    }
  }

  /** The base64 digit for a 6-bit value: `A-Z`, `a-z`, `0-9`, `+`, `/`. */
  function Digit(v: int): (c: char)
    requires 0 <= v < 64
    ensures IsBase64Char(c) && c != '='
  {
    if v < 26 then ('A' as int + v) as char
    else if v < 52 then ('a' as int + v - 26) as char
    else if v < 62 then ('0' as int + v - 52) as char
    else if v == 62 then '+'
    else '/'
  }

  /** A character base64 output may contain. */
  predicate IsBase64Char(c: char)
  {
    'A' <= c <= 'Z' || 'a' <= c <= 'z' || '0' <= c <= '9' || c == '+' || c == '/' || c == '='
  }

  function Base64(b: seq<Byte>): (r: string)
    ensures |r| == 4 * ((|b| + 2) / 3)
    ensures forall i :: 0 <= i < |r| ==> IsBase64Char(r[i])
  {
    if |b| == 0 then ""
    else if |b| == 1 then
      [Digit(b[0] / 4), Digit(LowTwoHighFour(b[0], 0)), '=', '=']
    else if |b| == 2 then
      [Digit(b[0] / 4), Digit(LowTwoHighFour(b[0], b[1])), Digit(LowFourHighTwo(b[1], 0)), '=']
    else
      GroupCount(|b|);
      [Digit(b[0] / 4), Digit(LowTwoHighFour(b[0], b[1])),
       Digit(LowFourHighTwo(b[1], b[2])), Digit(b[2] % 64)] + Base64(b[3..])
  }

  /** Three more bytes make one more group of four characters. */
  lemma GroupCount(n: nat)
    requires n >= 3
    ensures 4 * ((n + 2) / 3) == 4 + 4 * ((n - 3 + 2) / 3)
  {
    assert (n + 2) / 3 == 1 + (n - 1) / 3;
  }

  /** The second 6-bit group of three bytes: the low two bits of `x`, then the high four of `y`. */
  function LowTwoHighFour(x: Byte, y: Byte): (v: int)
    ensures 0 <= v < 64
  {
    (x % 4) * 16 + y / 16
  }

  /** The third 6-bit group: the low four bits of `y`, then the high two of `z`. */
  function LowFourHighTwo(y: Byte, z: Byte): (v: int)
    ensures 0 <= v < 64
  {
    (y % 16) * 4 + z / 64
  }

  lemma Base64HasNoUnderscore(b: seq<Byte>)
    ensures '_' !in Base64(b)
  {
    var r := Base64(b);
    forall i | 0 <= i < |r| ensures r[i] != '_' {
      assert IsBase64Char(r[i]);
    }
  }
}
