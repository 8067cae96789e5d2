/** Bytes and big-endian numbers. */
module Bytes {
  type Byte = x: int | 0 <= x < 256

  const TWO_24 := 0x100_0000
  const TWO_32 := 0x1_0000_0000

  function Be2(v: nat): (r: seq<Byte>)
    ensures |r| == 2
  {
    [v / 0x100 % 0x100, v % 0x100]
  }

  function Be3(v: nat): (r: seq<Byte>)
    ensures |r| == 3
  {
    [v / 0x1_0000 % 0x100, v / 0x100 % 0x100, v % 0x100]
  }

  function Be4(v: nat): (r: seq<Byte>)
    ensures |r| == 4
  {
    [v / TWO_24 % 0x100] + Be3(v)
  }

  function Be8(v: nat): (r: seq<Byte>)
    ensures |r| == 8
  {
    Be4(v / TWO_32) + Be4(v)
  }

  function Value3(s: seq<Byte>): (r: nat)
    requires |s| == 3
    ensures r < TWO_24
  {
    var a: int, b: int, c: int := s[0], s[1], s[2];
    a * 0x1_0000 + b * 0x100 + c
  }

  function Value4(s: seq<Byte>): (r: nat)
    requires |s| == 4
    ensures r < TWO_32
  {
    var a: int := s[0];
    a * TWO_24 + Value3(s[1..])
  }

  function Value8(s: seq<Byte>): nat
    requires |s| == 8
  {
    Value4(s[..4]) * TWO_32 + Value4(s[4..])
  }

  /** Two's complement in four bytes. */
  function Signed4(v: int): seq<Byte>
    requires -0x8000_0000 <= v < 0x8000_0000
  {
    Be4(if v < 0 then v + TWO_32 else v)
  }

  function SignedValue4(s: seq<Byte>): int
    requires |s| == 4
  {
    var v := Value4(s);
    if v >= 0x8000_0000 then v - TWO_32 else v
  }

  lemma Value3OfBe3(v: nat)
    ensures Value3(Be3(v)) == v % TWO_24
  {
    var q, r := v / 0x100, v % 0x100;
    var q2, r2 := q / 0x100, q % 0x100;
    var q3, r3 := q2 / 0x100, q2 % 0x100;
    assert v == 0x100 * (0x100 * (0x100 * q3 + r3) + r2) + r;
    DivideTwice(v, q, r, q2, r2);
    assert v == TWO_24 * q3 + (r3 * 0x1_0000 + r2 * 0x100 + r);
  }

  lemma DivideTwice(v: nat, q: nat, r: nat, q2: nat, r2: nat)
    requires v == 0x100 * q + r && q == 0x100 * q2 + r2 && r < 0x100 && r2 < 0x100
    ensures v / 0x1_0000 == q2
  {}

  lemma Value3Small(v: nat)
    requires v < TWO_24
    ensures Value3(Be3(v)) == v
  {
    Value3OfBe3(v);
  }

  lemma Value4OfBe4(v: nat)
    ensures Value4(Be4(v)) == v % TWO_32
  {
    Value3OfBe3(v);
    assert Be4(v)[1..] == Be3(v);
    hide Value3, Be3;
    TopByte(v);
  }

  lemma TopByte(v: nat)
    ensures v % TWO_32 == v / TWO_24 % 0x100 * TWO_24 + v % TWO_24
  {
    var q, r := v / TWO_24, v % TWO_24;
    var q2, r2 := q / 0x100, q % 0x100;
    assert v == TWO_32 * q2 + (TWO_24 * r2 + r);
  }

  lemma Value4Small(v: nat)
    requires v < TWO_32
    ensures Value4(Be4(v)) == v
  {
    Value4OfBe4(v);
  }

  lemma Value8OfBe8(v: nat)
    requires v < TWO_32 * TWO_32
    ensures Value8(Be8(v)) == v
  {
    hide Be4, Value4;
    assert Be8(v)[..4] == Be4(v / TWO_32) && Be8(v)[4..] == Be4(v);
    Value4Small(v / TWO_32);
    Value4OfBe4(v);
  }

  lemma SignedRoundTrip(v: int)
    requires -0x8000_0000 <= v < 0x8000_0000
    ensures SignedValue4(Signed4(v)) == v
  {
    Value4OfBe4(if v < 0 then v + TWO_32 else v);
  }
}
