/** Bytes and fixed-width integers on the wire. */
module Bytes {
  type Byte = b: int | 0 <= b < 256

  function Pow256(w: nat): nat
    ensures Pow256(w) > 0
  {
    if w == 0 then 1 else 256 * Pow256(w - 1)
  }

  function LittleEndian(v: nat, w: nat): (s: seq<Byte>)
    ensures |s| == w
  {
    if w == 0 then [] else [v % 256] + LittleEndian(v / 256, w - 1)
  }

  function FromLittleEndian(s: seq<Byte>): nat {
    if s == [] then 0 else s[0] + 256 * FromLittleEndian(s[1..])
  }

  function BigEndian(v: nat, w: nat): (s: seq<Byte>)
    ensures |s| == w
  {
    if w == 0 then [] else BigEndian(v / 256, w - 1) + [v % 256]
  }

  function FromBigEndian(s: seq<Byte>): nat {
    if s == [] then 0 else 256 * FromBigEndian(s[..|s| - 1]) + s[|s| - 1]
  }

  lemma {:induction false} LittleEndianInverse(v: nat, w: nat)
    requires v < Pow256(w)
    ensures FromLittleEndian(LittleEndian(v, w)) == v
  {
    if w > 0 {
      LittleEndianInverse(v / 256, w - 1);
      assert LittleEndian(v, w)[1..] == LittleEndian(v / 256, w - 1);
    }
  }

  lemma {:induction false} BigEndianInverse(v: nat, w: nat)
    requires v < Pow256(w)
    ensures FromBigEndian(BigEndian(v, w)) == v
  {
    if w > 0 {
      BigEndianInverse(v / 256, w - 1);
      assert BigEndian(v, w)[..w - 1] == BigEndian(v / 256, w - 1);
    }
  }

  lemma {:induction false} FromBigEndianInverse(s: seq<Byte>)
    ensures FromBigEndian(s) < Pow256(|s|)
    ensures BigEndian(FromBigEndian(s), |s|) == s
  {
    if s != [] {
      FromBigEndianInverse(s[..|s| - 1]);
      var v := FromBigEndian(s);
      assert v / 256 == FromBigEndian(s[..|s| - 1]) && v % 256 == s[|s| - 1];
    }
  }

  lemma {:induction false} FromLittleEndianInverse(s: seq<Byte>)
    ensures FromLittleEndian(s) < Pow256(|s|)
    ensures LittleEndian(FromLittleEndian(s), |s|) == s
  {
    if s != [] {
      FromLittleEndianInverse(s[1..]);
      var v := FromLittleEndian(s);
      assert v / 256 == FromLittleEndian(s[1..]) && v % 256 == s[0];
    }
  }

  lemma Pow256Values()
    ensures Pow256(2) == 0x1_0000 && Pow256(4) == 0x1_0000_0000 && Pow256(8) == 0x1_0000_0000_0000_0000
  {
  }

  /** The two byte orders: the first byte counts most, or least. */
  lemma ByteOrders(first: Byte, rest: seq<Byte>)
    ensures FromBigEndian([first] + rest) == first * Pow256(|rest|) + FromBigEndian(rest)
    ensures FromLittleEndian([first] + rest) == first + 256 * FromLittleEndian(rest)
  {
    assert ([first] + rest)[1..] == rest;
    BigEndianHead(first, rest);
  }

  lemma {:induction false} BigEndianHead(first: Byte, rest: seq<Byte>)
    ensures FromBigEndian([first] + rest) == first * Pow256(|rest|) + FromBigEndian(rest)
  {
    var s := [first] + rest;
    if rest == [] {
      assert s[..0] == [] && FromBigEndian(s[..0]) == 0;
    } else {
      var front := rest[..|rest| - 1];
      assert s[..|s| - 1] == [first] + front;
      BigEndianHead(first, front);
      assert 256 * (first * Pow256(|front|)) == first * Pow256(|rest|);
    }
  }
}
