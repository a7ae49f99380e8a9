/** Base-128 unsigned integers, least significant group first, at most ten bytes for 64 bits. */
module Uvarint {
  import opened Bytes

  const UINT64_LIMIT := 0x1_0000_0000_0000_0000

  function Put(x: nat): (s: seq<Byte>)
    ensures |s| >= 1
  {
    if x < 128 then [x] else [x % 128 + 128] + Put(x / 128)
  }

  /** `n` is the number of bytes used; the two failures are told apart as by the decoder's sign. */
  datatype Decoded = Value(x: nat, n: nat) | Truncated | Overflow

  const MAX_LEN := 10

  /** Decoding continued at byte `i`; the value is that of the groups from `i` on. */
  function GetFrom(buf: seq<Byte>, i: nat): Decoded
    requires i <= |buf| && i <= MAX_LEN
    decreases MAX_LEN - i
  {
    if i == |buf| then Truncated
    else if i == MAX_LEN then Overflow
    else if buf[i] < 128 then (if i == MAX_LEN - 1 && buf[i] > 1 then Overflow else Value(buf[i], i + 1))
    else
      match GetFrom(buf, i + 1)
      case Value(hi, n) => Value(buf[i] - 128 + 128 * hi, n)
      case Truncated => Truncated
      case Overflow => Overflow
  }

  function Get(buf: seq<Byte>): Decoded { GetFrom(buf, 0) }

  /** What the groups from `i` on may still add up to in 64 bits. */
  function Room(i: nat): (r: nat)
    requires i < MAX_LEN
    ensures r >= 2
    decreases MAX_LEN - i
  {
    if i == MAX_LEN - 1 then 2 else 128 * Room(i + 1)
  }

  lemma RoomAtStart()
    ensures Room(0) == UINT64_LIMIT
  {
  }

  lemma {:induction false} PutFits(x: nat, i: nat)
    requires i < MAX_LEN && x < Room(i)
    ensures |Put(x)| <= MAX_LEN - i
    decreases MAX_LEN - i
  {
    if x >= 128 { PutFits(x / 128, i + 1); }
  }

  lemma {:induction false} GetPut(pre: seq<Byte>, x: nat, rest: seq<Byte>)
    requires |pre| < MAX_LEN && x < Room(|pre|)
    ensures GetFrom(pre + Put(x) + rest, |pre|) == Value(x, |pre| + |Put(x)|)
    decreases MAX_LEN - |pre|
  {
    var buf := pre + Put(x) + rest;
    assert buf[|pre|] == Put(x)[0];
    if x >= 128 {
      var pre' := pre + [x % 128 + 128];
      GetPut(pre', x / 128, rest);
      assert buf == pre' + Put(x / 128) + rest;
      assert |Put(x)| == 1 + |Put(x / 128)|;
    }
  }

  /** Any 64-bit value is read back, with its length, whatever bytes follow. */
  lemma RoundTrip(x: nat, rest: seq<Byte>)
    requires x < UINT64_LIMIT
    ensures Get(Put(x) + rest) == Value(x, |Put(x)|)
    ensures |Put(x)| <= MAX_LEN
  {
    RoomAtStart();
    PutFits(x, 0);
    GetPut([], x, rest);
    assert [] + Put(x) + rest == Put(x) + rest;
  }

  lemma {:induction false} GetBounds(buf: seq<Byte>, i: nat)
    requires i <= |buf| && i < MAX_LEN
    ensures var d := GetFrom(buf, i); d.Value? ==> d.x < Room(i) && i < d.n <= MAX_LEN && d.n <= |buf|
    decreases MAX_LEN - i
  {
    if i < |buf| && buf[i] >= 128 && i + 1 < MAX_LEN { GetBounds(buf, i + 1); }
  }

  /** Whatever is decoded fits 64 bits and used between one and ten bytes of the input. */
  lemma {:induction false} DecodedFits(buf: seq<Byte>)
    ensures var d := Get(buf); d.Value? ==> d.x < UINT64_LIMIT && 1 <= d.n <= MAX_LEN && d.n <= |buf|
  {
    RoomAtStart();
    GetBounds(buf, 0);
  }

  /** The number the groups stand for: seven bits each, least significant first. */
  function Sum(groups: seq<Byte>): nat {
    if groups == [] then 0 else groups[0] % 128 + 128 * Sum(groups[1..])
  }

  /** The encoding is the base-128 notation: every byte but the last has its top bit set. */
  lemma {:induction false} PutIsBase128(x: nat)
    ensures Sum(Put(x)) == x
    ensures forall i :: 0 <= i < |Put(x)| ==> (Put(x)[i] >= 128 <==> i < |Put(x)| - 1)
    ensures x > 0 ==> Put(x)[|Put(x)| - 1] > 0
  {
    if x >= 128 {
      PutIsBase128(x / 128);
      var rest := Put(x / 128);
      assert Put(x)[1..] == rest;
      forall i | 0 <= i < |Put(x)| ensures Put(x)[i] >= 128 <==> i < |Put(x)| - 1 {
        if i > 0 { assert Put(x)[i] == rest[i - 1]; }
      }
    }
  }

  /** The first `n` bytes all announce another one. */
  predicate Continued(buf: seq<Byte>, start: nat, n: nat) { n <= |buf| && forall i :: start <= i < n ==> buf[i] >= 128 }

  lemma {:induction false} RefusedFrom(buf: seq<Byte>, i: nat)
    requires i <= |buf| && i <= MAX_LEN
    ensures GetFrom(buf, i) == Truncated <==> |buf| <= 10 && Continued(buf, i, |buf|)
    ensures GetFrom(buf, i) == Overflow <==>
              || (|buf| > 10 && Continued(buf, i, 10))
              || (i < 10 <= |buf| && Continued(buf, i, 9) && 1 < buf[9] < 128)
    decreases MAX_LEN - i
  {
    if i < |buf| && i < MAX_LEN && buf[i] >= 128 { RefusedFrom(buf, i + 1); }
  }

  /**
   The two refusals: an input of at most ten bytes that never ends its number, and one
   that goes on after ten bytes or ends in a tenth byte too big for 64 bits.
   */
  lemma RefusedIff(buf: seq<Byte>)
    ensures Get(buf) == Truncated <==> |buf| <= 10 && forall i :: 0 <= i < |buf| ==> buf[i] >= 128
    ensures Get(buf) == Overflow <==>
              || (|buf| > 10 && forall i :: 0 <= i < 10 ==> buf[i] >= 128)
              || (|buf| >= 10 && 1 < buf[9] < 128 && forall i :: 0 <= i < 9 ==> buf[i] >= 128)
  {
    RefusedFrom(buf, 0);
  }
}
