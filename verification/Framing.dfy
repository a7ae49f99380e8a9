/**
 Length-prefixed messages on a byte stream: a four-byte big-endian length, then
 the payload. Readers meet the bytes in chunks of any size.
 */
module Framing {
  import opened Options
  import opened Bytes

  const MAX_MESSAGE_SIZE := 1048576

  /** What one write puts on the stream; an oversized message is refused and writes nothing. */
  function Frame(m: seq<Byte>): seq<Byte> { BigEndian(|m|, 4) + m }

  predicate Fits(m: seq<Byte>) { |m| <= MAX_MESSAGE_SIZE }

  function Frames(ms: seq<seq<Byte>>): seq<Byte> {
    if ms == [] then [] else Frame(ms[0]) + Frames(ms[1..])
  }

  /** One read: a message, an input that ends inside a frame, or a length over the limit. */
  datatype Parsed = Whole(m: seq<Byte>, rest: seq<Byte>) | Short | Oversized(rest: seq<Byte>)

  function ParseOne(b: seq<Byte>): Parsed {
    if |b| < 4 then Short
    else
      var n := FromBigEndian(b[..4]);
      if n > MAX_MESSAGE_SIZE then Oversized(b[4..])
      else if |b| - 4 < n then Short
      else Whole(b[4..4 + n], b[4 + n..])
  }

  /** Reading until something other than a message turns up. */
  function Parse(b: seq<Byte>): (seq<seq<Byte>>, Parsed)
    decreases |b|
  {
    var p := ParseOne(b);
    if p.Whole? then
      var (ms, last) := Parse(p.rest);
      ([p.m] + ms, last)
    else ([], p)
  }

  /** A frame at the head of a stream is read back, whatever follows it. */
  lemma ParseFrame(m: seq<Byte>, rest: seq<Byte>)
    requires Fits(m)
    ensures ParseOne(Frame(m) + rest) == Whole(m, rest)
  {
    var b := Frame(m) + rest;
    Pow256Values();
    BigEndianInverse(|m|, 4);
    assert b[..4] == BigEndian(|m|, 4);
    assert b[4..4 + |m|] == m;
    assert b[4 + |m|..] == rest;
  }

  /** The limit is one mebibyte: a longer announced length is refused on its header, any other is not. */
  lemma RefusedAboveOneMebibyte(b: seq<Byte>)
    requires |b| >= 4
    ensures ParseOne(b).Oversized? <==> FromBigEndian(b[..4]) > 1024 * 1024
    ensures ParseOne(b).Whole? <==> FromBigEndian(b[..4]) <= 1024 * 1024 && |b| >= 4 + FromBigEndian(b[..4])
  {
  }

  lemma ParseOneMore(m: seq<Byte>, more: seq<Byte>)
    requires Fits(m)
    ensures Parse(Frame(m) + more) == ([m] + Parse(more).0, Parse(more).1)
  {
    ParseFrame(m, more);
  }

  lemma PrependParsed(ms: seq<seq<Byte>>, more: seq<Byte>, rest: seq<Byte>)
    requires ms != [] && Fits(ms[0]) && Parse(more) == (ms[1..] + Parse(rest).0, Parse(rest).1)
    ensures Parse(Frame(ms[0]) + more) == (ms + Parse(rest).0, Parse(rest).1)
  {
    ParseOneMore(ms[0], more);
    assert [ms[0]] + (ms[1..] + Parse(rest).0) == ms + Parse(rest).0;
  }

  /** A list of messages survives the stream, as a prefix of whatever follows. */
  lemma {:induction false} ParseFrames(ms: seq<seq<Byte>>, rest: seq<Byte>)
    requires forall i :: 0 <= i < |ms| ==> Fits(ms[i])
    ensures Parse(Frames(ms) + rest) == (ms + Parse(rest).0, Parse(rest).1)
  {
    if ms == [] {
      assert Frames(ms) + rest == rest;
      assert ms + Parse(rest).0 == Parse(rest).0;
    } else {
      var more := Frames(ms[1..]) + rest;
      assert Frames(ms) + rest == Frame(ms[0]) + more;
      assert Fits(ms[0]);
      forall i | 0 <= i < |ms[1..]| ensures Fits(ms[1..][i]) { assert Fits(ms[i + 1]); }
      ParseFrames(ms[1..], rest);
      PrependParsed(ms, more, rest);
    }
  }

  /** Exactly the messages written are read, and then the end of the stream. */
  lemma ReadsBackExactly(ms: seq<seq<Byte>>)
    requires forall i :: 0 <= i < |ms| ==> Fits(ms[i])
    ensures Parse(Frames(ms)) == (ms, Short)
  {
    ParseFrames(ms, []);
    assert Frames(ms) + [] == Frames(ms);
    assert Parse([]) == ([], Short);
    assert ms + [] == ms;
  }

  /** Conversely, what a reader accepts are frames at the head of the stream, each within the limit. */
  lemma {:induction false} ParseIsPrefix(b: seq<Byte>)
    ensures Frames(Parse(b).0) <= b
    ensures forall i :: 0 <= i < |Parse(b).0| ==> Fits(Parse(b).0[i])
    ensures !Parse(b).1.Whole?
    decreases |b|
  {
    var p := ParseOne(b);
    if p.Whole? {
      ParseIsPrefix(p.rest);
      FromBigEndianInverse(b[..4]);
      assert b == Frame(p.m) + p.rest;
      var ms := Parse(p.rest).0;
      assert ([p.m] + ms)[1..] == ms;
      assert Frames([p.m] + ms) == Frame(p.m) + Frames(ms);
    }
  }

  // ------------------------------------------------------------------
  // Reading from chunks
  // ------------------------------------------------------------------

  function Flatten(chunks: seq<seq<Byte>>): seq<Byte> {
    if chunks == [] then [] else chunks[0] + Flatten(chunks[1..])
  }

  datatype End = Fin | Reset

  datatype ReadError = EndOfStream(how: End) | TooLarge

  /** The receiving half of a stream: chunks as they arrive, then its end. */
  class Incoming {
    var chunks: seq<seq<Byte>>
    const how: End

    ghost function Pending(): seq<Byte> reads this { Flatten(chunks) }

    constructor (chunks: seq<seq<Byte>>, how: End)
      ensures this.chunks == chunks && this.how == how
    {
      this.chunks, this.how := chunks, how;
    }

    /** Some of the next chunk; nothing only when asked for nothing, on an empty chunk, or at the end. */
    method Read(max: nat) returns (data: seq<Byte>)
      modifies this
      ensures |data| <= max
      ensures old(Pending()) == data + Pending()
      ensures old(chunks) == [] ==> data == [] && chunks == []
      ensures old(chunks) != [] && max > 0 ==> |chunks| < |old(chunks)| || (|chunks| == |old(chunks)| && data != [])
    {
      if |chunks| == 0 { return []; }
      var c := chunks[0];
      if |c| <= max {
        data, chunks := c, chunks[1..];
      } else {
        data := c[..max];
        ghost var before := chunks;
        chunks := [c[max..]] + chunks[1..];
        assert chunks[1..] == before[1..];
        assert c[..max] + c[max..] == c;
      }
    }

    /** Exactly `n` bytes however they are chunked; if there are fewer, all of them are used up. */
    method ReadFull(n: nat) returns (r: Option<seq<Byte>>)
      modifies this
      ensures if n <= |old(Pending())|
              then r == Some(old(Pending())[..n]) && Pending() == old(Pending())[n..]
              else r == None && Pending() == [] && chunks == []
    {
      var got: seq<Byte> := [];
      while |got| < n && chunks != []
        invariant |got| <= n
        invariant old(Pending()) == got + Pending()
        decreases |chunks|, n - |got|
      {
        var data := Read(n - |got|);
        got := got + data;
      }
      if |got| < n { return None; }
      assert (got + Pending())[..n] == got;
      return Some(got);
    }

    method ReadMessage() returns (m: seq<Byte>, err: Option<ReadError>)
      modifies this
      ensures match ParseOne(old(Pending()))
              case Whole(x, rest) => err == None && m == x && Pending() == rest
              case Short => err == Some(EndOfStream(how)) && Pending() == []
              case Oversized(rest) => err == Some(TooLarge) && Pending() == rest
    {
      ghost var b := Pending();
      var hdr := ReadFull(4);
      if hdr == None { return [], Some(EndOfStream(how)); }
      var length := FromBigEndian(hdr.value);
      if length > MAX_MESSAGE_SIZE { return [], Some(TooLarge); }
      var buf := ReadFull(length);
      if buf == None { return [], Some(EndOfStream(how)); }
      assert b[4..][..length] == b[4..4 + length];
      assert b[4..][length..] == b[4 + length..];
      return buf.value, None;
    }
  }
}
