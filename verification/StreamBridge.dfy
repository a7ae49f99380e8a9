/**
 One direction of a bridged stream: messages are copied until the source ends or
 the destination refuses a write. Ending one direction must not end the other
 (sections 2.4 and 3 of RFC 9000).
 */
module StreamBridge {
  import opened Options
  import opened Bytes
  import opened Framing

  /** The sending half: `room` is how many more bytes the peer takes before writes fail. */
  class Outgoing {
    var sent: seq<Byte>
    var room: nat
    var ended: Option<End>

    constructor (room: nat)
      ensures sent == [] && this.room == room && ended == None
    {
      sent, this.room, ended := [], room, None;
    }

    method Write(data: seq<Byte>) returns (ok: bool)
      modifies this
      ensures var n := Min(|data|, old(room));
              sent == old(sent) + data[..n] && room == old(room) - n && (ok <==> n == |data|) && ended == old(ended)
    {
      var n := Min(|data|, room);
      sent, room := sent + data[..n], room - n;
      ok := n == |data|;
    }

    /** Header, then payload; a refused message writes nothing. */
    method WriteMessage(m: seq<Byte>) returns (ok: bool)
      modifies this
      ensures ended == old(ended)
      ensures !Fits(m) ==> !ok && sent == old(sent) && room == old(room)
      ensures Fits(m) ==>
                var n := Min(|Frame(m)|, old(room));
                sent == old(sent) + Frame(m)[..n] && room == old(room) - n && (ok <==> n == |Frame(m)|)
    {
      if |m| > MAX_MESSAGE_SIZE { return false; }
      var hdr := BigEndian(|m|, 4);
      assert Frame(m)[..4] == hdr;
      ok := Write(hdr);
      if !ok {
        assert hdr[..old(room)] == Frame(m)[..old(room)];
        return;
      }
      assert hdr[..4] == hdr;
      ghost var n := Min(|m|, room);
      assert Frame(m)[..4 + n] == hdr + m[..n];
      ok := Write(m);
    }
  }

  class Stream {
    const rx: Incoming
    const tx: Outgoing
    var readStopped: bool

    constructor (rx: Incoming, tx: Outgoing)
      ensures this.rx == rx && this.tx == tx && !readStopped
    {
      this.rx, this.tx, readStopped := rx, tx, false;
    }

    method CloseWrite()
      modifies tx`ended
      ensures tx.ended == Some(Fin)
    {
      tx.ended := Some(Fin);
    }

    /** Cancels both halves. */
    method ResetStream()
      modifies tx`ended, `readStopped
      ensures tx.ended == Some(Reset) && readStopped
    {
      tx.ended := Some(Reset);
      readStopped := true;
    }
  }

  function Min(a: nat, b: nat): nat { if a <= b then a else b }

  // ------------------------------------------------------------------
  // What one direction forwards
  // ------------------------------------------------------------------

  /** The bytes sent on and how the sending half ends, if it does. */
  datatype Forwarded = Forwarded(sent: seq<Byte>, ended: Option<End>)

  function Forward(bytes: seq<Byte>, how: End, room: nat): Forwarded {
    var (ms, last) := Parse(bytes);
    var all := Frames(ms);
    if |all| <= room then Forwarded(all, Some(if last.Short? then how else Fin))
    else Forwarded(all[..room], None)
  }

  lemma {:induction false} FramesSnoc(ms: seq<seq<Byte>>, m: seq<Byte>)
    ensures Frames(ms + [m]) == Frames(ms) + Frame(m)
  {
    if ms == [] {
      assert ms + [m] == [m] && [m][1..] == [];
      assert Frames([m]) == Frame(m) + Frames([]);
    } else {
      assert (ms + [m])[1..] == ms[1..] + [m];
      FramesSnoc(ms[1..], m);
    }
  }

  lemma {:induction false} FramesConcat(a: seq<seq<Byte>>, b: seq<seq<Byte>>)
    ensures Frames(a + b) == Frames(a) + Frames(b)
  {
    if a == [] {
      assert a + b == b;
    } else {
      assert (a + b)[1..] == a[1..] + b;
      FramesConcat(a[1..], b);
    }
  }

  /** `done` is what has been copied out of `bytes`, `rest` what is still to be read. */
  predicate Progress(bytes: seq<Byte>, done: seq<seq<Byte>>, rest: seq<Byte>) {
    Parse(bytes) == (done + Parse(rest).0, Parse(rest).1)
  }

  lemma ProgressMessage(bytes: seq<Byte>, done: seq<seq<Byte>>, rest: seq<Byte>, m: seq<Byte>, rest': seq<Byte>)
    requires Progress(bytes, done, rest) && ParseOne(rest) == Whole(m, rest')
    ensures Progress(bytes, done + [m], rest') && Fits(m)
  {
    assert Parse(rest) == ([m] + Parse(rest').0, Parse(rest').1);
    assert done + ([m] + Parse(rest').0) == (done + [m]) + Parse(rest').0;
  }

  lemma ForwardDone(bytes: seq<Byte>, done: seq<seq<Byte>>, rest: seq<Byte>, how: End, room: nat)
    requires Progress(bytes, done, rest) && !ParseOne(rest).Whole? && |Frames(done)| <= room
    ensures Forward(bytes, how, room) == Forwarded(Frames(done), Some(if ParseOne(rest).Short? then how else Fin))
  {
    assert Parse(rest) == ([], ParseOne(rest));
    assert done + [] == done;
  }

  lemma ForwardCut(bytes: seq<Byte>, done: seq<seq<Byte>>, rest: seq<Byte>, m: seq<Byte>, how: End, room: nat)
    requires Progress(bytes, done + [m], rest)
    requires |Frames(done)| <= room < |Frames(done)| + |Frame(m)|
    ensures Forward(bytes, how, room) == Forwarded(Frames(done) + Frame(m)[..room - |Frames(done)|], None)
  {
    FramesSnoc(done, m);
    FramesConcat(done + [m], Parse(rest).0);
    var all := Frames(done + [m] + Parse(rest).0);
    assert all == Frames(done) + Frame(m) + Frames(Parse(rest).0);
    assert all[..room] == Frames(done) + Frame(m)[..room - |Frames(done)|];
  }

  /** What a direction does to its destination: bytes sent, room left, how it ended, and whether reading there stopped. */
  datatype Out = Out(sent: seq<Byte>, room: nat, ended: Option<End>, stopped: bool)

  function OutOf(dst: Stream): Out reads dst, dst.tx { Out(dst.tx.sent, dst.tx.room, dst.tx.ended, dst.readStopped) }

  /** One turn on what was parsed: forward a message as far as there is room, or end the destination. */
  predicate Turn(p: Parsed, how: End, o: Out, o': Out, more: bool) {
    match p
    case Whole(m, _) =>
      var n := Min(|Frame(m)|, o.room);
      o' == o.(sent := o.sent + Frame(m)[..n], room := o.room - n) && (more <==> n == |Frame(m)|)
    case Short => !more && o' == o.(ended := Some(how), stopped := o.stopped || how == Reset)
    case Oversized(_) => !more && o' == o.(ended := Some(Fin))
  }

  /** One turn of the copying loop; says whether another follows. */
  method CopyOne(src: Stream, dst: Stream) returns (more: bool)
    requires src != dst
    modifies src.rx, dst.tx, dst`readStopped
    ensures Turn(old(ParseOne(src.rx.Pending())), src.rx.how, old(OutOf(dst)), OutOf(dst), more)
    ensures old(ParseOne(src.rx.Pending())).Whole? ==> src.rx.Pending() == old(ParseOne(src.rx.Pending())).rest
  {
    var msg, err := src.rx.ReadMessage();
    if err.Some? {
      assert src.rx.how == Fin || src.rx.how == Reset;
      if err.value == EndOfStream(Reset) { dst.ResetStream(); } else { dst.CloseWrite(); }
      return false;
    }
    more := dst.tx.WriteMessage(msg);
  }

  /** After forwarding everything there was room for. */
  ghost predicate Finished(bytes: seq<Byte>, how: End, start: Out, o: Out) {
    var f := Forward(bytes, how, start.room);
    && o.sent == start.sent + f.sent
    && o.ended == (if f.ended == None then start.ended else f.ended)
    && o.stopped == (start.stopped || f.ended == Some(Reset))
  }

  /** `done` has been forwarded and `rest` is unread. */
  ghost predicate Midway(bytes: seq<Byte>, start: Out, done: seq<seq<Byte>>, rest: seq<Byte>, o: Out) {
    && Progress(bytes, done, rest) && |Frames(done)| <= start.room
    && o == start.(sent := start.sent + Frames(done), room := start.room - |Frames(done)|)
  }

  lemma NothingYet(bytes: seq<Byte>, start: Out)
    ensures Midway(bytes, start, [], bytes, start)
  {
    assert [] + Parse(bytes).0 == Parse(bytes).0;
    assert start.sent + [] == start.sent;
  }

  lemma TurnForwards(bytes: seq<Byte>, how: End, start: Out, done: seq<seq<Byte>>, rest: seq<Byte>, o: Out, o': Out, more: bool)
    requires Midway(bytes, start, done, rest, o) && Turn(ParseOne(rest), how, o, o', more) && ParseOne(rest).Whole?
    ensures var p := ParseOne(rest);
            if more then Midway(bytes, start, done + [p.m], p.rest, o') else Finished(bytes, how, start, o')
  {
    var p := ParseOne(rest);
    ProgressMessage(bytes, done, rest, p.m, p.rest);
    FramesSnoc(done, p.m);
    var n := Min(|Frame(p.m)|, o.room);
    assert start.sent + Frames(done) + Frame(p.m)[..n] == start.sent + (Frames(done) + Frame(p.m)[..n]);
    if more {
      assert Frame(p.m)[..n] == Frame(p.m);
    } else {
      ForwardCut(bytes, done, p.rest, p.m, how, start.room);
    }
  }

  lemma TurnEnds(bytes: seq<Byte>, how: End, start: Out, done: seq<seq<Byte>>, rest: seq<Byte>, o: Out, o': Out, more: bool)
    requires Midway(bytes, start, done, rest, o) && Turn(ParseOne(rest), how, o, o', more) && !ParseOne(rest).Whole?
    ensures !more && Finished(bytes, how, start, o')
  {
    ForwardDone(bytes, done, rest, how, start.room);
  }

  /**
   Copies messages from `src` to `dst`. A clean end or a framing error half-closes
   `dst`, a reset resets it, a failed write just stops. The other direction, `src.tx`
   and `dst.rx`, is not touched.
   */
  method BridgeStream(src: Stream, dst: Stream)
    requires src != dst && src.tx != dst.tx && src.rx != dst.rx
    modifies src.rx, dst.tx, dst`readStopped
    ensures var f := old(Forward(src.rx.Pending(), src.rx.how, dst.tx.room));
            && dst.tx.sent == old(dst.tx.sent) + f.sent
            && dst.tx.ended == (if f.ended == None then old(dst.tx.ended) else f.ended)
            && dst.readStopped == (old(dst.readStopped) || f.ended == Some(Reset))
    ensures unchanged(src.tx) && unchanged(dst.rx) && unchanged(src)
  {
    ghost var bytes, start := src.rx.Pending(), OutOf(dst);
    ghost var done: seq<seq<Byte>> := [];
    NothingYet(bytes, start);
    var running := true;
    while running
      invariant running ==> Midway(bytes, start, done, src.rx.Pending(), OutOf(dst))
      invariant !running ==> Finished(bytes, src.rx.how, start, OutOf(dst))
      decreases running, |src.rx.Pending()|
    {
      ghost var rest, o := src.rx.Pending(), OutOf(dst);
      running := CopyOne(src, dst);
      if ParseOne(rest).Whole? {
        TurnForwards(bytes, src.rx.how, start, done, rest, o, OutOf(dst), running);
        if running { done := done + [ParseOne(rest).m]; }
      } else {
        TurnEnds(bytes, src.rx.how, start, done, rest, o, OutOf(dst), running);
      }
    }
  }

  // ------------------------------------------------------------------
  // What arrives at the far end
  // ------------------------------------------------------------------

  /** Cutting a run of frames anywhere leaves a reader with a prefix of the messages. */
  lemma {:induction false} CutFrames(ms: seq<seq<Byte>>, r: nat)
    requires forall i :: 0 <= i < |ms| ==> Fits(ms[i])
    requires r <= |Frames(ms)|
    ensures Parse(Frames(ms)[..r]).0 <= ms
  {
    if ms != [] {
      var cut, tail := Frames(ms)[..r], Frames(ms[1..]);
      if r >= |Frame(ms[0])| {
        var r' := r - |Frame(ms[0])|;
        assert cut == Frame(ms[0]) + tail[..r'];
        ParseFrame(ms[0], tail[..r']);
        CutFrames(ms[1..], r');
        assert ms == [ms[0]] + ms[1..];
      } else {
        CutFrame(ms[0], cut, r);
      }
    }
  }

  lemma CutFrame(m: seq<Byte>, cut: seq<Byte>, r: nat)
    requires Fits(m) && r < |Frame(m)| && cut == Frame(m)[..r]
    ensures Parse(cut).0 == []
  {
    Pow256Values();
    BigEndianInverse(|m|, 4);
    if r >= 4 { assert cut[..4] == BigEndian(|m|, 4); }
  }

  /**
   Whatever arrives, however it is chunked, and whenever writes start failing: what was
   written is a prefix of the whole messages read, and the far reader gets
   a prefix of exactly those messages.
   */
  lemma ForwardsAPrefix(bytes: seq<Byte>, how: End, room: nat)
    ensures var f := Forward(bytes, how, room);
            && f.sent <= Frames(Parse(bytes).0) <= bytes
            && Parse(f.sent).0 <= Parse(bytes).0
            && (f.ended.Some? ==> Parse(f.sent).0 == Parse(bytes).0)
  {
    var ms := Parse(bytes).0;
    ParseIsPrefix(bytes);
    var all := Frames(ms);
    CutFrames(ms, Min(room, |all|));
    ReadsBackExactly(ms);
    assert all[..|all|] == all;
  }

  /** k messages then FIN arrive as those k messages then FIN; then RESET, as RESET. */
  lemma ForwardsWholeStreams(ms: seq<seq<Byte>>, how: End, room: nat)
    requires forall i :: 0 <= i < |ms| ==> Fits(ms[i])
    requires |Frames(ms)| <= room
    ensures Forward(Frames(ms), how, room) == Forwarded(Frames(ms), Some(how))
    ensures Parse(Forward(Frames(ms), how, room).sent) == (ms, Short)
  {
    ReadsBackExactly(ms);
  }
}
