/**
 Sending a logical datagram as one or more independently encrypted parts, each
 sized to a datagram limit.
 */
module Fragments {
  import opened Options
  import opened Bytes
  import opened Uvarint
  import opened Wire
  import opened SecureChannel

  const MAX_DATAGRAM_PAYLOAD := 1200
  const FRAG_HEADER_SIZE := 8
  const AEAD_OVERHEAD := 8 + TAG_SIZE
  const MAX_PARTS := 65535
  const WHOLE_TAG: Byte := 0x00
  const FRAGMENT_TAG: Byte := 0x40

  // ------------------------------------------------------------------
  // Outer framing
  // ------------------------------------------------------------------

  datatype Outer = Outer(msgId: nat, index: nat, total: nat, ct: seq<Byte>)

  function EncodePartWire(o: Outer): seq<Byte> {
    if o.total <= 1 then [WHOLE_TAG] + o.ct
    else [FRAGMENT_TAG] + (BigEndian(o.msgId, 4) + (BigEndian(o.index, 2) + (BigEndian(o.total, 2) + o.ct)))
  }

  function DecodePartWire(data: seq<Byte>): Option<Outer> {
    if |data| < 2 then None
    else if data[0] == WHOLE_TAG then Some(Outer(0, 0, 1, data[1..]))
    else if data[0] == FRAGMENT_TAG then
      if |data| < 1 + FRAG_HEADER_SIZE then None
      else
        var msgId, index, total := FromBigEndian(data[1..5]), FromBigEndian(data[5..7]), FromBigEndian(data[7..9]);
        if total < 2 || index >= total then None else Some(Outer(msgId, index, total, data[9..]))
    else Some(Outer(0, 0, 1, data))
  }

  /** Metadata of a real fragment comes back; a whole message comes back without any. */
  lemma PartWireRoundTrip(o: Outer)
    requires o.msgId < 0x1_0000_0000 && o.total <= MAX_PARTS && o.index < o.total && o.ct != []
    ensures DecodePartWire(EncodePartWire(o)) == Some(if o.total >= 2 then o else Outer(0, 0, 1, o.ct))
    ensures |EncodePartWire(o)| == |o.ct| + if o.total >= 2 then 1 + FRAG_HEADER_SIZE else 1
  {
    var data := EncodePartWire(o);
    if o.total >= 2 {
      Pow256Values();
      BigEndianInverse(o.msgId, 4);
      BigEndianInverse(o.index, 2);
      BigEndianInverse(o.total, 2);
      assert data[1..5] == BigEndian(o.msgId, 4);
      assert data[5..7] == BigEndian(o.index, 2);
      assert data[7..9] == BigEndian(o.total, 2);
      assert data[9..] == o.ct;
    } else {
      assert data[1..] == o.ct;
    }
  }

  /** Metadata of a fragment a sender can produce. */
  predicate IsFragment(o: Outer) { o.msgId < 0x1_0000_0000 && o.index < o.total && 2 <= o.total <= MAX_PARTS }

  /**
   Conversely, a datagram with the whole tag or a well-formed fragment is exactly the encoding of
   what is decoded from it; any other first byte means an unframed whole message.
   */
  lemma DecodedPart(data: seq<Byte>)
    requires DecodePartWire(data).Some?
    ensures var o := DecodePartWire(data).value;
            && o.index < o.total <= MAX_PARTS && o.msgId < 0x1_0000_0000
            && (if data[0] == 0x00 || data[0] == 0x40 then data == EncodePartWire(o) else o == Outer(0, 0, 1, data))
            && (data[0] == 0x40 <==> o.total >= 2)
  {
    var o := DecodePartWire(data).value;
    Pow256Values();
    if data[0] == FRAGMENT_TAG {
      FromBigEndianInverse(data[1..5]);
      FromBigEndianInverse(data[5..7]);
      FromBigEndianInverse(data[7..9]);
      assert data == [data[0]] + (data[1..5] + (data[5..7] + (data[7..9] + data[9..])));
    } else if data[0] == WHOLE_TAG {
      assert data == [data[0]] + data[1..];
    }
  }

  /** Refused are exactly datagrams of fewer than two bytes and fragments no sender produces. */
  lemma RefusedPart(data: seq<Byte>)
    ensures DecodePartWire(data) == None <==>
              || |data| < 2
              || (data[0] == 0x40 && forall o :: IsFragment(o) ==> data != EncodePartWire(o))
  {
    if DecodePartWire(data).Some? {
      DecodedPart(data);
      var o := DecodePartWire(data).value;
      if data[0] == 0x40 { assert IsFragment(o) && data == EncodePartWire(o); }
    } else if |data| >= 2 {
      forall o | IsFragment(o) ensures data != EncodePartWire(o) { FragmentAccepted(o); }
    }
  }

  /** A fragment with sendable metadata is accepted, even with no ciphertext. */
  lemma FragmentAccepted(o: Outer)
    requires IsFragment(o)
    ensures DecodePartWire(EncodePartWire(o)) == Some(o)
  {
    var data := EncodePartWire(o);
    Pow256Values();
    BigEndianInverse(o.msgId, 4);
    BigEndianInverse(o.index, 2);
    BigEndianInverse(o.total, 2);
    assert data[1..5] == BigEndian(o.msgId, 4);
    assert data[5..7] == BigEndian(o.index, 2);
    assert data[7..9] == BigEndian(o.total, 2);
    assert data[9..] == o.ct;
  }

  // ------------------------------------------------------------------
  // Splitting
  // ------------------------------------------------------------------

  function MaxAppChunk(maxPayload: int, outerOverhead: int, channelIdLen: int): int {
    var budget := maxPayload - outerOverhead - AEAD_OVERHEAD - channelIdLen;
    if budget < 1 then 1 else budget
  }

  /** The session's configured limit, or the default when none is set. */
  function Limit(maxDgPayload: int): int { if maxDgPayload <= 0 then MAX_DATAGRAM_PAYLOAD else maxDgPayload }

  function WholeBudget(limit: int): int { MaxAppChunk(limit, 1, 10) }

  function ChunkBudget(limit: int): int { MaxAppChunk(limit, 1 + FRAG_HEADER_SIZE, 10) }

  function Total(n: nat, size: nat): nat
    requires size > 0
  {
    (n + size - 1) / size
  }

  function Chunks(p: seq<Byte>, size: nat): seq<seq<Byte>>
    requires size > 0
    decreases |p|
  {
    if |p| <= size then [p] else [p[..size]] + Chunks(p[size..], size)
  }

  function Concat(parts: seq<seq<Byte>>): seq<Byte> {
    if parts == [] then [] else parts[0] + Concat(parts[1..])
  }

  function Parts(payload: seq<Byte>, limit: int): seq<seq<Byte>> {
    if |payload| <= WholeBudget(limit) then [payload] else Chunks(payload, ChunkBudget(limit))
  }

  lemma DivStep(x: nat, size: nat)
    requires size > 0
    ensures (x + size) / size == x / size + 1
  {
    var q, q' := x / size, (x + size) / size;
    assert q * size <= x < q * size + size;
    assert q' * size <= x + size < q' * size + size;
    assert (q + 1) * size == q * size + size;
    MulCancels(q', q + 1, size);
    MulCancels(q + 1, q', size);
  }

  lemma MulCancels(a: nat, b: nat, size: nat)
    requires size > 0
    ensures a * size < b * size + size ==> a <= b
  {
    if a > b {
      Distributes(b, a - b, size);
      Distributes(1, a - b - 1, size);
    }
  }

  lemma Distributes(x: nat, y: nat, size: nat)
    ensures (x + y) * size == x * size + y * size
    ensures y * size >= 0
  {
  }

  lemma {:induction false} ChunkCount(p: seq<Byte>, size: nat)
    requires size > 0 && p != []
    ensures |Chunks(p, size)| == Total(|p|, size)
    decreases |p|
  {
    if |p| > size {
      ChunkCount(p[size..], size);
      DivStep(|p| - 1, size);
    } else {
      DivStep(|p| - 1, size);
      assert (|p| - 1) / size == 0;
    }
  }

  /** Where the slice that begins at `start` ends. */
  function SliceEnd(n: nat, start: nat, size: nat): nat { if start + size > n then n else start + size }

  /** `start` is where the i-th chunk begins. */
  predicate Begins(start: nat, i: nat, size: nat) { if i == 0 then start == 0 else start >= size && Begins(start - size, i - 1, size) }

  lemma {:induction false} BeginsIs(i: nat, size: nat)
    ensures Begins(i * size, i, size)
  {
    if i > 0 {
      Distributes(i - 1, 1, size);
      BeginsIs(i - 1, size);
    }
  }

  lemma {:induction false} ChunkFrom(p: seq<Byte>, size: nat, i: nat, start: nat)
    requires size > 0 && p != [] && i < |Chunks(p, size)| && Begins(start, i, size)
    ensures start < |p|
    ensures Chunks(p, size)[i] == p[start..SliceEnd(|p|, start, size)]
    decreases |p|
  {
    if i == 0 {
      assert p[0..SliceEnd(|p|, 0, size)] == if |p| <= size then p else p[..size];
    } else {
      var q, start' := p[size..], start - size;
      ChunkFrom(q, size, i - 1, start');
      var end := SliceEnd(|q|, start', size);
      assert q[start'..end] == p[start..end + size];
    }
  }

  lemma ChunkAt(p: seq<Byte>, size: nat, i: nat)
    requires size > 0 && p != [] && i < |Chunks(p, size)|
    ensures i * size < |p|
    ensures Chunks(p, size)[i] == p[i * size..SliceEnd(|p|, i * size, size)]
  {
    BeginsIs(i, size);
    ChunkFrom(p, size, i, i * size);
  }

  lemma {:induction false} ChunksConcat(p: seq<Byte>, size: nat)
    requires size > 0
    ensures Concat(Chunks(p, size)) == p
    decreases |p|
  {
    if |p| > size {
      ChunksConcat(p[size..], size);
      assert ([p[..size]] + Chunks(p[size..], size))[1..] == Chunks(p[size..], size);
      assert p[..size] + p[size..] == p;
    }
  }

  /** A split yields at least two parts, none empty, none over budget, whatever the limit. */
  lemma SplitShape(payload: seq<Byte>, limit: int)
    requires |payload| > WholeBudget(limit)
    ensures |Parts(payload, limit)| == Total(|payload|, ChunkBudget(limit)) >= 2
    ensures forall i :: 0 <= i < |Parts(payload, limit)| ==> 1 <= |Parts(payload, limit)[i]| <= ChunkBudget(limit)
  {
    var size := ChunkBudget(limit);
    ChunkCount(payload, size);
    assert Chunks(payload, size) == [payload[..size]] + Chunks(payload[size..], size);
    ChunkCount(payload[size..], size);
    forall i | 0 <= i < |Chunks(payload, size)| ensures 1 <= |Chunks(payload, size)[i]| <= size {
      ChunkAt(payload, size, i);
    }
  }

  function AtLeastOne(x: int): nat { if x < 1 then 1 else x }

  /**
   The numbers behind a split: one part exactly up to the limit less 35, and otherwise as few
   parts as chunks of the limit less 43 allow.
   */
  lemma PartCount(payload: seq<Byte>, limit: int)
    ensures |Parts(payload, limit)| == 1 <==> |payload| <= AtLeastOne(limit - 35)
    ensures |payload| > AtLeastOne(limit - 35) ==>
              var size, n := AtLeastOne(limit - 43), |Parts(payload, limit)|;
              (n - 1) * size < |payload| <= n * size
  {
    if |payload| > AtLeastOne(limit - 35) {
      SplitShape(payload, limit);
      LeastCover(|payload|, AtLeastOne(limit - 43));
    }
  }

  lemma LeastCover(n: nat, size: nat)
    requires size > 0
    ensures var q := (n + size - 1) / size; (q - 1) * size < n <= q * size || n == 0
  {
    var q := (n + size - 1) / size;
    assert q * size <= n + size - 1 < q * size + size;
    if q > 0 { Distributes(q - 1, 1, size); }
  }

  /** The parts in index order are the payload. */
  lemma PartsMakeThePayload(payload: seq<Byte>, limit: int)
    ensures Concat(Parts(payload, limit)) == payload
  {
    if |payload| <= WholeBudget(limit) {
      assert [payload][1..] == [];
    } else {
      ChunksConcat(payload, ChunkBudget(limit));
    }
  }

  // ------------------------------------------------------------------
  // Sending
  // ------------------------------------------------------------------

  /** What tells one part's wire form apart from the others'. */
  datatype Header = Header(channelId: nat, msgId: nat, total: nat)

  function PartFrame(a: Aead, h: Header, index: nat, chunk: seq<Byte>, seqNo: nat): seq<Byte> {
    EncodePartWire(Outer(h.msgId, index, h.total, SealFrame(a, seqNo, EncodeDatagramPlaintext(Plaintext(h.channelId, chunk)))))
  }

  /** The wire forms of the first `k` parts, numbered from `seqNo`. */
  function PartFrames(a: Aead, h: Header, parts: seq<seq<Byte>>, seqNo: nat, k: nat): (fs: seq<seq<Byte>>)
    requires k <= |parts|
    ensures |fs| == k
  {
    if k == 0 then []
    else PartFrames(a, h, parts, seqNo, k - 1) + [PartFrame(a, h, k - 1, parts[k - 1], (seqNo + k - 1) % WRAP)]
  }

  /** The header of a send: whole messages carry no message ID. */
  function HeaderOf(payload: seq<Byte>, limit: int, channelId: nat, msgId: nat): Header {
    Header(channelId, if |payload| <= WholeBudget(limit) then 0 else msgId, |Parts(payload, limit)|)
  }

  datatype SendError = TooLarge | TransportFailed

  lemma WrapStep(s: nat, i: nat)
    ensures ((s + i) % WRAP + 1) % WRAP == (s + (i + 1)) % WRAP
  {
  }

  /** What the transport took of a send and how it ended; a part refused by the transport used up its number too. */
  ghost predicate SentParts(a: Aead, h: Header, parts: seq<seq<Byte>>, first: nat, accepts: nat,
                            sent: seq<seq<Byte>>, err: Option<SendError>, next: nat) {
    && (err == None <==> accepts >= |parts|)
    && next == (first + if err == None then |parts| else accepts + 1) % WRAP
    && sent == PartFrames(a, h, parts, first, if accepts < |parts| then accepts else |parts|)
  }

  method SendWhole(ch: Channel, payload: seq<Byte>, channelId: nat, accepts: nat)
    returns (sent: seq<seq<Byte>>, err: Option<SendError>)
    modifies ch`sendSeq
    ensures SentParts(ch.send, Header(channelId, 0, 1), [payload], old(ch.sendSeq), accepts, sent, err, ch.sendSeq)
  {
    ghost var h, parts, first := Header(channelId, 0, 1), [payload], ch.sendSeq;
    var frame := SealPart(ch, Header(channelId, 0, 1), 0, payload);
    if accepts == 0 { return [], Some(TransportFailed); }
    assert PartFrames(ch.send, h, parts, first, 1)
        == PartFrames(ch.send, h, parts, first, 0) + [PartFrame(ch.send, h, 0, parts[0], first % WRAP)];
    return [frame], None;
  }

  method SendChunks(ch: Channel, payload: seq<Byte>, size: nat, total: nat, channelId: nat, msgId: nat, accepts: nat)
    returns (sent: seq<seq<Byte>>, err: Option<SendError>)
    requires size > 0 && payload != [] && total == |Chunks(payload, size)|
    modifies ch`sendSeq
    ensures SentParts(ch.send, Header(channelId, msgId, total), Chunks(payload, size), old(ch.sendSeq), accepts, sent, err, ch.sendSeq)
  {
    ghost var parts, first := Chunks(payload, size), ch.sendSeq;
    var h := Header(channelId, msgId, total);
    sent, err := [], None;
    for i := 0 to total
      invariant i <= accepts
      invariant SentSoFar(ch.send, h, parts, first, i, sent, ch.sendSeq)
    {
      ghost var number := ch.sendSeq;
      var frame := SealChunk(ch, h, payload, size, i);
      if accepts <= i {
        SentCut(ch.send, h, parts, first, i, sent, number);
        return sent, Some(TransportFailed);
      }
      SentOneMore(ch.send, h, parts, first, i, sent, number, frame);
      sent := sent + [frame];
    }
    SentDone(ch.send, h, parts, first, accepts, sent, ch.sendSeq);
  }

  lemma SentDone(a: Aead, h: Header, parts: seq<seq<Byte>>, first: nat, accepts: nat, sent: seq<seq<Byte>>, next: nat)
    requires |parts| <= accepts && SentSoFar(a, h, parts, first, |parts|, sent, next)
    ensures SentParts(a, h, parts, first, accepts, sent, None, next)
  {
  }

  lemma SentCut(a: Aead, h: Header, parts: seq<seq<Byte>>, first: nat, i: nat, sent: seq<seq<Byte>>, next: nat)
    requires i < |parts| && SentSoFar(a, h, parts, first, i, sent, next)
    ensures SentParts(a, h, parts, first, i, sent, Some(TransportFailed), (next + 1) % WRAP)
  {
    WrapStep(first, i);
  }

  /** The first `i` parts are out and the counter stands just past them. */
  ghost predicate SentSoFar(a: Aead, h: Header, parts: seq<seq<Byte>>, first: nat, i: nat, sent: seq<seq<Byte>>, next: nat) {
    i <= |parts| && sent == PartFrames(a, h, parts, first, i) && next == (first + i) % WRAP
  }

  lemma SentOneMore(a: Aead, h: Header, parts: seq<seq<Byte>>, first: nat, i: nat,
                    sent: seq<seq<Byte>>, next: nat, frame: seq<Byte>)
    requires i < |parts| && SentSoFar(a, h, parts, first, i, sent, next) && frame == PartFrame(a, h, i, parts[i], next)
    ensures SentSoFar(a, h, parts, first, i + 1, sent + [frame], (next + 1) % WRAP)
  {
    WrapStep(first, i);
  }

  /** The i-th stretch of `size` bytes, cut off at the end of the payload. */
  method Slice(payload: seq<Byte>, size: nat, i: nat) returns (chunk: seq<Byte>)
    requires size > 0 && payload != [] && i < |Chunks(payload, size)|
    ensures chunk == Chunks(payload, size)[i]
  {
    ChunkAt(payload, size, i);
    var start := i * size;
    var end := start + size;
    if end > |payload| { end := |payload|; }
    chunk := payload[start..end];
  }

  method SealChunk(ch: Channel, h: Header, payload: seq<Byte>, size: nat, i: nat) returns (frame: seq<Byte>)
    requires size > 0 && payload != [] && i < |Chunks(payload, size)|
    modifies ch`sendSeq
    ensures frame == PartFrame(ch.send, h, i, Chunks(payload, size)[i], old(ch.sendSeq))
    ensures ch.sendSeq == (old(ch.sendSeq) + 1) % WRAP
  {
    var chunk := Slice(payload, size, i);
    frame := SealPart(ch, h, i, chunk);
  }

  method SealPart(ch: Channel, h: Header, index: nat, chunk: seq<Byte>) returns (frame: seq<Byte>)
    modifies ch`sendSeq
    ensures frame == PartFrame(ch.send, h, index, chunk, old(ch.sendSeq))
    ensures ch.sendSeq == (old(ch.sendSeq) + 1) % WRAP
  {
    var ct := ch.Encrypt(EncodeDatagramPlaintext(Plaintext(h.channelId, chunk)));
    frame := EncodePartWire(Outer(h.msgId, index, h.total, ct));
  }

  /**
   Encrypts and sends the parts in order. `accepts` is how many datagrams the transport
   takes before it fails; what it took is a prefix of the parts' wire forms.
   */
  method Send(ch: Channel, payload: seq<Byte>, maxDgPayload: int, channelId: nat, msgId: nat, accepts: nat)
    returns (sent: seq<seq<Byte>>, err: Option<SendError>)
    modifies ch`sendSeq
    ensures var limit := Limit(maxDgPayload);
            var parts := Parts(payload, limit);
            if |parts| > MAX_PARTS then sent == [] && err == Some(TooLarge) && ch.sendSeq == old(ch.sendSeq)
            else SentParts(ch.send, HeaderOf(payload, limit, channelId, msgId), parts, old(ch.sendSeq), accepts, sent, err, ch.sendSeq)
  {
    var limit := Limit(maxDgPayload);
    if |payload| <= WholeBudget(limit) {
      sent, err := SendWhole(ch, payload, channelId, accepts);
      return;
    }
    SplitShape(payload, limit);
    var size := ChunkBudget(limit);
    var total := (|payload| + size - 1) / size;
    if total > MAX_PARTS { return [], Some(TooLarge); }
    if total < 2 { total := 2; }
    sent, err := SendChunks(ch, payload, size, total, channelId, msgId, accepts);
  }

  // ------------------------------------------------------------------
  // What the parts weigh, and what a receiver gets
  // ------------------------------------------------------------------

  lemma FrameLength(a: Aead, h: Header, index: nat, chunk: seq<Byte>, seqNo: nat)
    requires Correct(a)
    ensures |PartFrame(a, h, index, chunk, seqNo)|
         == |Put(h.channelId)| + |chunk| + AEAD_OVERHEAD + if h.total >= 2 then 1 + FRAG_HEADER_SIZE else 1
  {
    var plain := EncodeDatagramPlaintext(Plaintext(h.channelId, chunk));
    assert |a.seal(Nonce(seqNo), plain, LittleEndian(seqNo, 8))| == |plain| + TAG_SIZE;
  }

  /**
   The parts of a split fit the limit exactly when a one-byte part does, which is
   always so from 44 bytes on.
   */
  lemma PartsFitIff(a: Aead, payload: seq<Byte>, limit: int, channelId: nat, msgId: nat, seqNo: nat)
    requires Correct(a) && channelId < UINT64_LIMIT && |payload| > WholeBudget(limit)
    ensures var h := HeaderOf(payload, limit, channelId, msgId);
            (forall i :: 0 <= i < h.total ==> |PartFrame(a, h, i, Parts(payload, limit)[i], seqNo + i)| <= limit)
            <==> 1 + FRAG_HEADER_SIZE + AEAD_OVERHEAD + |Put(channelId)| + 1 <= limit
    ensures limit >= 44 ==> 1 + FRAG_HEADER_SIZE + AEAD_OVERHEAD + |Put(channelId)| + 1 <= limit
  {
    var h := HeaderOf(payload, limit, channelId, msgId);
    var parts := Parts(payload, limit);
    SplitShape(payload, limit);
    RoundTrip(channelId, []);
    forall i | 0 <= i < h.total
      ensures |PartFrame(a, h, i, parts[i], seqNo + i)| == 1 + FRAG_HEADER_SIZE + AEAD_OVERHEAD + |Put(channelId)| + |parts[i]|
    {
      FrameLength(a, h, i, parts[i], seqNo + i);
    }
    assert |PartFrame(a, h, 0, parts[0], seqNo + 0)| == 1 + FRAG_HEADER_SIZE + AEAD_OVERHEAD + |Put(channelId)| + |parts[0]|;
  }

  /** A message sent whole fits any limit of at least 36 bytes. */
  lemma WholeFits(a: Aead, payload: seq<Byte>, limit: int, channelId: nat, msgId: nat, seqNo: nat)
    requires Correct(a) && channelId < UINT64_LIMIT && |payload| <= WholeBudget(limit) && limit >= 36
    ensures |PartFrame(a, HeaderOf(payload, limit, channelId, msgId), 0, payload, seqNo)| <= limit
  {
    RoundTrip(channelId, []);
    FrameLength(a, HeaderOf(payload, limit, channelId, msgId), 0, payload, seqNo);
  }

  datatype DatagramPart = DatagramPart(channelId: nat, msgId: nat, index: nat, total: nat, payload: seq<Byte>)

  /** One arriving datagram: unframe, decrypt, read the channel ID. */
  function Deliver(a: Aead, recvSeq: nat, data: seq<Byte>): (nat, Option<DatagramPart>) {
    var o := DecodePartWire(data);
    if o == None || o.value.ct == [] then (recvSeq, None)
    else
      var r := Receive(a, Datagrams, recvSeq, o.value.ct);
      if r.text == None then (r.recvSeq, None)
      else
        var p := DecodeDatagramPlaintext(r.text.value);
        if p.Err? then (r.recvSeq, None)
        else (r.recvSeq, Some(DatagramPart(p.value.channelId, o.value.msgId, o.value.index, o.value.total, p.value.payload)))
  }

  /** Each part of a send, arriving after nothing newer, is delivered with its place and its bytes. */
  lemma PartArrives(a: Aead, payload: seq<Byte>, limit: int, channelId: nat, msgId: nat, i: nat, seqNo: nat, recvSeq: nat)
    requires Correct(a) && channelId < UINT64_LIMIT && msgId < 0x1_0000_0000
    requires |Parts(payload, limit)| <= MAX_PARTS && i < |Parts(payload, limit)|
    requires recvSeq <= seqNo < WRAP - 1
    ensures var h := HeaderOf(payload, limit, channelId, msgId);
            var part := Parts(payload, limit)[i];
            Deliver(a, recvSeq, PartFrame(a, h, i, part, seqNo))
            == (seqNo + 1, Some(DatagramPart(channelId, h.msgId, i, h.total, part)))
  {
    var h := HeaderOf(payload, limit, channelId, msgId);
    var part := Parts(payload, limit)[i];
    var plain := Plaintext(channelId, part);
    var ct := SealFrame(a, seqNo, EncodeDatagramPlaintext(plain));
    if |payload| > WholeBudget(limit) { SplitShape(payload, limit); }
    PartWireRoundTrip(Outer(h.msgId, i, h.total, ct));
    ReceiveGenuine(a, Datagrams, recvSeq, seqNo, EncodeDatagramPlaintext(plain));
    DatagramRoundTrip(plain);
  }

  type Receiver = (nat, seq<Byte>) -> (nat, Option<DatagramPart>)

  /** Receiving datagrams one after the other: the counter afterwards and the parts handed on. */
  function ReceiveAll(step: Receiver, recvSeq: nat, frames: seq<seq<Byte>>): (nat, seq<DatagramPart>) {
    if frames == [] then (recvSeq, [])
    else
      var (r, parts) := ReceiveAll(step, recvSeq, frames[..|frames| - 1]);
      var (r', part) := step(r, frames[|frames| - 1]);
      (r', if part == None then parts else parts + [part.value])
  }

  function DeliverAll(a: Aead, recvSeq: nat, frames: seq<seq<Byte>>): (nat, seq<DatagramPart>) {
    ReceiveAll((r: nat, data: seq<Byte>) => Deliver(a, r, data), recvSeq, frames)
  }

  /** The first `k` parts as a receiver should see them. */
  function Expected(h: Header, parts: seq<seq<Byte>>, k: nat): seq<DatagramPart>
    requires k <= |parts|
  {
    seq(k, i requires 0 <= i < k => DatagramPart(h.channelId, h.msgId, i, h.total, parts[i]))
  }

  function Payloads(ps: seq<DatagramPart>): seq<seq<Byte>> {
    seq(|ps|, i requires 0 <= i < |ps| => ps[i].payload)
  }

  /** The `i`-th datagram yields its part when nothing newer was received. */
  predicate YieldsAt(step: Receiver, frames: seq<seq<Byte>>, want: seq<DatagramPart>, seqNo: nat, i: nat, recvSeq: nat)
    requires i < |frames| == |want|
  {
    recvSeq <= seqNo + i ==> step(recvSeq, frames[i]) == (seqNo + i + 1, Some(want[i]))
  }

  /** Datagrams that each yield a part after anything older yield all of them in order. */
  lemma {:induction false} FramesArrive(
    step: Receiver, frames: seq<seq<Byte>>, want: seq<DatagramPart>, seqNo: nat, recvSeq: nat, k: nat)
    requires k <= |frames| == |want| && recvSeq <= seqNo
    requires forall i: nat, r: nat :: i < |frames| ==> YieldsAt(step, frames, want, seqNo, i, r)
    ensures ReceiveAll(step, recvSeq, frames[..k]) == (if k == 0 then recvSeq else seqNo + k, want[..k])
  {
    if k > 0 {
      FramesArrive(step, frames, want, seqNo, recvSeq, k - 1);
      assert YieldsAt(step, frames, want, seqNo, k - 1, ReceiveAll(step, recvSeq, frames[..k - 1]).0);
      assert frames[..k][..k - 1] == frames[..k - 1];
      assert want[..k] == want[..k - 1] + [want[k - 1]];
    }
  }

  lemma {:induction false} PartFrameAt(a: Aead, h: Header, parts: seq<seq<Byte>>, seqNo: nat, k: nat, i: nat)
    requires i < k <= |parts| && seqNo + |parts| < WRAP
    ensures PartFrames(a, h, parts, seqNo, k)[i] == PartFrame(a, h, i, parts[i], seqNo + i)
  {
    if i < k - 1 { PartFrameAt(a, h, parts, seqNo, k - 1, i); } else { SmallModulo(seqNo + i); }
  }

  lemma SmallModulo(x: nat)
    requires x < WRAP
    ensures x % WRAP == x
  {
  }

  lemma PartYieldsAt(
    a: Aead, payload: seq<Byte>, limit: int, channelId: nat, msgId: nat, seqNo: nat, i: nat, recvSeq: nat)
    requires Correct(a) && channelId < UINT64_LIMIT && msgId < 0x1_0000_0000
    requires i < |Parts(payload, limit)| <= MAX_PARTS && seqNo + |Parts(payload, limit)| < WRAP
    requires recvSeq <= seqNo + i
    ensures var h := HeaderOf(payload, limit, channelId, msgId);
            var parts := Parts(payload, limit);
            Deliver(a, recvSeq, PartFrames(a, h, parts, seqNo, |parts|)[i])
            == (seqNo + i + 1, Some(Expected(h, parts, |parts|)[i]))
  {
    var h, parts := HeaderOf(payload, limit, channelId, msgId), Parts(payload, limit);
    PartArrives(a, payload, limit, channelId, msgId, i, seqNo + i, recvSeq);
    PartFrameAt(a, h, parts, seqNo, |parts|, i);
    assert Expected(h, parts, |parts|)[i] == DatagramPart(channelId, h.msgId, i, h.total, parts[i]);
  }

  /**
   End to end: the frames of a completed send, delivered in order, come out as all the
   parts in index order under one message ID and total, and their bytes are the payload.
   */
  lemma SendArrives(a: Aead, payload: seq<Byte>, limit: int, channelId: nat, msgId: nat, seqNo: nat, recvSeq: nat)
    requires Correct(a) && channelId < UINT64_LIMIT && msgId < 0x1_0000_0000
    requires |Parts(payload, limit)| <= MAX_PARTS && recvSeq <= seqNo && seqNo + |Parts(payload, limit)| < WRAP
    ensures var h := HeaderOf(payload, limit, channelId, msgId);
            var parts := Parts(payload, limit);
            var got := DeliverAll(a, recvSeq, PartFrames(a, h, parts, seqNo, |parts|)).1;
            got == Expected(h, parts, |parts|) && Concat(Payloads(got)) == payload
  {
    var h := HeaderOf(payload, limit, channelId, msgId);
    var parts := Parts(payload, limit);
    var frames, want := PartFrames(a, h, parts, seqNo, |parts|), Expected(h, parts, |parts|);
    var step: Receiver := (r: nat, data: seq<Byte>) => Deliver(a, r, data);
    forall i: nat, r: nat | i < |frames| ensures YieldsAt(step, frames, want, seqNo, i, r) {
      if r <= seqNo + i { PartYieldsAt(a, payload, limit, channelId, msgId, seqNo, i, r); }
    }
    FramesArrive(step, frames, want, seqNo, recvSeq, |frames|);
    assert frames[..|frames|] == frames && want[..|want|] == want;
    assert Payloads(Expected(h, parts, |parts|)) == parts;
    PartsMakeThePayload(payload, limit);
  }

  lemma {:induction false} PartFrameNumbered(a: Aead, h: Header, parts: seq<seq<Byte>>, seqNo: nat, k: nat, i: nat)
    requires i < k <= |parts|
    ensures PartFrames(a, h, parts, seqNo, k)[i] == PartFrame(a, h, i, parts[i], (seqNo + i) % WRAP)
  {
    if i < k - 1 { PartFrameNumbered(a, h, parts, seqNo, k - 1, i); }
  }

  /** Every datagram of a send fits the configured limit, from 44 bytes on, or 1200 bytes when none is set. */
  lemma SendFits(a: Aead, payload: seq<Byte>, maxDgPayload: int, channelId: nat, msgId: nat, seqNo: nat, i: nat)
    requires Correct(a) && channelId < UINT64_LIMIT && (maxDgPayload <= 0 || maxDgPayload >= 44)
    requires i < |Parts(payload, Limit(maxDgPayload))|
    ensures var limit := Limit(maxDgPayload);
            var parts := Parts(payload, limit);
            |PartFrames(a, HeaderOf(payload, limit, channelId, msgId), parts, seqNo, |parts|)[i]|
            <= if maxDgPayload > 0 then maxDgPayload else 1200
  {
    var limit := Limit(maxDgPayload);
    var parts := Parts(payload, limit);
    var h := HeaderOf(payload, limit, channelId, msgId);
    PartFrameNumbered(a, h, parts, seqNo, |parts|, i);
    FrameLength(a, h, i, parts[i], (seqNo + i) % WRAP);
    RoundTrip(channelId, []);
    if |payload| > WholeBudget(limit) { SplitShape(payload, limit); }
  }
}
