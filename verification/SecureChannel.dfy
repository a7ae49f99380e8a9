/**
 The encrypted channel: a counter that is both nonce and associated data, and two
 ways of checking it on receipt. The cipher is any authenticated encryption in the sense
 of RFC 5116, given by its two operations.
 */
module SecureChannel {
  import opened Options
  import opened Bytes

  const WRAP := 0x1_0000_0000_0000_0000

  type Uint64 = x: int | 0 <= x < WRAP

  /** `seal` and `open` take nonce, text and associated data. */
  datatype Aead = Aead(
    seal: (seq<Byte>, seq<Byte>, seq<Byte>) -> seq<Byte>,
    open: (seq<Byte>, seq<Byte>, seq<Byte>) -> Option<seq<Byte>>)

  const TAG_SIZE := 16

  ghost predicate Correct(a: Aead) {
    forall n, p, ad :: a.open(n, a.seal(n, p, ad), ad) == Some(p) && |a.seal(n, p, ad)| == |p| + TAG_SIZE
  }

  /** The counter in the first eight of twelve bytes. */
  function Nonce(seqNo: nat): seq<Byte> { LittleEndian(seqNo, 8) + [0, 0, 0, 0] }

  function SealFrame(a: Aead, seqNo: nat, p: seq<Byte>): seq<Byte> {
    LittleEndian(seqNo, 8) + a.seal(Nonce(seqNo), p, LittleEndian(seqNo, 8))
  }

  datatype Mode = Strict | Datagrams

  datatype Received = Received(recvSeq: nat, text: Option<seq<Byte>>)

  /** The counter moves as soon as the number is acceptable, before the text is opened. */
  function Receive(a: Aead, mode: Mode, recvSeq: nat, data: seq<Byte>): Received {
    if |data| < 8 then Received(recvSeq, None)
    else
      var seqNo := FromLittleEndian(data[..8]);
      if (mode == Strict && seqNo != recvSeq) || (mode == Datagrams && seqNo < recvSeq) then Received(recvSeq, None)
      else Received((seqNo + 1) % WRAP, a.open(Nonce(seqNo), data[8..], data[..8]))
  }

  class Channel {
    const send: Aead
    const recv: Aead
    var sendSeq: Uint64
    var recvSeq: Uint64
    var mode: Mode

    constructor (send: Aead, recv: Aead, mode: Mode)
      ensures this.send == send && this.recv == recv && this.mode == mode && sendSeq == 0 && recvSeq == 0
    {
      this.send, this.recv, this.mode, sendSeq, recvSeq := send, recv, mode, 0, 0;
    }

    method Encrypt(plaintext: seq<Byte>) returns (data: seq<Byte>)
      modifies `sendSeq
      ensures data == SealFrame(send, old(sendSeq), plaintext)
      ensures sendSeq == (old(sendSeq) + 1) % WRAP
    {
      var seqNo := sendSeq;
      sendSeq := (sendSeq + 1) % WRAP;
      var seqBytes := LittleEndian(seqNo, 8);
      var ciphertext := send.seal(Nonce(seqNo), plaintext, seqBytes);
      data := seqBytes + ciphertext;
    }

    method Decrypt(data: seq<Byte>) returns (text: Option<seq<Byte>>)
      modifies `recvSeq
      ensures Received(recvSeq, text) == Receive(recv, mode, old(recvSeq), data)
    {
      if |data| < 8 { return None; }
      var seqBytes := data[..8];
      var seqNo := FromLittleEndian(seqBytes);
      var ciphertext := data[8..];
      match mode {
        case Strict =>
          if seqNo != recvSeq { return None; }
          recvSeq := (recvSeq + 1) % WRAP;
        case Datagrams =>
          if seqNo < recvSeq { return None; }
          recvSeq := (seqNo + 1) % WRAP;
      }
      text := recv.open(Nonce(seqNo), ciphertext, seqBytes);
    }
  }

  // ------------------------------------------------------------------
  // Nonces
  // ------------------------------------------------------------------

  /** The counter value of the k-th encryption, in the order of the atomic increments. */
  function SeqAt(k: nat): nat {
    if k == 0 then 0 else (SeqAt(k - 1) + 1) % WRAP
  }

  lemma {:induction false} SeqAtIs(k: nat)
    ensures SeqAt(k) == k % WRAP
  {
    if k > 0 { SeqAtIs(k - 1); ModSucc(k - 1); }
  }

  lemma ModSucc(k: nat)
    ensures (k % WRAP + 1) % WRAP == (k + 1) % WRAP
  {
  }

  lemma SeqAtSmall(k: nat)
    requires k < WRAP
    ensures SeqAt(k) == k
  {
    SeqAtIs(k);
  }

  lemma NonceInjective(x: nat, y: nat)
    requires x < WRAP && y < WRAP && Nonce(x) == Nonce(y)
    ensures x == y
  {
    Pow256Values();
    LittleEndianInverse(x, 8);
    LittleEndianInverse(y, 8);
    assert Nonce(x)[..8] == LittleEndian(x, 8) && Nonce(y)[..8] == LittleEndian(y, 8);
  }

  /** A nonce is twelve bytes: the counter, least significant byte first, then four zeros. */
  lemma NonceLayout(seqNo: nat)
    requires seqNo < WRAP
    ensures |Nonce(seqNo)| == 12 && FromLittleEndian(Nonce(seqNo)[..8]) == seqNo
    ensures forall i :: 8 <= i < 12 ==> Nonce(seqNo)[i] == 0
  {
    Pow256Values();
    LittleEndianInverse(seqNo, 8);
    assert Nonce(seqNo)[..8] == LittleEndian(seqNo, 8);
  }

  /** Two encryptions share a nonce exactly when their ranks differ by a multiple of 2^64. */
  lemma NonceReuse(j: nat, k: nat)
    ensures Nonce(SeqAt(j)) == Nonce(SeqAt(k)) <==> j % WRAP == k % WRAP
  {
    SeqAtIs(j);
    SeqAtIs(k);
    var x, y := SeqAt(j), SeqAt(k);
    assert x < WRAP && y < WRAP;
    if Nonce(x) == Nonce(y) { NonceInjective(x, y); }
  }

  /** Fewer than 2^64 encryptions never share one. */
  lemma NoncesDistinct(j: nat, k: nat)
    requires j < k < WRAP
    ensures Nonce(SeqAt(j)) != Nonce(SeqAt(k))
  {
    SeqAtSmall(j);
    SeqAtSmall(k);
    if Nonce(SeqAt(j)) == Nonce(SeqAt(k)) { NonceInjective(SeqAt(j), SeqAt(k)); }
  }

  // ------------------------------------------------------------------
  // Losing, repeating and reordering genuine frames
  // ------------------------------------------------------------------

  /** What the receiver makes of the frames of `msgs` arriving in the order of the indices `arr`. */
  function Arrivals(a: Aead, mode: Mode, recvSeq: nat, msgs: seq<seq<Byte>>, arr: seq<nat>): (rs: seq<Option<seq<Byte>>>)
    requires forall i :: 0 <= i < |arr| ==> arr[i] < |msgs|
    ensures |rs| == |arr|
    decreases arr
  {
    if arr == [] then []
    else
      var r := Receive(a, mode, recvSeq, SealFrame(a, arr[0], msgs[arr[0]]));
      [r.text] + Arrivals(a, mode, r.recvSeq, msgs, arr[1..])
  }

  function Delivered(rs: seq<Option<seq<Byte>>>): seq<seq<Byte>> {
    if rs == [] then []
    else if rs[0] == None then Delivered(rs[1..])
    else [rs[0].value] + Delivered(rs[1..])
  }

  /** A genuine frame with an acceptable number opens to its text. */
  lemma ReceiveGenuine(a: Aead, mode: Mode, recvSeq: nat, seqNo: nat, p: seq<Byte>)
    requires Correct(a) && seqNo < WRAP - 1
    ensures var ok := if mode == Strict then seqNo == recvSeq else seqNo >= recvSeq;
            Receive(a, mode, recvSeq, SealFrame(a, seqNo, p)) == if ok then Received(seqNo + 1, Some(p)) else Received(recvSeq, None)
  {
    var data := SealFrame(a, seqNo, p);
    Pow256Values();
    LittleEndianInverse(seqNo, 8);
    assert data[..8] == LittleEndian(seqNo, 8);
    assert data[8..] == a.seal(Nonce(seqNo), p, LittleEndian(seqNo, 8));
  }

  lemma {:induction false} StrictFrom(a: Aead, recvSeq: nat, msgs: seq<seq<Byte>>, arr: seq<nat>)
    requires Correct(a) && recvSeq <= |msgs| < WRAP
    requires forall i :: 0 <= i < |arr| ==> arr[i] < |msgs|
    ensures Delivered(Arrivals(a, Strict, recvSeq, msgs, arr)) <= msgs[recvSeq..]
    decreases arr
  {
    if arr != [] {
      ReceiveGenuine(a, Strict, recvSeq, arr[0], msgs[arr[0]]);
      var r := Receive(a, Strict, recvSeq, SealFrame(a, arr[0], msgs[arr[0]]));
      StrictFrom(a, r.recvSeq, msgs, arr[1..]);
      var rs := Arrivals(a, Strict, recvSeq, msgs, arr);
      assert rs[1..] == Arrivals(a, Strict, r.recvSeq, msgs, arr[1..]);
      if arr[0] == recvSeq { assert msgs[recvSeq..] == [msgs[recvSeq]] + msgs[recvSeq + 1..]; }
    }
  }

  /** Strict mode delivers a prefix of what was sent, over any loss, repetition or reordering of the peer's frames. */
  lemma StrictDeliversAPrefix(a: Aead, msgs: seq<seq<Byte>>, arr: seq<nat>)
    requires Correct(a) && |msgs| < WRAP
    requires forall i :: 0 <= i < |arr| ==> arr[i] < |msgs|
    ensures Delivered(Arrivals(a, Strict, 0, msgs, arr)) <= msgs
  {
    StrictFrom(a, 0, msgs, arr);
    assert msgs[0..] == msgs;
  }

  /** Everything sent and delivered in order arrives. */
  lemma {:induction false} StrictInOrder(a: Aead, msgs: seq<seq<Byte>>, from: nat, arr: seq<nat>)
    requires Correct(a) && from <= |msgs| < WRAP && |arr| == |msgs| - from
    requires forall i :: 0 <= i < |arr| ==> arr[i] == from + i
    ensures Delivered(Arrivals(a, Strict, from, msgs, arr)) == msgs[from..]
    decreases arr
  {
    if arr != [] {
      ReceiveGenuine(a, Strict, from, arr[0], msgs[arr[0]]);
      StrictInOrder(a, msgs, from + 1, arr[1..]);
      var rs := Arrivals(a, Strict, from, msgs, arr);
      assert rs[1..] == Arrivals(a, Strict, from + 1, msgs, arr[1..]);
      assert msgs[from..] == [msgs[from]] + msgs[from + 1..];
    }
  }

  /** Larger than everything that arrived before it. */
  predicate IsRecord(arr: seq<nat>, j: nat)
    requires j < |arr|
  {
    forall i :: 0 <= i < j ==> arr[i] < arr[j]
  }

  lemma {:induction false} DatagramsFrom(a: Aead, recvSeq: nat, msgs: seq<seq<Byte>>, arr: seq<nat>, j: nat)
    requires Correct(a) && |msgs| < WRAP && j < |arr|
    requires forall i :: 0 <= i < |arr| ==> arr[i] < |msgs|
    ensures Arrivals(a, Datagrams, recvSeq, msgs, arr)[j]
         == if arr[j] >= recvSeq && IsRecord(arr, j) then Some(msgs[arr[j]]) else None
    decreases arr
  {
    ReceiveGenuine(a, Datagrams, recvSeq, arr[0], msgs[arr[0]]);
    if j > 0 {
      var r := Receive(a, Datagrams, recvSeq, SealFrame(a, arr[0], msgs[arr[0]]));
      DatagramsFrom(a, r.recvSeq, msgs, arr[1..], j - 1);
      assert IsRecord(arr, j) <==> arr[0] < arr[j] && IsRecord(arr[1..], j - 1) by {
        assert forall i :: 0 <= i < j - 1 ==> arr[1..][i] == arr[i + 1];
        assert forall i :: 0 < i < j ==> arr[i] == arr[1..][i - 1];
      }
    }
  }

  /**
   Datagram mode delivers exactly the arrivals whose number exceeds all earlier ones,
   hence each message at most once and in sending order.
   */
  lemma DatagramsDeliverTheRecords(a: Aead, msgs: seq<seq<Byte>>, arr: seq<nat>)
    requires Correct(a) && |msgs| < WRAP
    requires forall i :: 0 <= i < |arr| ==> arr[i] < |msgs|
    ensures forall j :: 0 <= j < |arr| ==>
              Arrivals(a, Datagrams, 0, msgs, arr)[j] == if IsRecord(arr, j) then Some(msgs[arr[j]]) else None
    ensures forall i, j :: 0 <= i < j < |arr| && IsRecord(arr, i) && IsRecord(arr, j) ==> arr[i] < arr[j]
  {
    forall j | 0 <= j < |arr|
      ensures Arrivals(a, Datagrams, 0, msgs, arr)[j] == if IsRecord(arr, j) then Some(msgs[arr[j]]) else None
    {
      DatagramsFrom(a, 0, msgs, arr, j);
    }
  }

  // ------------------------------------------------------------------
  // Arbitrary bytes
  // ------------------------------------------------------------------

  /** The number a datagram claims; too short ones claim none. */
  function NumberOf(data: seq<Byte>): Option<nat> {
    if |data| < 8 then None else Some(FromLittleEndian(data[..8]))
  }

  predicate Accepts(mode: Mode, recvSeq: nat, data: seq<Byte>) {
    && NumberOf(data).Some?
    && if mode == Strict then NumberOf(data).value == recvSeq else NumberOf(data).value >= recvSeq
  }

  lemma NumberFits(data: seq<Byte>)
    ensures NumberOf(data).Some? ==> NumberOf(data).value < WRAP
  {
    if |data| >= 8 {
      Pow256Values();
      FromLittleEndianInverse(data[..8]);
    }
  }

  /** The receiver's counter while any bytes whatever arrive. */
  ghost predicate Hears(a: Aead, mode: Mode, datas: seq<seq<Byte>>, seqs: seq<nat>) {
    && |seqs| == |datas| + 1
    && forall i :: 0 <= i < |datas| ==> HearsAt(a, mode, datas, seqs, i)
  }

  ghost predicate HearsAt(a: Aead, mode: Mode, datas: seq<seq<Byte>>, seqs: seq<nat>, i: int)
    requires |seqs| == |datas| + 1 && 0 <= i < |datas|
  {
    seqs[i + 1] == Receive(a, mode, seqs[i], datas[i]).recvSeq
  }

  /** One arrival: refused without a change, or the counter goes just past the accepted number, or back to zero. */
  lemma HearOne(a: Aead, mode: Mode, recvSeq: nat, data: seq<Byte>)
    ensures var r := Receive(a, mode, recvSeq, data);
            if !Accepts(mode, recvSeq, data) then r == Received(recvSeq, None)
            else r.recvSeq == if NumberOf(data).value == WRAP - 1 then 0 else NumberOf(data).value + 1
  {
    NumberFits(data);
  }

  /** Accepting a number shuts out it and all smaller ones, exactly if it is not the last 64-bit number. */
  lemma ShutsOutIff(a: Aead, mode: Mode, recvSeq: nat, data: seq<Byte>)
    requires Accepts(mode, recvSeq, data)
    ensures (forall again :: NumberOf(again).Some? && NumberOf(again).value <= NumberOf(data).value ==>
               !Accepts(mode, Receive(a, mode, recvSeq, data).recvSeq, again))
            <==> NumberOf(data).value != WRAP - 1
  {
    HearOne(a, mode, recvSeq, data);
    if NumberOf(data).value == WRAP - 1 {
      var again := LittleEndian(0, 8);
      Pow256Values();
      LittleEndianInverse(0, 8);
      assert again[..8] == again;
      assert Accepts(mode, 0, again);
    }
  }

  /** Over any bytes, as long as the last 64-bit number does not arrive, the counter never goes back. */
  lemma {:induction false} CounterNeverFalls(a: Aead, mode: Mode, datas: seq<seq<Byte>>, seqs: seq<nat>, i: nat, j: nat)
    requires Hears(a, mode, datas, seqs) && i <= j < |seqs|
    requires forall k :: i <= k < j ==> NumberOf(datas[k]) != Some(WRAP - 1)
    ensures seqs[i] <= seqs[j]
    decreases j
  {
    if i < j {
      CounterNeverFalls(a, mode, datas, seqs, i, j - 1);
      assert HearsAt(a, mode, datas, seqs, j - 1);
      HearOne(a, mode, seqs[j - 1], datas[j - 1]);
    }
  }

  /** And no number that was accepted is accepted again, in either mode, whoever made the datagrams. */
  lemma NoNumberTwice(a: Aead, mode: Mode, datas: seq<seq<Byte>>, seqs: seq<nat>, i: nat, j: nat)
    requires Hears(a, mode, datas, seqs) && i < j < |datas|
    requires forall k :: i <= k < j ==> NumberOf(datas[k]) != Some(WRAP - 1)
    requires Accepts(mode, seqs[i], datas[i]) && Accepts(mode, seqs[j], datas[j])
    ensures NumberOf(datas[i]).value < NumberOf(datas[j]).value
  {
    assert HearsAt(a, mode, datas, seqs, i);
    HearOne(a, mode, seqs[i], datas[i]);
    CounterNeverFalls(a, mode, datas, seqs, i + 1, j);
  }

  /** What the receiver makes of any datagrams. */
  function Heard(a: Aead, mode: Mode, recvSeq: nat, datas: seq<seq<Byte>>): (rs: seq<Option<seq<Byte>>>)
    ensures |rs| == |datas|
    decreases datas
  {
    if datas == [] then []
    else
      var r := Receive(a, mode, recvSeq, datas[0]);
      [r.text] + Heard(a, mode, r.recvSeq, datas[1..])
  }

  /** Datagram `j` claims a number above every number claimed before it. */
  predicate ClaimsRecord(datas: seq<seq<Byte>>, j: nat)
    requires j < |datas|
  {
    && NumberOf(datas[j]).Some?
    && forall i :: 0 <= i < j && NumberOf(datas[i]).Some? ==> NumberOf(datas[i]).value < NumberOf(datas[j]).value
  }

  function Opened(a: Aead, data: seq<Byte>): Option<seq<Byte>>
    requires |data| >= 8
  {
    a.open(Nonce(FromLittleEndian(data[..8])), data[8..], data[..8])
  }

  lemma {:induction false} HeardFrom(a: Aead, recvSeq: nat, datas: seq<seq<Byte>>, j: nat)
    requires j < |datas| && forall i :: 0 <= i < j ==> NumberOf(datas[i]) != Some(WRAP - 1)
    ensures Heard(a, Datagrams, recvSeq, datas)[j]
         == if ClaimsRecord(datas, j) && NumberOf(datas[j]).value >= recvSeq then Opened(a, datas[j]) else None
    decreases datas
  {
    HearOne(a, Datagrams, recvSeq, datas[0]);
    if j > 0 {
      HeardFrom(a, Receive(a, Datagrams, recvSeq, datas[0]).recvSeq, datas[1..], j - 1);
      assert NumberOf(datas[0]) != Some(WRAP - 1);
      RecordTail(datas, j);
    }
  }

  lemma RecordTail(datas: seq<seq<Byte>>, j: nat)
    requires 0 < j < |datas|
    ensures ClaimsRecord(datas, j) <==>
              && ClaimsRecord(datas[1..], j - 1)
              && (NumberOf(datas[0]).Some? ==> NumberOf(datas[0]).value < NumberOf(datas[j]).value)
  {
    assert forall i :: 0 <= i < j - 1 ==> datas[1..][i] == datas[i + 1];
    assert forall i :: 0 < i < j ==> datas[i] == datas[1..][i - 1];
  }

  /**
   Whatever bytes arrive, as long as none before it claims the last number: a datagram is
   opened exactly when its number exceeds every number claimed so far, and refused otherwise.
   */
  lemma DatagramsOpenTheRecords(a: Aead, datas: seq<seq<Byte>>, j: nat)
    requires j < |datas| && forall i :: 0 <= i < j ==> NumberOf(datas[i]) != Some(WRAP - 1)
    ensures Heard(a, Datagrams, 0, datas)[j] == if ClaimsRecord(datas, j) then Opened(a, datas[j]) else None
  {
    HeardFrom(a, 0, datas, j);
  }

  ghost predicate Genuine(a: Aead, msgs: seq<seq<Byte>>, data: seq<Byte>) {
    exists k :: 0 <= k < |msgs| && data == SealFrame(a, k, msgs[k])
  }

  /** Only the peer's frames, and datagrams that neither open nor carry the number expected just then. */
  ghost predicate Lossless(a: Aead, recvSeq: nat, msgs: seq<seq<Byte>>, datas: seq<seq<Byte>>)
    decreases datas
  {
    datas == [] ||
    (&& (Genuine(a, msgs, datas[0]) || (Unopenable(a, datas[0]) && NumberOf(datas[0]) != Some(recvSeq)))
     && Lossless(a, Receive(a, Strict, recvSeq, datas[0]).recvSeq, msgs, datas[1..]))
  }

  lemma {:induction false} StrictHeardFrom(a: Aead, recvSeq: nat, msgs: seq<seq<Byte>>, datas: seq<seq<Byte>>)
    requires Correct(a) && recvSeq <= |msgs| < WRAP && Lossless(a, recvSeq, msgs, datas)
    ensures Delivered(Heard(a, Strict, recvSeq, datas)) <= msgs[recvSeq..]
    decreases datas
  {
    if datas != [] {
      var r := Receive(a, Strict, recvSeq, datas[0]);
      if Genuine(a, msgs, datas[0]) {
        var k :| 0 <= k < |msgs| && datas[0] == SealFrame(a, k, msgs[k]);
        ReceiveGenuine(a, Strict, recvSeq, k, msgs[k]);
        if k == recvSeq { assert msgs[recvSeq..] == [msgs[recvSeq]] + msgs[recvSeq + 1..]; }
      } else {
        HearOne(a, Strict, recvSeq, datas[0]);
      }
      StrictHeardFrom(a, r.recvSeq, msgs, datas[1..]);
      assert Heard(a, Strict, recvSeq, datas)[1..] == Heard(a, Strict, r.recvSeq, datas[1..]);
    }
  }

  /** Strict mode delivers a prefix among arbitrary other datagrams too, if none of them carries the expected number. */
  lemma StrictPrefixAmongOthers(a: Aead, msgs: seq<seq<Byte>>, datas: seq<seq<Byte>>)
    requires Correct(a) && |msgs| < WRAP && Lossless(a, 0, msgs, datas)
    ensures Delivered(Heard(a, Strict, 0, datas)) <= msgs
  {
    StrictHeardFrom(a, 0, msgs, datas);
    assert msgs[0..] == msgs;
  }

  /** The last number takes the datagram counter back to zero, and an old frame is delivered once more. */
  lemma LastNumberRestarts(a: Aead, recvSeq: nat, junk: seq<Byte>, seqNo: nat, p: seq<Byte>)
    requires Correct(a) && recvSeq < WRAP && NumberOf(junk) == Some(WRAP - 1) && seqNo < recvSeq && seqNo < WRAP - 1
    ensures Receive(a, Datagrams, recvSeq, SealFrame(a, seqNo, p)) == Received(recvSeq, None)
    ensures var after := Receive(a, Datagrams, recvSeq, junk).recvSeq;
            Receive(a, Datagrams, after, SealFrame(a, seqNo, p)) == Received(seqNo + 1, Some(p))
  {
    HearOne(a, Datagrams, recvSeq, junk);
    ReceiveGenuine(a, Datagrams, recvSeq, seqNo, p);
    ReceiveGenuine(a, Datagrams, 0, seqNo, p);
  }

  /** A datagram that does not open when its turn comes. */
  predicate Unopenable(a: Aead, data: seq<Byte>) {
    |data| >= 8 ==> a.open(Nonce(FromLittleEndian(data[..8])), data[8..], data[..8]) == None
  }

  ghost predicate CanStillDeliver(a: Aead, recvSeq: nat, msgs: seq<seq<Byte>>, rest: seq<seq<Byte>>) {
    exists arr: seq<nat> :: ValidArrivals(arr, msgs) && Delivered(Arrivals(a, Strict, recvSeq, msgs, arr)) == rest
  }

  predicate ValidArrivals(arr: seq<nat>, msgs: seq<seq<Byte>>) {
    forall i :: 0 <= i < |arr| ==> arr[i] < |msgs|
  }

  /**
   In strict mode an unopenable datagram leaves all undelivered messages deliverable exactly
   when it does not carry the expected number; if it does, that message is lost for good.
   */
  lemma StrictLosesIff(a: Aead, recvSeq: nat, msgs: seq<seq<Byte>>, data: seq<Byte>)
    requires Correct(a) && recvSeq < |msgs| < WRAP && Unopenable(a, data)
    ensures Receive(a, Strict, recvSeq, data).text == None
    ensures CanStillDeliver(a, Receive(a, Strict, recvSeq, data).recvSeq, msgs, msgs[recvSeq..])
            <==> NumberOf(data) != Some(recvSeq)
  {
    HearOne(a, Strict, recvSeq, data);
    if NumberOf(data) == Some(recvSeq) {
      forall arr: seq<nat> | ValidArrivals(arr, msgs)
        ensures Delivered(Arrivals(a, Strict, recvSeq + 1, msgs, arr)) != msgs[recvSeq..]
      {
        StrictFrom(a, recvSeq + 1, msgs, arr);
        assert |msgs[recvSeq + 1..]| < |msgs[recvSeq..]|;
      }
    } else {
      var arr: seq<nat> := seq(|msgs| - recvSeq, i requires 0 <= i < |msgs| - recvSeq => recvSeq + i);
      StrictInOrder(a, msgs, recvSeq, arr);
      assert ValidArrivals(arr, msgs);
    }
  }

  /** After such a loss the delivered list is no prefix of what was sent. */
  lemma StrictSkips(a: Aead, x: seq<Byte>, y: seq<Byte>, junk: seq<Byte>)
    requires Correct(a) && x != y && Unopenable(a, junk) && NumberOf(junk) == Some(0)
    ensures var after := Receive(a, Strict, 0, junk).recvSeq;
            Delivered(Arrivals(a, Strict, after, [x, y], [1])) == [y] && !([y] <= [x, y])
  {
    HearOne(a, Strict, 0, junk);
    ReceiveGenuine(a, Strict, 1, 1, y);
    assert Arrivals(a, Strict, 1, [x, y], [1]) == [Some(y)] + Arrivals(a, Strict, 2, [x, y], [1][1..]);
    assert [Some(y)][1..] == [];
    assert [y][0] != [x, y][0];
  }
}
