/**
 Pairing a backend's parked listens with arriving clients through an instance's
 unbuffered channel. A hand-off is one joint step of the two handlers; every
 other step belongs to one handler. `closes` counts how often a
 handler closed the connection.
 */
module ListenMatching {
  import opened RelayHub

  type ListenId = int
  type ClientId = int

  datatype ListenPc =
    | Greeted
    | Acking(inst: InstId)
    | Parking(inst: InstId)
    | ParkFailed
    | Handed(client: ClientId, via: InstId)
    | ListenOver

  datatype Listen = Listen(id: Id, pc: ListenPc, dead: bool, closes: nat)

  datatype ClientPc =
    | Arrived
    | Waiting(inst: InstId)
    | Matched(listen: ListenId, via: InstId)
    | Bridging(listen: ListenId, via: InstId)
    | ClientOver(served: set<ListenId>)

  datatype Client = Client(id: Id, pc: ClientPc, dead: bool, closes: nat)

  datatype State = State(hub: Hub, listens: map<ListenId, Listen>, clients: map<ClientId, Client>)

  datatype Move =
    | HubMove(s: RelayHub.Step)
    | NewListen(l: ListenId, id: Id)
    | RefuseListen(l: ListenId)
    | LookupListen(l: ListenId)
    | AckListen(l: ListenId, ok: bool)
    | LoseListen(l: ListenId)
    | AbortPark(l: ListenId)
    | CloseListen(l: ListenId)
    | NewClient(c: ClientId, id: Id)
    | RefuseClient(c: ClientId)
    | LookupClient(c: ClientId)
    | LoseClient(c: ClientId)
    | AbortWait(c: ClientId)
    | HandOff(l: ListenId, c: ClientId)
    | AckClient(c: ClientId, ok: bool)
    | EndBridge(c: ClientId)

  const START := State(EMPTY, map[], map[])

  predicate ListenAt(st: State, l: ListenId, pc: ListenPc) { l in st.listens && st.listens[l].pc == pc }

  predicate InstCancelled(st: State, i: InstId) { i in st.hub.insts && st.hub.insts[i].cancelled }

  predicate Enabled(st: State, m: Move) {
    match m
    case HubMove(s) => RelayHub.Enabled(st.hub, s)
    case NewListen(l, _) => l !in st.listens
    case RefuseListen(l) => ListenAt(st, l, Greeted)
    case LookupListen(l) => ListenAt(st, l, Greeted) && st.listens[l].id != ""
    case AckListen(l, _) => l in st.listens && st.listens[l].pc.Acking?
    case LoseListen(l) => l in st.listens
    case AbortPark(l) =>
      && l in st.listens && st.listens[l].pc.Parking?
      && (st.listens[l].dead || InstCancelled(st, st.listens[l].pc.inst))
    case CloseListen(l) => ListenAt(st, l, ParkFailed)
    case NewClient(c, _) => c !in st.clients
    case RefuseClient(c) => c in st.clients && st.clients[c].pc.Arrived?
    case LookupClient(c) => c in st.clients && st.clients[c].pc.Arrived? && 0 < |st.clients[c].id| <= 64
    case LoseClient(c) => c in st.clients
    case AbortWait(c) =>
      && c in st.clients && st.clients[c].pc.Waiting?
      && (st.clients[c].dead || InstCancelled(st, st.clients[c].pc.inst))
    case HandOff(l, c) =>
      && l in st.listens && c in st.clients && st.listens[l].pc.Parking? && st.clients[c].pc.Waiting?
      && st.listens[l].pc.inst == st.clients[c].pc.inst
    case AckClient(c, _) => c in st.clients && st.clients[c].pc.Matched?
    case EndBridge(c) => c in st.clients && st.clients[c].pc.Bridging?
  }

  function SetListen(st: State, l: ListenId, pc: ListenPc): State
    requires l in st.listens
  {
    st.(listens := st.listens[l := st.listens[l].(pc := pc)])
  }

  /** The handler closes the listen's connection and is done with it. */
  function ShutListen(st: State, l: ListenId, pc: ListenPc): State
    requires l in st.listens
  {
    st.(listens := st.listens[l := st.listens[l].(pc := pc, closes := st.listens[l].closes + 1)])
  }

  function SetClient(st: State, c: ClientId, pc: ClientPc): State
    requires c in st.clients
  {
    st.(clients := st.clients[c := st.clients[c].(pc := pc)])
  }

  function ShutClient(st: State, c: ClientId, served: set<ListenId>): State
    requires c in st.clients
  {
    st.(clients := st.clients[c := st.clients[c].(pc := ClientOver(served), closes := st.clients[c].closes + 1)])
  }

  /** A client handler that owns a listen closes both. */
  function ShutBoth(st: State, c: ClientId, l: ListenId): State
    requires c in st.clients
  {
    var st' := ShutClient(st, c, {l});
    if l in st.listens then ShutListen(st', l, st.listens[l].pc) else st'
  }

  function Do(st: State, m: Move): State
    requires Enabled(st, m)
  {
    match m
    case HubMove(s) => st.(hub := RelayHub.Do(st.hub, s))
    case NewListen(l, id) => st.(listens := st.listens[l := Listen(id, Greeted, false, 0)])
    case RefuseListen(l) => ShutListen(st, l, ListenOver)
    case LookupListen(l) =>
      var id := st.listens[l].id;
      if id in st.hub.slots then SetListen(st, l, Acking(st.hub.slots[id])) else ShutListen(st, l, ListenOver)
    case AckListen(l, ok) =>
      if ok then SetListen(st, l, Parking(st.listens[l].pc.inst)) else ShutListen(st, l, ListenOver)
    case LoseListen(l) => st.(listens := st.listens[l := st.listens[l].(dead := true)])
    case AbortPark(l) => SetListen(st, l, ParkFailed)
    case CloseListen(l) => ShutListen(st, l, ListenOver)
    case NewClient(c, id) => st.(clients := st.clients[c := Client(id, Arrived, false, 0)])
    case RefuseClient(c) => ShutClient(st, c, {})
    case LookupClient(c) =>
      var id := st.clients[c].id;
      if id in st.hub.slots then SetClient(st, c, Waiting(st.hub.slots[id])) else ShutClient(st, c, {})
    case LoseClient(c) => st.(clients := st.clients[c := st.clients[c].(dead := true)])
    case AbortWait(c) => ShutClient(st, c, {})
    case HandOff(l, c) =>
      var i := st.listens[l].pc.inst;
      SetClient(SetListen(st, l, Handed(c, i)), c, Matched(l, i))
    case AckClient(c, ok) =>
      var pc := st.clients[c].pc;
      if ok then SetClient(st, c, Bridging(pc.listen, pc.via)) else ShutBoth(st, c, pc.listen)
    case EndBridge(c) => ShutBoth(st, c, st.clients[c].pc.listen)
  }

  // ------------------------------------------------------------------
  // Who holds a listen
  // ------------------------------------------------------------------

  /** The handler of `listen:` still answers for the connection. */
  predicate ParkSide(pc: ListenPc) { pc.Greeted? || pc.Acking? || pc.Parking? || pc.ParkFailed? }

  /** The handler of client `c` answers for listen `l`. */
  predicate ClientSide(st: State, c: ClientId, l: ListenId) {
    c in st.clients && (st.clients[c].pc.Matched? || st.clients[c].pc.Bridging?) && st.clients[c].pc.listen == l
  }

  /** Listen `l` was handed to client `c` at some time. */
  predicate Partners(st: State, l: ListenId, c: ClientId) {
    && c in st.clients
    && (ClientSide(st, c, l) || (st.clients[c].pc.ClientOver? && l in st.clients[c].pc.served))
  }

  predicate KnownInst(st: State, i: InstId, id: Id) { i in st.hub.insts && st.hub.insts[i].id == id }

  /** A handed listen's record names the one client that holds or held it. */
  predicate ListenOk(st: State, l: ListenId)
    requires l in st.listens
  {
    var rec := st.listens[l];
    && (ParkSide(rec.pc) ==> rec.closes == 0)
    && (rec.pc.ListenOver? ==> rec.closes == 1)
    && (rec.pc.Acking? || rec.pc.Parking? ==> KnownInst(st, rec.pc.inst, rec.id))
    && (rec.pc.Handed? ==>
          && KnownInst(st, rec.pc.via, rec.id)
          && Partners(st, l, rec.pc.client)
          && rec.closes == if ClientSide(st, rec.pc.client, l) then 0 else 1)
  }

  predicate ClientOk(st: State, c: ClientId)
    requires c in st.clients
  {
    var rec := st.clients[c];
    && rec.closes == (if rec.pc.ClientOver? then 1 else 0)
    && (rec.pc.Waiting? ==> KnownInst(st, rec.pc.inst, rec.id))
    && (rec.pc.Matched? || rec.pc.Bridging? ==> HeldFor(st, rec.pc.listen, c, rec.pc.via))
    && (rec.pc.ClientOver? ==>
          && |rec.pc.served| <= 1
          && forall l :: l in rec.pc.served ==> l in st.listens && st.listens[l].pc.Handed? && st.listens[l].pc.client == c)
  }

  predicate HeldFor(st: State, l: ListenId, c: ClientId, via: InstId) {
    ListenAt(st, l, Handed(c, via)) && c in st.clients && KnownInst(st, via, st.clients[c].id)
  }

  ghost predicate Inv(st: State) {
    && RelayHub.Inv(st.hub)
    && (forall l :: l in st.listens ==> ListenOk(st, l))
    && (forall c :: c in st.clients ==> ClientOk(st, c))
  }

  /** Hub steps keep every instance's ID. */
  lemma HubKeepsIds(h: Hub, s: RelayHub.Step, i: InstId)
    requires RelayHub.Enabled(h, s) && i in h.insts
    ensures i in RelayHub.Do(h, s).insts && RelayHub.Do(h, s).insts[i].id == h.insts[i].id
  {
  }

  lemma HubMoveInv(st: State, m: Move)
    requires Inv(st) && m.HubMove? && Enabled(st, m)
    ensures Inv(Do(st, m))
  {
    var st' := Do(st, m);
    RelayHub.InvStep(st.hub, m.s);
    forall i | i in st.hub.insts ensures i in st'.hub.insts && st'.hub.insts[i].id == st.hub.insts[i].id {
      HubKeepsIds(st.hub, m.s, i);
    }
    forall l | l in st'.listens ensures ListenOk(st', l) { assert ListenOk(st, l); }
    forall c | c in st'.clients ensures ClientOk(st', c) { assert ClientOk(st, c); }
  }

  /** Moves of a `listen:` handler before any hand-off. */
  predicate ListenMove(m: Move) {
    || m.NewListen? || m.RefuseListen? || m.LookupListen? || m.AckListen? || m.LoseListen? || m.AbortPark?
    || m.CloseListen?
  }

  lemma ListenMoveInv(st: State, m: Move)
    requires Inv(st) && ListenMove(m) && Enabled(st, m)
    ensures Inv(Do(st, m))
  {
    var st' := Do(st, m);
    if m.LookupListen? && st.listens[m.l].id in st.hub.slots { assert SlotOk(st.hub, st.listens[m.l].id); }
    if m.l in st.listens { assert ListenOk(st, m.l); }
    forall l | l in st'.listens ensures ListenOk(st', l) { if l in st.listens { assert ListenOk(st, l); } }
    forall c | c in st'.clients ensures ClientOk(st', c) { assert ClientOk(st, c); }
  }

  /** Moves of a client handler that holds no listen. */
  predicate ClientMove(m: Move) {
    m.NewClient? || m.RefuseClient? || m.LookupClient? || m.LoseClient? || m.AbortWait?
  }

  lemma ClientMoveInv(st: State, m: Move)
    requires Inv(st) && ClientMove(m) && Enabled(st, m)
    ensures Inv(Do(st, m))
  {
    var st' := Do(st, m);
    if m.LookupClient? && st.clients[m.c].id in st.hub.slots { assert SlotOk(st.hub, st.clients[m.c].id); }
    forall l | l in st'.listens ensures ListenOk(st', l) { assert ListenOk(st, l); }
    forall c | c in st'.clients ensures ClientOk(st', c) { if c in st.clients { assert ClientOk(st, c); } }
  }

  lemma HandOffInv(st: State, m: Move)
    requires Inv(st) && m.HandOff? && Enabled(st, m)
    ensures Inv(Do(st, m))
  {
    var st' := Do(st, m);
    assert ListenOk(st, m.l) && ClientOk(st, m.c);
    forall l | l in st'.listens ensures ListenOk(st', l) { assert ListenOk(st, l); }
    forall c | c in st'.clients ensures ClientOk(st', c) { assert ClientOk(st, c); }
  }

  lemma AckClientInv(st: State, m: Move)
    requires Inv(st) && m.AckClient? && m.ok && Enabled(st, m)
    ensures Inv(Do(st, m))
  {
    var st' := Do(st, m);
    assert ClientOk(st, m.c);
    forall l | l in st'.listens ensures ListenOk(st', l) { assert ListenOk(st, l); }
    forall c | c in st'.clients ensures ClientOk(st', c) { assert ClientOk(st, c); }
  }

  lemma ShutBothInv(st: State, c: ClientId, l: ListenId)
    requires Inv(st) && ClientSide(st, c, l)
    ensures Inv(ShutBoth(st, c, l))
  {
    var st' := ShutBoth(st, c, l);
    assert ClientOk(st, c) && ListenOk(st, l);
    forall n | n in st'.listens ensures ListenOk(st', n) { assert ListenOk(st, n); }
    forall n | n in st'.clients ensures ClientOk(st', n) { assert ClientOk(st, n); }
  }

  lemma InvMove(st: State, m: Move)
    requires Inv(st) && Enabled(st, m)
    ensures Inv(Do(st, m))
  {
    if m.HubMove? { HubMoveInv(st, m); }
    else if ListenMove(m) { ListenMoveInv(st, m); }
    else if ClientMove(m) { ClientMoveInv(st, m); }
    else if m.HandOff? { HandOffInv(st, m); }
    else if m.AckClient? && m.ok { AckClientInv(st, m); }
    else { ShutBothInv(st, m.c, st.clients[m.c].pc.listen); }
  }

  ghost predicate Run(sts: seq<State>, ms: seq<Move>) {
    && |sts| == |ms| + 1 && sts[0] == START
    && forall k :: 0 <= k < |ms| ==> Enabled(sts[k], ms[k]) && sts[k + 1] == Do(sts[k], ms[k])
  }

  lemma {:induction false} RunInv(sts: seq<State>, ms: seq<Move>, k: nat)
    requires Run(sts, ms) && k < |sts|
    ensures Inv(sts[k])
  {
    if k > 0 { RunInv(sts, ms, k - 1); InvMove(sts[k - 1], ms[k - 1]); }
  }

  // ------------------------------------------------------------------
  // What every run guarantees
  // ------------------------------------------------------------------

  /** Two clients never share a listen and two listens never share a client; both sides asked for one instance. */
  lemma OneToOne(sts: seq<State>, ms: seq<Move>, k: nat, l: ListenId, c: ClientId)
    requires Run(sts, ms) && k < |sts| && Partners(sts[k], l, c)
    ensures l in sts[k].listens && sts[k].listens[l].pc.Handed? && sts[k].listens[l].pc.client == c
    ensures forall d :: Partners(sts[k], l, d) ==> d == c
    ensures forall n :: Partners(sts[k], n, c) ==> n == l
    ensures KnownInst(sts[k], sts[k].listens[l].pc.via, sts[k].listens[l].id)
    ensures ClientSide(sts[k], c, l) ==> sts[k].clients[c].pc.via == sts[k].listens[l].pc.via && sts[k].clients[c].id == sts[k].listens[l].id
  {
    RunInv(sts, ms, k);
    assert ClientOk(sts[k], c);
    assert ListenOk(sts[k], l);
    forall d | Partners(sts[k], l, d) ensures d == c { assert ClientOk(sts[k], d); }
    forall n | Partners(sts[k], n, c) ensures n == l {
      if sts[k].clients[c].pc.ClientOver? { AtMostOne(sts[k].clients[c].pc.served, n, l); }
    }
  }

  lemma AtMostOne<T>(s: set<T>, a: T, b: T)
    requires |s| <= 1 && a in s && b in s
    ensures a == b
  {
    assert |s - {a}| == |s| - 1;
    assert s - {a} == {};
    assert a == b || b in s - {a};
  }

  /**
   Until it is closed, exactly one handler answers for a listen: its own, or that of
   the client it was handed to. Afterwards none does, and it was closed once.
   */
  lemma OneCloser(sts: seq<State>, ms: seq<Move>, k: nat, l: ListenId)
    requires Run(sts, ms) && k < |sts| && l in sts[k].listens
    ensures sts[k].listens[l].closes <= 1
    ensures sts[k].listens[l].closes == 0 ==>
              if ParkSide(sts[k].listens[l].pc) then forall c :: !ClientSide(sts[k], c, l)
              else sts[k].listens[l].pc.Handed? && forall c :: ClientSide(sts[k], c, l) <==> c == sts[k].listens[l].pc.client
    ensures sts[k].listens[l].closes == 1 ==>
              !ParkSide(sts[k].listens[l].pc) && forall c :: !ClientSide(sts[k], c, l)
  {
    RunInv(sts, ms, k);
    assert ListenOk(sts[k], l);
    forall c | ClientSide(sts[k], c, l) ensures sts[k].listens[l].pc.Handed? && sts[k].listens[l].pc.client == c {
      assert ClientOk(sts[k], c);
    }
  }

  /** A listen whose park returned an error was never handed over, nor ever will be. */
  lemma {:induction false} FailedParkIsNeverMatched(sts: seq<State>, ms: seq<Move>, j: nat, k: nat, l: ListenId)
    requires Run(sts, ms) && j < |sts| && k < |sts|
    requires l in sts[j].listens && (sts[j].listens[l].pc.ParkFailed? || sts[j].listens[l].pc.ListenOver?)
    ensures forall c :: !Partners(sts[k], l, c)
  {
    if j <= k {
      StaysFailed(sts, ms, j, k, l);
      Unmatched(sts, ms, k, l);
    } else {
      forall c ensures !Partners(sts[k], l, c) {
        if Partners(sts[k], l, c) {
          OneToOne(sts, ms, k, l, c);
          StaysHanded(sts, ms, k, j, l);
          assert false;
        }
      }
    }
  }

  lemma Unmatched(sts: seq<State>, ms: seq<Move>, k: nat, l: ListenId)
    requires Run(sts, ms) && k < |sts| && l in sts[k].listens && !sts[k].listens[l].pc.Handed?
    ensures forall c :: !Partners(sts[k], l, c)
  {
    forall c ensures !Partners(sts[k], l, c) {
      if Partners(sts[k], l, c) { OneToOne(sts, ms, k, l, c); }
    }
  }

  lemma {:induction false} StaysFailed(sts: seq<State>, ms: seq<Move>, j: nat, k: nat, l: ListenId)
    requires Run(sts, ms) && j <= k < |sts|
    requires l in sts[j].listens && (sts[j].listens[l].pc.ParkFailed? || sts[j].listens[l].pc.ListenOver?)
    ensures l in sts[k].listens && (sts[k].listens[l].pc.ParkFailed? || sts[k].listens[l].pc.ListenOver?)
    decreases k
  {
    if j < k { StaysFailed(sts, ms, j, k - 1, l); }
  }

  lemma {:induction false} StaysHanded(sts: seq<State>, ms: seq<Move>, j: nat, k: nat, l: ListenId)
    requires Run(sts, ms) && j <= k < |sts|
    requires l in sts[j].listens && sts[j].listens[l].pc.Handed?
    ensures l in sts[k].listens && sts[k].listens[l].pc == sts[j].listens[l].pc
    decreases k
  {
    if j < k { StaysHanded(sts, ms, j, k - 1, l); }
  }

  /** A client connection too is closed exactly once, by its own handler, and then stays untouched. */
  lemma ClientClosedOnce(sts: seq<State>, ms: seq<Move>, k: nat, c: ClientId)
    requires Run(sts, ms) && k < |sts| && c in sts[k].clients
    ensures sts[k].clients[c].closes <= 1
    ensures sts[k].clients[c].closes == 1 <==> sts[k].clients[c].pc.ClientOver?
  {
    RunInv(sts, ms, k);
    assert ClientOk(sts[k], c);
  }

  // ------------------------------------------------------------------
  // What handlers can always do
  // ------------------------------------------------------------------

  /** A listen and a client that ask for a registered ID can meet: look up, acknowledge, hand over, bridge. */
  lemma ListenMeetsClient(st: State, l: ListenId, c: ClientId)
    requires l in st.listens && st.listens[l].pc == Greeted && c in st.clients && st.clients[c].pc == Arrived
    requires st.listens[l].id == st.clients[c].id && 0 < |st.clients[c].id| <= 64 && st.clients[c].id in st.hub.slots
    ensures Enabled(st, LookupListen(l))
    ensures var s1 := Do(st, LookupListen(l));
            Enabled(s1, AckListen(l, true)) &&
            var s2 := Do(s1, AckListen(l, true));
            Enabled(s2, LookupClient(c)) &&
            var s3 := Do(s2, LookupClient(c));
            Enabled(s3, HandOff(l, c)) &&
            var s4 := Do(s3, HandOff(l, c));
            Enabled(s4, AckClient(c, true)) &&
            var s5 := Do(s4, AckClient(c, true));
            s5.clients[c].pc == Bridging(l, st.hub.slots[st.clients[c].id]) && s5.listens[l].pc.Handed? && s5.hub == st.hub
  {
    var i := st.hub.slots[st.clients[c].id];
    var s1 := Do(st, LookupListen(l));
    assert s1.listens[l].pc == Acking(i) && s1.clients == st.clients;
    var s2 := Do(s1, AckListen(l, true));
    assert s2.listens[l].pc == Parking(i) && s2.clients == st.clients && s2.hub == st.hub;
    var s3 := Do(s2, LookupClient(c));
    assert s3.clients[c].pc == Waiting(i) && s3.listens == s2.listens;
  }

  /** Nobody waits on a cancelled instance for ever: its parked listens and waiting clients can give up. */
  lemma CancelledInstanceFreesAll(st: State, i: InstId)
    requires InstCancelled(st, i)
    ensures forall l :: l in st.listens && st.listens[l].pc == Parking(i) ==> Enabled(st, AbortPark(l))
    ensures forall c :: c in st.clients && st.clients[c].pc == Waiting(i) ==> Enabled(st, AbortWait(c))
  {
  }

  /** A park ends in an error only if its own connection or the instance is gone. */
  lemma ParkErrorsHaveACause(st: State, m: Move, l: ListenId)
    requires Enabled(st, m) && l in st.listens && st.listens[l].pc.Parking?
    requires l in Do(st, m).listens && Do(st, m).listens[l].pc == ParkFailed
    ensures st.listens[l].dead || InstCancelled(st, st.listens[l].pc.inst)
  {
  }

  /** A wait ends without a listen only if the client's own connection or the instance is gone. */
  lemma WaitErrorsHaveACause(st: State, m: Move, c: ClientId)
    requires Enabled(st, m) && c in st.clients && st.clients[c].pc.Waiting?
    requires c in Do(st, m).clients && Do(st, m).clients[c].pc.ClientOver?
    ensures st.clients[c].dead || InstCancelled(st, st.clients[c].pc.inst)
  {
  }

  predicate ListenIdOk(l: Listen) { l.pc.Acking? || l.pc.Parking? || l.pc.Handed? ==> l.id != "" }

  predicate ClientIdOk(c: Client) { c.pc.Waiting? || c.pc.Matched? || c.pc.Bridging? ==> 1 <= |c.id| <= 64 }

  /** Only well-formed instance IDs get past the greeting. */
  ghost predicate IdsChecked(st: State) {
    && (forall l :: l in st.listens ==> ListenIdOk(st.listens[l]))
    && (forall c :: c in st.clients ==> ClientIdOk(st.clients[c]))
  }

  lemma ListenIdStep(st: State, m: Move, l: ListenId)
    requires Enabled(st, m) && (l in st.listens ==> ListenIdOk(st.listens[l])) && l in Do(st, m).listens
    ensures ListenIdOk(Do(st, m).listens[l])
  {
  }

  lemma ClientIdStep(st: State, m: Move, c: ClientId)
    requires Enabled(st, m) && (c in st.clients ==> ClientIdOk(st.clients[c])) && c in Do(st, m).clients
    ensures ClientIdOk(Do(st, m).clients[c])
  {
  }

  lemma IdsCheckedStep(st: State, m: Move)
    requires Enabled(st, m) && IdsChecked(st)
    ensures IdsChecked(Do(st, m))
  {
    forall l | l in Do(st, m).listens ensures ListenIdOk(Do(st, m).listens[l]) { ListenIdStep(st, m, l); }
    forall c | c in Do(st, m).clients ensures ClientIdOk(Do(st, m).clients[c]) { ClientIdStep(st, m, c); }
  }

  /** In every run a listen that parks names an instance, and a client that waits gave an ID of 1 to 64 characters. */
  lemma {:induction false} IdsAreChecked(sts: seq<State>, ms: seq<Move>, k: nat)
    requires Run(sts, ms) && k < |sts|
    ensures IdsChecked(sts[k])
  {
    if k > 0 {
      IdsAreChecked(sts, ms, k - 1);
      IdsCheckedStep(sts[k - 1], ms[k - 1]);
    }
  }
}
