/**
 Without interference the ceremony cannot stall: while nothing is replaced, dropped
 or cancelled, each step moves one side one state on, and some step is
 available until both sides are Paired.
 */
module PairingCompletes {
  import opened Pairing
  import opened PairingRuns

  function AcceptorRank(s: AcceptorState): nat {
    match s
    case AIdle => 0 case AGeneratingEphemeral => 1 case ARegisteringRelay => 2 case AWaitingForHello => 3
    case AWaitingForReveal => 4 case ADerivingCode => 5 case AAwaitingUserConfirm => 6
    case AAwaitingPeerConfirm => 7 case APaired => 8 case AAborted => 9
  }

  function InitiatorRank(s: InitiatorState): nat {
    match s
    case IIdle => 0 case IDecodingToken => 1 case IGeneratingEphemeral => 2 case IConnectingRelay => 3
    case IAwaitingWelcome => 4 case IRevealing => 5 case IDerivingCode => 6 case IAwaitingUserConfirm => 7
    case IAwaitingPeerConfirm => 8 case IPaired => 9 case IAborted => 10
  }

  function Rank(w: World): nat { AcceptorRank(w.a.state) + InitiatorRank(w.i.state) }

  /** How many messages each side has sent and taken, in the fixed order of the ceremony. */
  function SentToAcceptor(s: InitiatorState): nat {
    var r := InitiatorRank(s); if r < 4 then 0 else if r < 5 then 1 else if r < 8 then 2 else 3
  }

  function TakenByAcceptor(s: AcceptorState): nat {
    var r := AcceptorRank(s); if r < 4 then 0 else if r < 5 then 1 else if r < 8 then 2 else 3
  }

  function SentToInitiator(s: AcceptorState): nat {
    var r := AcceptorRank(s); if r < 4 then 0 else if r < 7 then 1 else 2
  }

  function TakenByInitiator(s: InitiatorState): nat {
    var r := InitiatorRank(s); if r < 5 then 0 else if r < 9 then 1 else 2
  }

  function PlaceA(m: ToAcceptor): nat { if m.Hello? then 0 else if m.Reveal? then 1 else 2 }

  function PlaceI(m: ToInitiator): nat { if m.Welcome? then 0 else 1 }

  /** Neither cancelled nor interfered with. */
  predicate HonestStep(s: Step) {
    || (s.AcceptorStep? && !s.aev.AUserCancel? && !s.aev.CommitFail?)
    || (s.InitiatorStep? && !s.iev.IUserCancel?)
    || s.AcceptorReceives? || s.InitiatorReceives?
  }

  /** Users confirm only matching codes. */
  predicate Allowed(w: World, s: Step) {
    && HonestStep(s) && Enabled(w, s)
    && (s == AcceptorStep(AUserConfirm) || s == InitiatorStep(IUserConfirm) ==> CodesMatch(w))
  }

  predicate ToAcceptorInOrder(w: World) {
    && |w.toAcceptor| == SentToAcceptor(w.i.state) - TakenByAcceptor(w.a.state)
    && forall x :: 0 <= x < |w.toAcceptor| ==> PlaceA(w.toAcceptor[x]) == TakenByAcceptor(w.a.state) + x
  }

  predicate ToInitiatorInOrder(w: World) {
    && |w.toInitiator| == SentToInitiator(w.a.state) - TakenByInitiator(w.i.state)
    && forall x :: 0 <= x < |w.toInitiator| ==> PlaceI(w.toInitiator[x]) == TakenByInitiator(w.i.state) + x
  }

  predicate CodesSet(w: World) {
    && (AcceptorRank(w.a.state) >= 5 ==> w.a.code == DeriveCode(w.p.acceptorKey, w.p.initiatorKey))
    && (InitiatorRank(w.i.state) >= 6 ==> w.i.code == DeriveCode(w.p.initiatorKey, w.p.acceptorKey))
  }

  ghost predicate Smooth(w: World) {
    && Inv(w) && w.adversaryKeys == {} && !w.a.state.AAborted? && !w.i.state.IAborted?
    && ToAcceptorInOrder(w) && ToInitiatorInOrder(w) && CodesSet(w)
  }

  lemma OrderKept(w: World, s: Step)
    requires Smooth(w) && HonestStep(s) && Enabled(w, s)
    ensures ToAcceptorInOrder(Do(w, s)) && ToInitiatorInOrder(Do(w, s))
  {
    if s.AcceptorStep? { OrderAcceptorStep(w, s.aev); }
    else if s.InitiatorStep? { OrderInitiatorStep(w, s.iev); }
    else if s.AcceptorReceives? { OrderAcceptorReceives(w); }
    else { OrderInitiatorReceives(w); }
  }

  lemma OrderAcceptorStep(w: World, ev: AcceptorEvent)
    requires ToAcceptorInOrder(w) && ToInitiatorInOrder(w) && Enabled(w, AcceptorStep(ev)) && HonestStep(AcceptorStep(ev))
    ensures ToAcceptorInOrder(Do(w, AcceptorStep(ev))) && ToInitiatorInOrder(Do(w, AcceptorStep(ev)))
  {
  }

  lemma OrderInitiatorStep(w: World, ev: InitiatorEvent)
    requires ToAcceptorInOrder(w) && ToInitiatorInOrder(w) && Enabled(w, InitiatorStep(ev)) && HonestStep(InitiatorStep(ev))
    ensures ToAcceptorInOrder(Do(w, InitiatorStep(ev))) && ToInitiatorInOrder(Do(w, InitiatorStep(ev)))
  {
  }

  lemma OrderAcceptorReceives(w: World)
    requires ToAcceptorInOrder(w) && ToInitiatorInOrder(w) && Enabled(w, AcceptorReceives)
    ensures ToAcceptorInOrder(Do(w, AcceptorReceives)) && ToInitiatorInOrder(Do(w, AcceptorReceives))
  {
  }

  lemma OrderInitiatorReceives(w: World)
    requires ToAcceptorInOrder(w) && ToInitiatorInOrder(w) && Enabled(w, InitiatorReceives)
    ensures ToAcceptorInOrder(Do(w, InitiatorReceives)) && ToInitiatorInOrder(Do(w, InitiatorReceives))
  {
  }

  lemma AcceptorRanks(a: Acceptor, ev: AcceptorEvent)
    requires AcceptorTakes(a.state, ev) && !ev.AUserCancel? && !ev.CommitFail?
    ensures AcceptorRank(AcceptorOn(a, ev).state) == AcceptorRank(a.state) + 1 <= 8
    ensures !ev.RecvReveal? ==> AcceptorOn(a, ev).code == a.code && AcceptorRank(a.state) != 4
  {
  }

  lemma InitiatorRanks(i: Initiator, ev: InitiatorEvent)
    requires InitiatorTakes(i.state, ev) && !ev.IUserCancel?
    ensures InitiatorRank(InitiatorOn(i, ev).state) == InitiatorRank(i.state) + 1 <= 9
    ensures !ev.RevealSent? ==> InitiatorOn(i, ev).code == i.code && InitiatorRank(i.state) != 5
  {
  }

  /** A step that moves the acceptor, and only it, by its next event. */
  predicate MovesAcceptor(w: World, w': World, ev: AcceptorEvent) {
    && AcceptorTakes(w.a.state, ev) && !ev.AUserCancel? && !ev.CommitFail?
    && w'.a == AcceptorOn(w.a, ev) && w'.i == w.i && w'.p == w.p && w'.adversaryKeys == w.adversaryKeys
  }

  predicate MovesInitiator(w: World, w': World, ev: InitiatorEvent) {
    && InitiatorTakes(w.i.state, ev) && !ev.IUserCancel?
    && w'.i == InitiatorOn(w.i, ev) && w'.a == w.a && w'.p == w.p && w'.adversaryKeys == w.adversaryKeys
  }

  /** The event a step feeds to the acceptor, if it is one of the acceptor's. */
  function AcceptorEventOf(w: World, s: Step): AcceptorEvent
    requires Enabled(w, s) && (s.AcceptorStep? || s.AcceptorReceives?)
  {
    if s.AcceptorStep? then s.aev else AsAcceptorEvent(w.toAcceptor[0])
  }

  function InitiatorEventOf(w: World, s: Step): InitiatorEvent
    requires Enabled(w, s) && (s.InitiatorStep? || s.InitiatorReceives?)
  {
    if s.InitiatorStep? then s.iev else AsInitiatorEvent(w.toInitiator[0])
  }

  lemma StepMovesAcceptor(w: World, s: Step)
    requires HonestStep(s) && Enabled(w, s) && (s.AcceptorStep? || s.AcceptorReceives?)
    ensures MovesAcceptor(w, Do(w, s), AcceptorEventOf(w, s))
  {
  }

  lemma StepMovesInitiator(w: World, s: Step)
    requires HonestStep(s) && Enabled(w, s) && (s.InitiatorStep? || s.InitiatorReceives?)
    ensures MovesInitiator(w, Do(w, s), InitiatorEventOf(w, s))
  {
  }

  /** A revealed key opens the honest commit, so the acceptor's code is the honest one. */
  lemma AcceptorCodeSet(w: World, w': World, ev: AcceptorEvent)
    requires Smooth(w) && MovesAcceptor(w, w', ev) && (ev.RecvReveal? ==> ev.eph == w.p.initiatorKey)
    ensures CodesSet(w')
  {
    AcceptorRanks(w.a, ev);
  }

  lemma InitiatorCodeSet(w: World, w': World, ev: InitiatorEvent)
    requires Smooth(w) && MovesInitiator(w, w', ev)
    ensures CodesSet(w')
  {
    InitiatorRanks(w.i, ev);
  }

  lemma StepKeeps(w: World, s: Step)
    requires Smooth(w) && HonestStep(s) && Enabled(w, s)
    ensures CodesSet(Do(w, s)) && Rank(Do(w, s)) == Rank(w) + 1 && Do(w, s).adversaryKeys == {}
    ensures Do(w, s).a.state != AAborted && Do(w, s).i.state != IAborted
  {
    var w' := Do(w, s);
    if s.AcceptorStep? || s.AcceptorReceives? {
      var ev := AcceptorEventOf(w, s);
      StepMovesAcceptor(w, s);
      AcceptorRanks(w.a, ev);
      if s.AcceptorReceives? { assert w.toAcceptor[0] in w.toAcceptor; }
      AcceptorCodeSet(w, w', ev);
    } else {
      var ev := InitiatorEventOf(w, s);
      StepMovesInitiator(w, s);
      InitiatorRanks(w.i, ev);
      InitiatorCodeSet(w, w', ev);
    }
  }

  lemma SmoothStep(w: World, s: Step)
    requires Smooth(w) && HonestStep(s) && Enabled(w, s)
    ensures Smooth(Do(w, s)) && Rank(Do(w, s)) == Rank(w) + 1
  {
    InvStep(w, s);
    OrderKept(w, s);
    StepKeeps(w, s);
  }

  /** Until both sides are Paired some step is available. */
  lemma NextStep(w: World) returns (s: Step)
    requires Smooth(w) && !(w.a.state.APaired? && w.i.state.IPaired?)
    ensures Allowed(w, s)
  {
    if AcceptorRank(w.a.state) in {0, 1, 2, 5} { s := AcceptorMoves(w); }
    else if InitiatorRank(w.i.state) in {0, 1, 2, 3, 5, 6} { s := InitiatorMoves(w); }
    else { s := SomeoneMoves(w); }
  }

  lemma AcceptorMoves(w: World) returns (s: Step)
    requires AcceptorRank(w.a.state) in {0, 1, 2, 5}
    ensures Allowed(w, s)
  {
    if w.a.state.AIdle? { return AcceptorStep(PairBegin(w.p.acceptorKey)); }
    if w.a.state.AGeneratingEphemeral? { return AcceptorStep(AEphemeralReady); }
    if w.a.state.ARegisteringRelay? { return AcceptorStep(RelayRegistered); }
    return AcceptorStep(ACodeReady);
  }

  lemma InitiatorMoves(w: World) returns (s: Step)
    requires InitiatorRank(w.i.state) in {0, 1, 2, 3, 5, 6}
    ensures Allowed(w, s)
  {
    if w.i.state.IIdle? {
      return InitiatorStep(TokenReceived(w.p.acceptorKey, w.p.acceptorIdentity, w.p.acceptorInstance));
    }
    if w.i.state.IDecodingToken? { return InitiatorStep(TokenDecoded(w.p.initiatorKey)); }
    if w.i.state.IGeneratingEphemeral? { return InitiatorStep(IEphemeralReady); }
    if w.i.state.IConnectingRelay? { return InitiatorStep(RelayConnected); }
    if w.i.state.IRevealing? { return InitiatorStep(RevealSent); }
    return InitiatorStep(ICodeReady);
  }

  /** Both wait for a message or a user: whoever is behind can go on. */
  lemma SomeoneMoves(w: World) returns (s: Step)
    requires Smooth(w) && !(w.a.state.APaired? && w.i.state.IPaired?)
    requires AcceptorRank(w.a.state) in {3, 4, 6, 7, 8} && InitiatorRank(w.i.state) in {4, 7, 8, 9}
    ensures Allowed(w, s)
  {
    CodesArePairs(w.p.acceptorKey, w.p.initiatorKey, w.p.initiatorKey, w.p.acceptorKey);
    if w.toAcceptor != [] && AcceptorTakes(w.a.state, AsAcceptorEvent(w.toAcceptor[0])) { return AcceptorReceives; }
    if w.toInitiator != [] && InitiatorTakes(w.i.state, AsInitiatorEvent(w.toInitiator[0])) { return InitiatorReceives; }
    return if w.a.state.AAwaitingUserConfirm? then AcceptorStep(AUserConfirm) else InitiatorStep(IUserConfirm);
  }

  /** A run of the ceremony in which the relay only relays and the users only confirm matching codes. */
  ghost predicate HonestRun(ws: seq<World>, steps: seq<Step>) {
    Run(ws, steps) && HumanRule(ws, steps) && forall k :: 0 <= k < |steps| ==> HonestStep(steps[k])
  }

  lemma SmoothInit(w: World)
    requires Init(w)
    ensures Smooth(w) && Rank(w) == 0
  {
    InitInv(w);
  }

  lemma {:induction false} HonestRunIsSmooth(ws: seq<World>, steps: seq<Step>, j: nat)
    requires HonestRun(ws, steps) && j < |ws|
    ensures Smooth(ws[j]) && Rank(ws[j]) == j
  {
    if j == 0 {
      SmoothInit(ws[0]);
    } else {
      HonestRunIsSmooth(ws, steps, j - 1);
      assert StepAt(ws, steps, j - 1);
      SmoothStep(ws[j - 1], steps[j - 1]);
    }
  }

  /**
   Every honest run ends after at most seventeen steps, and one that can go no further
   has both sides Paired.
   */
  lemma HonestRunsComplete(ws: seq<World>, steps: seq<Step>)
    requires HonestRun(ws, steps)
    ensures |steps| <= 17
    ensures (forall s :: !Allowed(ws[|steps|], s)) <==> ws[|steps|].a.state.APaired? && ws[|steps|].i.state.IPaired?
    ensures |steps| == 17 <==> ws[|steps|].a.state.APaired? && ws[|steps|].i.state.IPaired?
  {
    var w := ws[|steps|];
    HonestRunIsSmooth(ws, steps, |steps|);
    if !(w.a.state.APaired? && w.i.state.IPaired?) {
      var s := NextStep(w);
    } else {
      forall s ensures !Allowed(w, s) { if HonestStep(s) && Enabled(w, s) { StepKeeps(w, s); } }
    }
  }
}
