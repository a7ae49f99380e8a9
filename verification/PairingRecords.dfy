/**
 What each side of the ceremony has on record about the other, and the edges by
 which every state is entered.
 */
module PairingRecords {
  import opened Pairing
  import opened PairingRuns

  // ------------------------------------------------------------------
  // How states are entered
  // ------------------------------------------------------------------

  /** The acceptor's edges, listed by the state they lead to. */
  predicate AcceptorEdge(from: AcceptorState, ev: AcceptorEvent, to: AcceptorState) {
    match to
    case AIdle => false
    case AGeneratingEphemeral => from.AIdle? && ev.PairBegin?
    case ARegisteringRelay => from.AGeneratingEphemeral? && ev.AEphemeralReady?
    case AWaitingForHello => from.ARegisteringRelay? && ev.RelayRegistered?
    case AWaitingForReveal => from.AWaitingForHello? && ev.RecvHello?
    case ADerivingCode => from.AWaitingForReveal? && ev.RecvReveal?
    case AAwaitingUserConfirm => from.ADerivingCode? && ev.ACodeReady?
    case AAwaitingPeerConfirm => from.AAwaitingUserConfirm? && ev.AUserConfirm?
    case APaired => from.AAwaitingPeerConfirm? && ev.RecvConfirmToAcceptor?
    case AAborted =>
      || ((from.AAwaitingUserConfirm? || from.AAwaitingPeerConfirm?) && ev.AUserCancel?)
      || (from.AWaitingForReveal? && ev.CommitFail?)
  }

  predicate InitiatorEdge(from: InitiatorState, ev: InitiatorEvent, to: InitiatorState) {
    match to
    case IIdle => false
    case IDecodingToken => from.IIdle? && ev.TokenReceived?
    case IGeneratingEphemeral => from.IDecodingToken? && ev.TokenDecoded?
    case IConnectingRelay => from.IGeneratingEphemeral? && ev.IEphemeralReady?
    case IAwaitingWelcome => from.IConnectingRelay? && ev.RelayConnected?
    case IRevealing => from.IAwaitingWelcome? && ev.RecvWelcome?
    case IDerivingCode => from.IRevealing? && ev.RevealSent?
    case IAwaitingUserConfirm => from.IDerivingCode? && ev.ICodeReady?
    case IAwaitingPeerConfirm => from.IAwaitingUserConfirm? && ev.IUserConfirm?
    case IPaired => from.IAwaitingPeerConfirm? && ev.RecvConfirmToInitiator?
    case IAborted => (from.IAwaitingUserConfirm? || from.IAwaitingPeerConfirm?) && ev.IUserCancel?
  }

  /** Each state is entered by exactly its listed edges, and an event off them is not taken. */
  lemma AcceptorEntersIff(a: Acceptor, ev: AcceptorEvent, to: AcceptorState)
    ensures AcceptorTakes(a.state, ev) && AcceptorOn(a, ev).state == to <==> AcceptorEdge(a.state, ev, to)
  {
  }

  lemma InitiatorEntersIff(i: Initiator, ev: InitiatorEvent, to: InitiatorState)
    ensures InitiatorTakes(i.state, ev) && InitiatorOn(i, ev).state == to <==> InitiatorEdge(i.state, ev, to)
  {
  }

  // ------------------------------------------------------------------
  // Records
  // ------------------------------------------------------------------

  /** Messages under way carry their sender's own identity, and a confirmation under way was given. */
  ghost predicate MessagesGenuine(w: World) {
    && (forall m :: m in w.toAcceptor && m.Hello? ==>
          m.identity == w.p.initiatorIdentity && m.instance == w.p.initiatorInstance)
    && (forall m :: m in w.toInitiator && m.Welcome? ==>
          m.identity == w.p.acceptorIdentity && m.instance == w.p.acceptorInstance)
    && (ConfirmToAcceptor in w.toAcceptor ==> w.i.userConfirmed)
    && (ConfirmToInitiator in w.toInitiator ==> w.a.userConfirmed)
  }

  predicate AcceptorRecord(w: World) {
    && (!BeforeHello(w.a.state) ==>
          w.a.receivedIdentity == w.p.initiatorIdentity && w.a.receivedInstance == w.p.initiatorInstance)
    && (w.a.receivedConfirm <==> w.a.state.APaired?)
    && (w.a.receivedConfirm ==> w.i.userConfirmed)
  }

  predicate BeforeWelcome(s: InitiatorState) { BeforeConnect(s) || s.IAwaitingWelcome? }

  predicate InitiatorRecord(w: World) {
    && (!w.i.state.IIdle? ==>
          && w.i.tokenEphPub == w.p.acceptorKey
          && w.i.tokenIdentity == w.p.acceptorIdentity && w.i.tokenInstance == w.p.acceptorInstance)
    && (!BeforeWelcome(w.i.state) ==>
          w.i.receivedIdentity == w.p.acceptorIdentity && w.i.receivedInstance == w.p.acceptorInstance)
    && (w.i.receivedConfirm <==> w.i.state.IPaired?)
    && (w.i.receivedConfirm ==> w.a.userConfirmed)
  }

  ghost predicate Records(w: World) { MessagesGenuine(w) && AcceptorRecord(w) && InitiatorRecord(w) }

  lemma RecordsAcceptorStep(w: World, ev: AcceptorEvent)
    requires Records(w) && Enabled(w, AcceptorStep(ev))
    ensures Records(Do(w, AcceptorStep(ev)))
  {
  }

  lemma RecordsInitiatorStep(w: World, ev: InitiatorEvent)
    requires Records(w) && Enabled(w, InitiatorStep(ev))
    ensures Records(Do(w, InitiatorStep(ev)))
  {
  }

  lemma RecordsAcceptorReceives(w: World)
    requires Records(w) && Enabled(w, AcceptorReceives)
    ensures Records(Do(w, AcceptorReceives))
  {
    TailIsIn(w.toAcceptor);
    assert w.toAcceptor[0] in w.toAcceptor;
  }

  lemma RecordsInitiatorReceives(w: World)
    requires Records(w) && Enabled(w, InitiatorReceives)
    ensures Records(Do(w, InitiatorReceives))
  {
    TailIsIn(w.toInitiator);
    assert w.toInitiator[0] in w.toInitiator;
  }

  lemma RecordsInterference(w: World, s: Step)
    requires Records(w) && Enabled(w, s)
    requires s.SubstituteHello? || s.SubstituteReveal? || s.SubstituteWelcome? || s.DropToAcceptor? || s.DropToInitiator?
    ensures Records(Do(w, s))
  {
    if w.toAcceptor != [] { TailIsIn(w.toAcceptor); assert w.toAcceptor[0] in w.toAcceptor; }
    if w.toInitiator != [] { TailIsIn(w.toInitiator); assert w.toInitiator[0] in w.toInitiator; }
  }

  lemma RecordsStep(w: World, s: Step)
    requires Records(w) && Enabled(w, s)
    ensures Records(Do(w, s))
  {
    if s.AcceptorStep? { RecordsAcceptorStep(w, s.aev); }
    else if s.InitiatorStep? { RecordsInitiatorStep(w, s.iev); }
    else if s.AcceptorReceives? { RecordsAcceptorReceives(w); }
    else if s.InitiatorReceives? { RecordsInitiatorReceives(w); }
    else { RecordsInterference(w, s); }
  }

  lemma {:induction false} RunRecords(ws: seq<World>, steps: seq<Step>, j: nat)
    requires Run(ws, steps) && j < |ws|
    ensures Records(ws[j])
  {
    if j > 0 {
      RunRecords(ws, steps, j - 1);
      assert StepAt(ws, steps, j - 1);
      RecordsStep(ws[j - 1], steps[j - 1]);
    }
  }

  /**
   In every run a side past the peer's introduction holds the peer's own identity and
   instance, and the initiator holds what its token said.
   */
  lemma RecordsNameThePeer(ws: seq<World>, steps: seq<Step>, j: nat)
    requires Run(ws, steps) && j < |ws|
    ensures !BeforeHello(ws[j].a.state) ==>
              ws[j].a.receivedIdentity == ws[j].p.initiatorIdentity && ws[j].a.receivedInstance == ws[j].p.initiatorInstance
    ensures !BeforeWelcome(ws[j].i.state) ==>
              ws[j].i.receivedIdentity == ws[j].p.acceptorIdentity && ws[j].i.receivedInstance == ws[j].p.acceptorInstance
    ensures !ws[j].i.state.IIdle? ==>
              && ws[j].i.tokenEphPub == ws[j].p.acceptorKey
              && ws[j].i.tokenIdentity == ws[j].p.acceptorIdentity && ws[j].i.tokenInstance == ws[j].p.acceptorInstance
  {
    RunRecords(ws, steps, j);
  }

  /**
   A side that reached Paired has some peer key and the peer's own identity and instance,
   has confirmed, has the peer's confirmation on record, and the peer did confirm.
   */
  lemma PairedRecordsAreValid(ws: seq<World>, steps: seq<Step>, j: nat)
    requires Run(ws, steps) && j < |ws|
    ensures ws[j].a.state.APaired? ==>
              && ws[j].a.receivedEphPub != NoKey && ws[j].a.receivedInstance != NONE
              && ws[j].a.receivedIdentity == ws[j].p.initiatorIdentity && ws[j].a.receivedInstance == ws[j].p.initiatorInstance
              && ws[j].a.userConfirmed && ws[j].a.receivedConfirm && ws[j].i.userConfirmed
    ensures ws[j].i.state.IPaired? ==>
              && ws[j].i.receivedEphPub != NoKey && ws[j].i.receivedInstance != NONE
              && ws[j].i.receivedIdentity == ws[j].p.acceptorIdentity && ws[j].i.receivedInstance == ws[j].p.acceptorInstance
              && ws[j].i.userConfirmed && ws[j].i.receivedConfirm && ws[j].a.userConfirmed
  {
    RunInv(ws, steps, j);
    RunRecords(ws, steps, j);
  }
}
