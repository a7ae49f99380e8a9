/**
 The generated machines as objects. A generated method assigns literals itself and
 leaves every update that depends on a received message to the edge's action
 callback, so it follows the table exactly when the callback does its part.
 */
module PairingMachines {
  import opened Pairing

  predicate AcceptorHasAction(ev: AcceptorEvent) {
    !ev.ACodeReady? && !ev.AUserConfirm? && !ev.AUserCancel? && !ev.CommitFail?
  }

  predicate InitiatorHasAction(ev: InitiatorEvent) {
    !ev.RelayConnected? && !ev.ICodeReady? && !ev.IUserConfirm? && !ev.IUserCancel?
  }

  /** The edges with a callback, told by where they lead. */
  lemma AcceptorCallbacks(a: Acceptor, ev: AcceptorEvent)
    requires AcceptorTakes(a.state, ev)
    ensures AcceptorHasAction(ev) <==>
              AcceptorOn(a, ev).state in
                {AGeneratingEphemeral, ARegisteringRelay, AWaitingForHello, AWaitingForReveal, ADerivingCode, APaired}
  {
  }

  lemma InitiatorCallbacks(i: Initiator, ev: InitiatorEvent)
    requires InitiatorTakes(i.state, ev)
    ensures InitiatorHasAction(ev) <==>
              InitiatorOn(i, ev).state in
                {IDecodingToken, IGeneratingEphemeral, IConnectingRelay, IRevealing, IDerivingCode, IPaired}
  {
  }

  /** The acceptor's fields that only its callbacks write. */
  datatype AcceptorNotes = AcceptorNotes(
    receivedCommit: Commit, receivedEphPub: Key, receivedIdentity: string, receivedInstance: string,
    commitOk: bool, code: Code)

  function NotesOf(a: Acceptor): AcceptorNotes {
    AcceptorNotes(a.receivedCommit, a.receivedEphPub, a.receivedIdentity, a.receivedInstance, a.commitOk, a.code)
  }

  class AcceptorMachine {
    var state: AcceptorState
    var ephPub: Key
    var notes: AcceptorNotes
    var userConfirmed: bool
    var receivedConfirm: bool

    function View(): Acceptor
      reads this
    {
      Acceptor(state, ephPub, notes.receivedCommit, notes.receivedEphPub, notes.receivedIdentity, notes.receivedInstance,
               notes.commitOk, notes.code, userConfirmed, receivedConfirm)
    }

    constructor ()
      ensures View() == NEW_ACCEPTOR
    {
      state, ephPub, userConfirmed, receivedConfirm := AIdle, NoKey, false, false;
      notes := AcceptorNotes(NoCommit, NoKey, NONE, NONE, false, NoCode);
    }

    /**
     `fails` and `wrote` are what the edge's callback does, if it has one. Besides an ignored
     or failed event, the machine takes the table's step exactly when the callback leaves
     the notes the table asks for.
     */
    method HandleEvent(ev: AcceptorEvent, fails: bool, wrote: AcceptorNotes) returns (err: bool)
      modifies this
      ensures err <==> AcceptorTakes(old(state), ev) && AcceptorHasAction(ev) && fails
      ensures !AcceptorTakes(old(state), ev) || err ==> View() == old(View())
      ensures AcceptorTakes(old(state), ev) && !err ==>
                && state == AcceptorOn(old(View()), ev).state
                && (View() == AcceptorOn(old(View()), ev) <==>
                      (AcceptorHasAction(ev) ==> wrote == NotesOf(AcceptorOn(old(View()), ev))))
    {
      if !AcceptorTakes(state, ev) { return false; }
      if AcceptorHasAction(ev) {
        if fails { return true; }
        notes := wrote;
      }
      match ev {
        case PairBegin(eph) => ephPub, state := eph, AGeneratingEphemeral;
        case AEphemeralReady => state := ARegisteringRelay;
        case RelayRegistered => state := AWaitingForHello;
        case RecvHello(_, _, _) => state := AWaitingForReveal;
        case RecvReveal(_) => state := ADerivingCode;
        case ACodeReady => state := AAwaitingUserConfirm;
        case AUserConfirm => userConfirmed, state := true, AAwaitingPeerConfirm;
        case RecvConfirmToAcceptor => receivedConfirm, state := true, APaired;
        case AUserCancel => state := AAborted;
        case CommitFail => state := AAborted;
      }
      err := false;
    }
  }

  /** The initiator's fields that only its callbacks write. */
  datatype InitiatorNotes = InitiatorNotes(receivedEphPub: Key, receivedIdentity: string, receivedInstance: string, code: Code)

  function InitiatorNotesOf(i: Initiator): InitiatorNotes {
    InitiatorNotes(i.receivedEphPub, i.receivedIdentity, i.receivedInstance, i.code)
  }

  class InitiatorMachine {
    var state: InitiatorState
    var ephPub: Key
    var commit: Commit
    var tokenEphPub: Key
    var tokenIdentity: string
    var tokenInstance: string
    var notes: InitiatorNotes
    var userConfirmed: bool
    var receivedConfirm: bool

    function View(): Initiator
      reads this
    {
      Initiator(state, ephPub, commit, tokenEphPub, tokenIdentity, tokenInstance,
                notes.receivedEphPub, notes.receivedIdentity, notes.receivedInstance, notes.code,
                userConfirmed, receivedConfirm)
    }

    constructor ()
      ensures View() == NEW_INITIATOR
    {
      state, ephPub, commit := IIdle, NoKey, NoCommit;
      tokenEphPub, tokenIdentity, tokenInstance := NoKey, NONE, NONE;
      notes, userConfirmed, receivedConfirm := InitiatorNotes(NoKey, NONE, NONE, NoCode), false, false;
    }

    /** As for the acceptor: the table's step exactly when the callback leaves the notes the table asks for. */
    method HandleEvent(ev: InitiatorEvent, fails: bool, wrote: InitiatorNotes) returns (err: bool)
      modifies this
      ensures err <==> InitiatorTakes(old(state), ev) && InitiatorHasAction(ev) && fails
      ensures !InitiatorTakes(old(state), ev) || err ==> View() == old(View())
      ensures InitiatorTakes(old(state), ev) && !err ==>
                && state == InitiatorOn(old(View()), ev).state
                && (View() == InitiatorOn(old(View()), ev) <==>
                      (InitiatorHasAction(ev) ==> wrote == InitiatorNotesOf(InitiatorOn(old(View()), ev))))
    {
      if !InitiatorTakes(state, ev) { return false; }
      if InitiatorHasAction(ev) {
        if fails { return true; }
        notes := wrote;
      }
      match ev {
        case TokenReceived(eph, identity, instance) =>
          tokenEphPub, tokenIdentity, tokenInstance := eph, identity, instance;
          state := IDecodingToken;
        case TokenDecoded(eph) => ephPub, commit, state := eph, CommitOf(eph), IGeneratingEphemeral;
        case IEphemeralReady => state := IConnectingRelay;
        case RelayConnected => state := IAwaitingWelcome;
        case RecvWelcome(_, _, _) => state := IRevealing;
        case RevealSent => state := IDerivingCode;
        case ICodeReady => state := IAwaitingUserConfirm;
        case IUserConfirm => userConfirmed, state := true, IAwaitingPeerConfirm;
        case RecvConfirmToInitiator => receivedConfirm, state := true, IPaired;
        case IUserCancel => state := IAborted;
      }
      err := false;
    }
  }
}
