/**
 The pairing ceremony: an acceptor and an initiator agree on each other's
 ephemeral key by commit, welcome and reveal over two FIFO channels, while the
 relay between them may replace or drop the message at the head of a channel.
 Keys are arbitrary, commits are injective and codes are unordered pairs.
 */
module Pairing {

  datatype Key = NoKey | Key(id: nat)
  datatype Commit = NoCommit | CommitOf(eph: Key)
  datatype Code = NoCode | Code(lo: Key, hi: Key)

  const NONE := "none"

  function KeyRank(k: Key): nat { match k case NoKey => 0 case Key(i) => i + 1 }

  function DeriveCode(a: Key, b: Key): Code {
    if KeyRank(a) <= KeyRank(b) then Code(a, b) else Code(b, a)
  }

  /** Codes are order-independent and otherwise collision-free. */
  lemma CodesArePairs(a: Key, b: Key, c: Key, d: Key)
    ensures DeriveCode(a, b) == DeriveCode(c, d) <==> (a == c && b == d) || (a == d && b == c)
  {
  }

  // ------------------------------------------------------------------
  // The two actors
  // ------------------------------------------------------------------

  datatype AcceptorState =
    | AIdle | AGeneratingEphemeral | ARegisteringRelay | AWaitingForHello | AWaitingForReveal | ADerivingCode
    | AAwaitingUserConfirm | AAwaitingPeerConfirm | APaired | AAborted

  datatype Acceptor = Acceptor(
    state: AcceptorState, ephPub: Key, receivedCommit: Commit, receivedEphPub: Key,
    receivedIdentity: string, receivedInstance: string,
    commitOk: bool, code: Code, userConfirmed: bool, receivedConfirm: bool)

  datatype AcceptorEvent =
    | PairBegin(eph: Key) | AEphemeralReady | RelayRegistered
    | RecvHello(commit: Commit, identity: string, instance: string)
    | RecvReveal(eph: Key)
    | ACodeReady | AUserConfirm | RecvConfirmToAcceptor | AUserCancel | CommitFail

  const NEW_ACCEPTOR := Acceptor(AIdle, NoKey, NoCommit, NoKey, NONE, NONE, false, NoCode, false, false)

  predicate AcceptorTakes(s: AcceptorState, ev: AcceptorEvent) {
    match ev
    case PairBegin(_) => s.AIdle?
    case AEphemeralReady => s.AGeneratingEphemeral?
    case RelayRegistered => s.ARegisteringRelay?
    case RecvHello(_, _, _) => s.AWaitingForHello?
    case RecvReveal(_) => s.AWaitingForReveal?
    case ACodeReady => s.ADerivingCode?
    case AUserConfirm => s.AAwaitingUserConfirm?
    case RecvConfirmToAcceptor => s.AAwaitingPeerConfirm?
    case AUserCancel => s.AAwaitingUserConfirm? || s.AAwaitingPeerConfirm?
    case CommitFail => s.AWaitingForReveal?
  }

  /** The acceptor's rows of the table: the new state and the updated variables. */
  function AcceptorOn(a: Acceptor, ev: AcceptorEvent): Acceptor
    requires AcceptorTakes(a.state, ev)
  {
    match ev
    case PairBegin(eph) => a.(state := AGeneratingEphemeral, ephPub := eph)
    case AEphemeralReady => a.(state := ARegisteringRelay)
    case RelayRegistered => a.(state := AWaitingForHello)
    case RecvHello(c, id, inst) =>
      a.(state := AWaitingForReveal, receivedCommit := c, receivedIdentity := id, receivedInstance := inst)
    case RecvReveal(eph) =>
      var ok := a.receivedCommit == CommitOf(eph);
      a.(state := ADerivingCode, receivedEphPub := eph, commitOk := ok,
         code := if ok then DeriveCode(a.ephPub, eph) else NoCode)
    case ACodeReady => a.(state := AAwaitingUserConfirm)
    case AUserConfirm => a.(state := AAwaitingPeerConfirm, userConfirmed := true)
    case RecvConfirmToAcceptor => a.(state := APaired, receivedConfirm := true)
    case AUserCancel => a.(state := AAborted)
    case CommitFail => a.(state := AAborted)
  }

  datatype InitiatorState =
    | IIdle | IDecodingToken | IGeneratingEphemeral | IConnectingRelay | IAwaitingWelcome | IRevealing | IDerivingCode
    | IAwaitingUserConfirm | IAwaitingPeerConfirm | IPaired | IAborted

  datatype Initiator = Initiator(
    state: InitiatorState, ephPub: Key, commit: Commit,
    tokenEphPub: Key, tokenIdentity: string, tokenInstance: string,
    receivedEphPub: Key, receivedIdentity: string, receivedInstance: string,
    code: Code, userConfirmed: bool, receivedConfirm: bool)

  datatype InitiatorEvent =
    | TokenReceived(eph: Key, identity: string, instance: string) | TokenDecoded(eph: Key)
    | IEphemeralReady | RelayConnected
    | RecvWelcome(eph: Key, identity: string, instance: string)
    | RevealSent | ICodeReady | IUserConfirm | RecvConfirmToInitiator | IUserCancel

  const NEW_INITIATOR := Initiator(IIdle, NoKey, NoCommit, NoKey, NONE, NONE, NoKey, NONE, NONE, NoCode, false, false)

  predicate InitiatorTakes(s: InitiatorState, ev: InitiatorEvent) {
    match ev
    case TokenReceived(_, _, _) => s.IIdle?
    case TokenDecoded(_) => s.IDecodingToken?
    case IEphemeralReady => s.IGeneratingEphemeral?
    case RelayConnected => s.IConnectingRelay?
    case RecvWelcome(_, _, _) => s.IAwaitingWelcome?
    case RevealSent => s.IRevealing?
    case ICodeReady => s.IDerivingCode?
    case IUserConfirm => s.IAwaitingUserConfirm?
    case RecvConfirmToInitiator => s.IAwaitingPeerConfirm?
    case IUserCancel => s.IAwaitingUserConfirm? || s.IAwaitingPeerConfirm?
  }

  function InitiatorOn(i: Initiator, ev: InitiatorEvent): Initiator
    requires InitiatorTakes(i.state, ev)
  {
    match ev
    case TokenReceived(eph, id, inst) =>
      i.(state := IDecodingToken, tokenEphPub := eph, tokenIdentity := id, tokenInstance := inst)
    case TokenDecoded(eph) => i.(state := IGeneratingEphemeral, ephPub := eph, commit := CommitOf(eph))
    case IEphemeralReady => i.(state := IConnectingRelay)
    case RelayConnected => i.(state := IAwaitingWelcome)
    case RecvWelcome(eph, id, inst) =>
      i.(state := IRevealing, receivedEphPub := eph, receivedIdentity := id, receivedInstance := inst)
    case RevealSent => i.(state := IDerivingCode, code := DeriveCode(i.ephPub, i.receivedEphPub))
    case ICodeReady => i.(state := IAwaitingUserConfirm)
    case IUserConfirm => i.(state := IAwaitingPeerConfirm, userConfirmed := true)
    case RecvConfirmToInitiator => i.(state := IPaired, receivedConfirm := true)
    case IUserCancel => i.(state := IAborted)
  }

  // ------------------------------------------------------------------
  // The ceremony
  // ------------------------------------------------------------------

  datatype ToAcceptor =
    | Hello(commit: Commit, identity: string, instance: string)
    | Reveal(eph: Key)
    | ConfirmToAcceptor

  datatype ToInitiator =
    | Welcome(eph: Key, identity: string, instance: string)
    | ConfirmToInitiator

  /** The two honest key pairs and identities of one ceremony. */
  datatype Parties = Parties(
    acceptorKey: Key, acceptorIdentity: string, acceptorInstance: string,
    initiatorKey: Key, initiatorIdentity: string, initiatorInstance: string)

  predicate Distinct(p: Parties) {
    && p.acceptorKey != NoKey && p.initiatorKey != NoKey && p.acceptorKey != p.initiatorKey
    && p.acceptorInstance != NONE && p.initiatorInstance != NONE
  }

  /** What became of the one message of a kind that a run sends. */
  datatype Slot<T> = Unsent | Flying(v: T) | Taken(v: T) | Lost

  datatype World = World(
    p: Parties, a: Acceptor, i: Initiator,
    toAcceptor: seq<ToAcceptor>, toInitiator: seq<ToInitiator>,
    adversaryKeys: set<Key>,
    hello: Slot<Commit>, welcome: Slot<Key>, revealed: Slot<Key>)

  predicate Init(w: World) {
    && Distinct(w.p) && w.a == NEW_ACCEPTOR && w.i == NEW_INITIATOR
    && w.toAcceptor == [] && w.toInitiator == [] && w.adversaryKeys == {}
    && w.hello == Unsent && w.welcome == Unsent && w.revealed == Unsent
  }

  datatype Step =
    | AcceptorStep(aev: AcceptorEvent) | InitiatorStep(iev: InitiatorEvent)
    | AcceptorReceives | InitiatorReceives
    | SubstituteHello(k: Key) | SubstituteWelcome(k: Key) | SubstituteReveal(k: Key)
    | DropToAcceptor | DropToInitiator

  function AsAcceptorEvent(m: ToAcceptor): AcceptorEvent {
    match m
    case Hello(c, id, inst) => RecvHello(c, id, inst)
    case Reveal(eph) => RecvReveal(eph)
    case ConfirmToAcceptor => RecvConfirmToAcceptor
  }

  function AsInitiatorEvent(m: ToInitiator): InitiatorEvent {
    match m
    case Welcome(eph, id, inst) => RecvWelcome(eph, id, inst)
    case ConfirmToInitiator => RecvConfirmToInitiator
  }

  /** Internal events carry the party's own material; receptions only happen through the channels. */
  predicate AcceptorMay(p: Parties, ev: AcceptorEvent) {
    !ev.RecvHello? && !ev.RecvReveal? && !ev.RecvConfirmToAcceptor? && (ev.PairBegin? ==> ev.eph == p.acceptorKey)
  }

  predicate InitiatorMay(p: Parties, ev: InitiatorEvent) {
    && !ev.RecvWelcome? && !ev.RecvConfirmToInitiator?
    && (ev.TokenReceived? ==> ev == TokenReceived(p.acceptorKey, p.acceptorIdentity, p.acceptorInstance))
    && (ev.TokenDecoded? ==> ev.eph == p.initiatorKey)
  }

  predicate Enabled(w: World, s: Step) {
    match s
    case AcceptorStep(ev) => AcceptorMay(w.p, ev) && AcceptorTakes(w.a.state, ev)
    case InitiatorStep(ev) => InitiatorMay(w.p, ev) && InitiatorTakes(w.i.state, ev)
    case AcceptorReceives => w.toAcceptor != [] && AcceptorTakes(w.a.state, AsAcceptorEvent(w.toAcceptor[0]))
    case InitiatorReceives => w.toInitiator != [] && InitiatorTakes(w.i.state, AsInitiatorEvent(w.toInitiator[0]))
    // A substitution puts a key of the environment's choice in place of the honest one.
    case SubstituteHello(k) => w.toAcceptor != [] && w.toAcceptor[0].Hello? && k != w.p.initiatorKey
    case SubstituteWelcome(k) => w.toInitiator != [] && w.toInitiator[0].Welcome? && k != w.p.acceptorKey && k != NoKey
    case SubstituteReveal(k) => w.toAcceptor != [] && w.toAcceptor[0].Reveal? && k != w.p.initiatorKey && k != NoKey
    case DropToAcceptor => w.toAcceptor != []
    case DropToInitiator => w.toInitiator != []
  }

  function SendToAcceptor(w: World, m: ToAcceptor): World {
    w.(toAcceptor := w.toAcceptor + [m],
       hello := if m.Hello? then Flying(m.commit) else w.hello,
       revealed := if m.Reveal? then Flying(m.eph) else w.revealed)
  }

  function SendToInitiator(w: World, m: ToInitiator): World {
    w.(toInitiator := w.toInitiator + [m], welcome := if m.Welcome? then Flying(m.eph) else w.welcome)
  }

  function PopToAcceptor(w: World, taken: bool): World
    requires w.toAcceptor != []
  {
    var m := w.toAcceptor[0];
    w.(toAcceptor := w.toAcceptor[1..],
       hello := if m.Hello? then (if taken then Taken(m.commit) else Lost) else w.hello,
       revealed := if m.Reveal? then (if taken then Taken(m.eph) else Lost) else w.revealed)
  }

  function PopToInitiator(w: World, taken: bool): World
    requires w.toInitiator != []
  {
    var m := w.toInitiator[0];
    w.(toInitiator := w.toInitiator[1..],
       welcome := if m.Welcome? then (if taken then Taken(m.eph) else Lost) else w.welcome)
  }

  function Do(w: World, s: Step): World
    requires Enabled(w, s)
  {
    match s
    case AcceptorStep(ev) =>
      var w1 := w.(a := AcceptorOn(w.a, ev));
      if ev.AUserConfirm? then SendToInitiator(w1, ConfirmToInitiator) else w1
    case InitiatorStep(ev) =>
      var w1 := w.(i := InitiatorOn(w.i, ev));
      if ev.RelayConnected? then
        SendToAcceptor(w1, Hello(w.i.commit, w.p.initiatorIdentity, w.p.initiatorInstance))
      else if ev.IUserConfirm? then SendToAcceptor(w1, ConfirmToAcceptor)
      else w1
    case AcceptorReceives =>
      var m := w.toAcceptor[0];
      var w1 := PopToAcceptor(w, true).(a := AcceptorOn(w.a, AsAcceptorEvent(m)));
      if m.Hello? then SendToInitiator(w1, Welcome(w.a.ephPub, w.p.acceptorIdentity, w.p.acceptorInstance)) else w1
    case InitiatorReceives =>
      var m := w.toInitiator[0];
      var w1 := PopToInitiator(w, true).(i := InitiatorOn(w.i, AsInitiatorEvent(m)));
      if m.Welcome? then SendToAcceptor(w1, Reveal(w.i.ephPub)) else w1
    case SubstituteHello(k) =>
      w.(toAcceptor := [w.toAcceptor[0].(commit := CommitOf(k))] + w.toAcceptor[1..],
         adversaryKeys := w.adversaryKeys + {k}, hello := Flying(CommitOf(k)))
    case SubstituteWelcome(k) =>
      w.(toInitiator := [w.toInitiator[0].(eph := k)] + w.toInitiator[1..],
         adversaryKeys := w.adversaryKeys + {k}, welcome := Flying(k))
    case SubstituteReveal(k) =>
      w.(toAcceptor := [Reveal(k)] + w.toAcceptor[1..],
         adversaryKeys := w.adversaryKeys + {k}, revealed := Flying(k))
    case DropToAcceptor => PopToAcceptor(w, false)
    case DropToInitiator => PopToInitiator(w, false)
  }

  // ------------------------------------------------------------------
  // The invariant
  // ------------------------------------------------------------------

  predicate SameKindA(m: ToAcceptor, n: ToAcceptor) {
    (m.Hello? && n.Hello?) || (m.Reveal? && n.Reveal?)
  }

  /** Channels carry each kind at most once, and what they carry is what is recorded as flying. */
  ghost predicate Channels(w: World) {
    && (forall x, y :: 0 <= x < y < |w.toAcceptor| ==> !SameKindA(w.toAcceptor[x], w.toAcceptor[y]))
    && (forall x, y :: 0 <= x < y < |w.toInitiator| ==> !(w.toInitiator[x].Welcome? && w.toInitiator[y].Welcome?))
    && (forall m :: m in w.toAcceptor && m.Hello? ==>
          w.hello == Flying(m.commit) && m.commit != NoCommit && m.instance == w.p.initiatorInstance)
    && (forall m :: m in w.toAcceptor && m.Reveal? ==> w.revealed == Flying(m.eph) && m.eph != NoKey)
    && (forall m :: m in w.toInitiator && m.Welcome? ==>
          w.welcome == Flying(m.eph) && m.eph != NoKey && m.instance == w.p.acceptorInstance)
  }

  predicate BeforeHello(s: AcceptorState) {
    s.AIdle? || s.AGeneratingEphemeral? || s.ARegisteringRelay? || s.AWaitingForHello?
  }

  predicate AcceptorOk(w: World) {
    var a := w.a;
    && (a.ephPub == if a.state.AIdle? then NoKey else w.p.acceptorKey)
    && (BeforeHello(a.state) ==> a.receivedCommit == NoCommit && w.welcome == Unsent)
    && (!BeforeHello(a.state) ==> w.hello == Taken(a.receivedCommit) && a.receivedInstance == w.p.initiatorInstance)
    && (BeforeHello(a.state) || a.state.AWaitingForReveal? ==> a.receivedEphPub == NoKey && a.code == NoCode && !a.userConfirmed)
    && (a.receivedEphPub != NoKey ==> w.revealed == Taken(a.receivedEphPub))
    && (!BeforeHello(a.state) && !a.state.AWaitingForReveal? && !a.state.AAborted? ==> a.receivedEphPub != NoKey)
    && (a.commitOk ==> a.receivedEphPub != NoKey && a.receivedCommit == CommitOf(a.receivedEphPub))
    && (a.code != NoCode ==> a.commitOk && a.code == DeriveCode(w.p.acceptorKey, a.receivedEphPub))
    && (a.state.AAwaitingPeerConfirm? || a.state.APaired? ==> a.userConfirmed)
  }

  predicate BeforeConnect(s: InitiatorState) {
    s.IIdle? || s.IDecodingToken? || s.IGeneratingEphemeral? || s.IConnectingRelay?
  }

  predicate InitiatorOk(w: World) {
    var i := w.i;
    && (i.ephPub == if i.state.IIdle? || i.state.IDecodingToken? then NoKey else w.p.initiatorKey)
    && (i.ephPub != NoKey ==> i.commit == CommitOf(i.ephPub))
    && (BeforeConnect(i.state) ==> w.hello == Unsent)
    && (BeforeConnect(i.state) || i.state.IAwaitingWelcome? ==>
          w.revealed == Unsent && i.receivedEphPub == NoKey && i.code == NoCode)
    && (!BeforeConnect(i.state) && !i.state.IAwaitingWelcome? ==>
          i.receivedEphPub != NoKey && w.welcome == Taken(i.receivedEphPub) && i.receivedInstance == w.p.acceptorInstance)
    && (i.state.IRevealing? ==> i.code == NoCode)
    && (i.code != NoCode ==> i.code == DeriveCode(w.p.initiatorKey, i.receivedEphPub))
    && (i.userConfirmed ==> i.state.IAwaitingPeerConfirm? || i.state.IPaired? || i.state.IAborted?)
    && (i.state.IAwaitingPeerConfirm? || i.state.IPaired? ==> i.userConfirmed)
  }

  /** A slot whose message was replaced or lost; it can never again deliver the honest value. */
  predicate Spoiled<T(==)>(s: Slot<T>, honest: T) {
    s == Lost || ((s.Flying? || s.Taken?) && s.v != honest)
  }

  predicate Tainted(w: World) {
    || Spoiled(w.hello, CommitOf(w.p.initiatorKey))
    || Spoiled(w.welcome, w.p.acceptorKey)
    || Spoiled(w.revealed, w.p.initiatorKey)
  }

  predicate Honest<T(==)>(s: Slot<T>, honest: T) {
    s.Flying? || s.Taken? ==> s.v == honest
  }

  predicate Interference(w: World) {
    && (w.adversaryKeys != {} ==> Tainted(w))
    && (w.adversaryKeys == {} ==>
          && Honest(w.hello, CommitOf(w.p.initiatorKey))
          && Honest(w.welcome, w.p.acceptorKey) && Honest(w.revealed, w.p.initiatorKey))
  }

  ghost predicate Inv(w: World) {
    Distinct(w.p) && Channels(w) && AcceptorOk(w) && InitiatorOk(w) && Interference(w)
  }
}
