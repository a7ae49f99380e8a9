/** What every run of the ceremony keeps, whatever the relay replaces or drops. */
module PairingRuns {
  import opened Pairing

  lemma ChannelsAcceptorStep(w: World, ev: AcceptorEvent)
    requires Inv(w) && Enabled(w, AcceptorStep(ev))
    ensures Channels(Do(w, AcceptorStep(ev)))
  {
  }

  lemma AcceptorOkAcceptorStep(w: World, ev: AcceptorEvent)
    requires AcceptorOk(w) && Distinct(w.p) && Enabled(w, AcceptorStep(ev))
    ensures AcceptorOk(Do(w, AcceptorStep(ev)))
  {
  }

  lemma InitiatorOkAcceptorStep(w: World, ev: AcceptorEvent)
    requires Inv(w) && Enabled(w, AcceptorStep(ev))
    ensures InitiatorOk(Do(w, AcceptorStep(ev)))
  {
  }

  lemma InterferenceAcceptorStep(w: World, ev: AcceptorEvent)
    requires Inv(w) && Enabled(w, AcceptorStep(ev))
    ensures Interference(Do(w, AcceptorStep(ev)))
  {
  }

  lemma InvAcceptorStep(w: World, ev: AcceptorEvent)
    requires Inv(w) && Enabled(w, AcceptorStep(ev))
    ensures Inv(Do(w, AcceptorStep(ev)))
  {
    ChannelsAcceptorStep(w, ev);
    AcceptorOkAcceptorStep(w, ev);
    InitiatorOkAcceptorStep(w, ev);
    InterferenceAcceptorStep(w, ev);
  }

  lemma ChannelsInitiatorStep(w: World, ev: InitiatorEvent)
    requires Inv(w) && Enabled(w, InitiatorStep(ev))
    ensures Channels(Do(w, InitiatorStep(ev)))
  {
  }

  lemma AcceptorOkInitiatorStep(w: World, ev: InitiatorEvent)
    requires Inv(w) && Enabled(w, InitiatorStep(ev))
    ensures AcceptorOk(Do(w, InitiatorStep(ev)))
  {
  }

  lemma InitiatorOkInitiatorStep(w: World, ev: InitiatorEvent)
    requires InitiatorOk(w) && Distinct(w.p) && Enabled(w, InitiatorStep(ev))
    ensures InitiatorOk(Do(w, InitiatorStep(ev)))
  {
  }

  lemma InterferenceInitiatorStep(w: World, ev: InitiatorEvent)
    requires Inv(w) && Enabled(w, InitiatorStep(ev))
    ensures Interference(Do(w, InitiatorStep(ev)))
  {
  }

  lemma InvInitiatorStep(w: World, ev: InitiatorEvent)
    requires Inv(w) && Enabled(w, InitiatorStep(ev))
    ensures Inv(Do(w, InitiatorStep(ev)))
  {
    ChannelsInitiatorStep(w, ev);
    AcceptorOkInitiatorStep(w, ev);
    InitiatorOkInitiatorStep(w, ev);
    InterferenceInitiatorStep(w, ev);
  }

  lemma TailIsIn<T>(q: seq<T>)
    requires q != []
    ensures forall m :: m in q[1..] ==> m in q
  {
  }

  lemma ChannelsAcceptorReceives(w: World)
    requires Inv(w) && Enabled(w, AcceptorReceives)
    ensures Channels(Do(w, AcceptorReceives))
  {
    TailIsIn(w.toAcceptor);
    assert w.toAcceptor[0] in w.toAcceptor;
  }

  lemma AcceptorTakesHello(w: World)
    requires AcceptorOk(w) && Distinct(w.p) && Enabled(w, AcceptorReceives) && w.toAcceptor[0].Hello?
    requires w.toAcceptor[0].instance == w.p.initiatorInstance
    ensures AcceptorOk(Do(w, AcceptorReceives))
  {
  }

  lemma AcceptorTakesLater(w: World)
    requires AcceptorOk(w) && Distinct(w.p) && Enabled(w, AcceptorReceives) && !w.toAcceptor[0].Hello?
    requires w.toAcceptor[0].Reveal? ==> w.toAcceptor[0].eph != NoKey
    ensures AcceptorOk(Do(w, AcceptorReceives))
  {
  }

  lemma AcceptorOkAcceptorReceives(w: World)
    requires Inv(w) && Enabled(w, AcceptorReceives)
    ensures AcceptorOk(Do(w, AcceptorReceives))
  {
    assert w.toAcceptor[0] in w.toAcceptor;
    if w.toAcceptor[0].Hello? { AcceptorTakesHello(w); } else { AcceptorTakesLater(w); }
  }

  lemma InitiatorOkAcceptorReceives(w: World)
    requires Inv(w) && Enabled(w, AcceptorReceives)
    ensures InitiatorOk(Do(w, AcceptorReceives))
  {
    TailIsIn(w.toAcceptor);
    assert w.toAcceptor[0] in w.toAcceptor;
  }

  lemma InterferenceAcceptorReceives(w: World)
    requires Inv(w) && Enabled(w, AcceptorReceives)
    ensures Interference(Do(w, AcceptorReceives))
  {
    TailIsIn(w.toAcceptor);
    assert w.toAcceptor[0] in w.toAcceptor;
  }

  lemma InvAcceptorReceives(w: World)
    requires Inv(w) && Enabled(w, AcceptorReceives)
    ensures Inv(Do(w, AcceptorReceives))
  {
    ChannelsAcceptorReceives(w);
    AcceptorOkAcceptorReceives(w);
    InitiatorOkAcceptorReceives(w);
    InterferenceAcceptorReceives(w);
  }

  lemma ChannelsInitiatorReceives(w: World)
    requires Inv(w) && Enabled(w, InitiatorReceives)
    ensures Channels(Do(w, InitiatorReceives))
  {
    TailIsIn(w.toInitiator);
    assert w.toInitiator[0] in w.toInitiator;
  }

  lemma AcceptorOkInitiatorReceives(w: World)
    requires Inv(w) && Enabled(w, InitiatorReceives)
    ensures AcceptorOk(Do(w, InitiatorReceives))
  {
    TailIsIn(w.toInitiator);
    assert w.toInitiator[0] in w.toInitiator;
  }

  lemma InitiatorOkInitiatorReceives(w: World)
    requires Inv(w) && Enabled(w, InitiatorReceives)
    ensures InitiatorOk(Do(w, InitiatorReceives))
  {
    TailIsIn(w.toInitiator);
    assert w.toInitiator[0] in w.toInitiator;
  }

  lemma InterferenceInitiatorReceives(w: World)
    requires Inv(w) && Enabled(w, InitiatorReceives)
    ensures Interference(Do(w, InitiatorReceives))
  {
    TailIsIn(w.toInitiator);
    assert w.toInitiator[0] in w.toInitiator;
  }

  lemma InvInitiatorReceives(w: World)
    requires Inv(w) && Enabled(w, InitiatorReceives)
    ensures Inv(Do(w, InitiatorReceives))
  {
    ChannelsInitiatorReceives(w);
    AcceptorOkInitiatorReceives(w);
    InitiatorOkInitiatorReceives(w);
    InterferenceInitiatorReceives(w);
  }

  lemma ChannelsSubstitute(w: World, s: Step)
    requires Inv(w) && Enabled(w, s) && (s.SubstituteHello? || s.SubstituteReveal?)
    ensures Channels(Do(w, s))
  {
    TailIsIn(w.toAcceptor);
    assert w.toAcceptor[0] in w.toAcceptor;
  }

  lemma InvSubstitute(w: World, s: Step)
    requires Inv(w) && Enabled(w, s) && (s.SubstituteHello? || s.SubstituteReveal?)
    ensures Inv(Do(w, s))
  {
    ChannelsSubstitute(w, s);
    assert w.toAcceptor[0] in w.toAcceptor;
  }

  lemma InvSubstituteWelcome(w: World, k: Key)
    requires Inv(w) && Enabled(w, SubstituteWelcome(k))
    ensures Inv(Do(w, SubstituteWelcome(k)))
  {
    assert w.toInitiator[0] in w.toInitiator;
    TailIsIn(w.toInitiator);
  }

  lemma InvDrop(w: World, s: Step)
    requires Inv(w) && Enabled(w, s) && (s.DropToAcceptor? || s.DropToInitiator?)
    ensures Inv(Do(w, s))
  {
    if s.DropToAcceptor? { assert w.toAcceptor[0] in w.toAcceptor; } else { assert w.toInitiator[0] in w.toInitiator; }
  }

  lemma InvStep(w: World, s: Step)
    requires Inv(w) && Enabled(w, s)
    ensures Inv(Do(w, s))
  {
    match s
    case AcceptorStep(ev) => InvAcceptorStep(w, ev);
    case InitiatorStep(ev) => InvInitiatorStep(w, ev);
    case AcceptorReceives => InvAcceptorReceives(w);
    case InitiatorReceives => InvInitiatorReceives(w);
    case SubstituteHello(_) => InvSubstitute(w, s);
    case SubstituteWelcome(k) => InvSubstituteWelcome(w, k);
    case SubstituteReveal(_) => InvSubstitute(w, s);
    case DropToAcceptor => InvDrop(w, s);
    case DropToInitiator => InvDrop(w, s);
  }

  /** A run of the ceremony with any number of substitutions and losses. */
  ghost predicate Run(ws: seq<World>, steps: seq<Step>) {
    && |ws| == |steps| + 1 && Init(ws[0])
    && (forall i :: 0 <= i < |steps| ==> StepAt(ws, steps, i))
  }

  ghost predicate StepAt(ws: seq<World>, steps: seq<Step>, i: int)
    requires |ws| == |steps| + 1 && 0 <= i < |steps|
  {
    Enabled(ws[i], steps[i]) && ws[i + 1] == Do(ws[i], steps[i])
  }

  lemma InitInv(w: World)
    requires Init(w)
    ensures Inv(w)
  {
  }

  lemma InvAt(ws: seq<World>, steps: seq<Step>, j: nat)
    requires |ws| == |steps| + 1 && 0 < j < |ws| && StepAt(ws, steps, j - 1) && Inv(ws[j - 1])
    ensures Inv(ws[j])
  {
    InvStep(ws[j - 1], steps[j - 1]);
  }

  lemma {:induction false} RunInv(ws: seq<World>, steps: seq<Step>, j: nat)
    requires Run(ws, steps) && j < |ws|
    ensures Inv(ws[j])
  {
    if j == 0 {
      InitInv(ws[0]);
    } else {
      RunInv(ws, steps, j - 1);
      InvAt(ws, steps, j);
    }
  }

  /** When both sides show a code, the codes agree exactly when nothing was substituted. */
  lemma CodesAgreeIffUntouched(ws: seq<World>, steps: seq<Step>, j: nat)
    requires Run(ws, steps) && j < |ws| && ws[j].a.code != NoCode && ws[j].i.code != NoCode
    ensures ws[j].a.code == ws[j].i.code <==> ws[j].adversaryKeys == {}
  {
    RunInv(ws, steps, j);
    var w := ws[j];
    CodesArePairs(w.p.acceptorKey, w.a.receivedEphPub, w.p.initiatorKey, w.i.receivedEphPub);
  }

  /** Equal codes mean each side holds the other's real ephemeral key, and conversely. */
  lemma EqualCodesMeanRealKeys(ws: seq<World>, steps: seq<Step>, j: nat)
    requires Run(ws, steps) && j < |ws| && ws[j].a.code != NoCode && ws[j].i.code != NoCode
    ensures ws[j].a.code == ws[j].i.code <==>
              ws[j].a.receivedEphPub == ws[j].p.initiatorKey && ws[j].i.receivedEphPub == ws[j].p.acceptorKey
  {
    RunInv(ws, steps, j);
    var w := ws[j];
    CodesArePairs(w.p.acceptorKey, w.a.receivedEphPub, w.p.initiatorKey, w.i.receivedEphPub);
  }

  /** The acceptor has a code only if the revealed key opened the commit it stored from hello. */
  lemma CodeNeedsCommit(ws: seq<World>, steps: seq<Step>, j: nat)
    requires Run(ws, steps) && j < |ws|
    ensures ws[j].a.code != NoCode ==> ws[j].a.commitOk
    ensures ws[j].a.commitOk ==> ws[j].a.receivedCommit == CommitOf(ws[j].a.receivedEphPub)
  {
    RunInv(ws, steps, j);
  }

  predicate CodesMatch(w: World) { w.a.code != NoCode && w.a.code == w.i.code }

  /** The humans confirm only after comparing two displayed codes and finding them equal. */
  ghost predicate HumanRule(ws: seq<World>, steps: seq<Step>)
    requires |ws| == |steps| + 1
  {
    forall k :: 0 <= k < |steps| && (steps[k] == AcceptorStep(AUserConfirm) || steps[k] == InitiatorStep(IUserConfirm)) ==>
      CodesMatch(ws[k])
  }

  /** A code, once shown, is never replaced. */
  lemma CodesStay(w: World, s: Step)
    requires AcceptorOk(w) && InitiatorOk(w) && Enabled(w, s)
    ensures w.a.code != NoCode ==> Do(w, s).a.code == w.a.code
    ensures w.i.code != NoCode ==> Do(w, s).i.code == w.i.code
  {
    if s.AcceptorStep? || s.AcceptorReceives? { AcceptorCodeStays(w, s); }
    else if s.InitiatorStep? || s.InitiatorReceives? { InitiatorCodeStays(w, s); }
  }

  lemma AcceptorCodeStays(w: World, s: Step)
    requires AcceptorOk(w) && Enabled(w, s) && (s.AcceptorStep? || s.AcceptorReceives?)
    ensures w.a.code != NoCode ==> Do(w, s).a.code == w.a.code
    ensures Do(w, s).i == w.i
  {
  }

  lemma InitiatorCodeStays(w: World, s: Step)
    requires InitiatorOk(w) && Enabled(w, s) && (s.InitiatorStep? || s.InitiatorReceives?)
    ensures w.i.code != NoCode ==> Do(w, s).i.code == w.i.code
    ensures Do(w, s).a == w.a
  {
  }

  lemma ConfirmedStep(w: World, s: Step)
    requires AcceptorOk(w) && InitiatorOk(w) && Enabled(w, s)
    requires w.a.userConfirmed || w.i.userConfirmed ==> CodesMatch(w)
    requires s == AcceptorStep(AUserConfirm) || s == InitiatorStep(IUserConfirm) ==> CodesMatch(w)
    ensures Do(w, s).a.userConfirmed || Do(w, s).i.userConfirmed ==> CodesMatch(Do(w, s))
  {
    CodesStay(w, s);
  }

  predicate ConfirmedMatch(w: World) { w.a.userConfirmed || w.i.userConfirmed ==> CodesMatch(w) }

  lemma ConfirmedAt(ws: seq<World>, steps: seq<Step>, j: nat)
    requires |ws| == |steps| + 1 && 0 < j < |ws| && StepAt(ws, steps, j - 1) && Inv(ws[j - 1]) && HumanRule(ws, steps)
    requires ConfirmedMatch(ws[j - 1])
    ensures ConfirmedMatch(ws[j])
  {
    ConfirmedStep(ws[j - 1], steps[j - 1]);
  }

  lemma {:induction false} ConfirmedMeansMatch(ws: seq<World>, steps: seq<Step>, j: nat)
    requires Run(ws, steps) && HumanRule(ws, steps) && j < |ws|
    ensures ConfirmedMatch(ws[j])
  {
    if j > 0 {
      ConfirmedMeansMatch(ws, steps, j - 1);
      RunInv(ws, steps, j - 1);
      ConfirmedAt(ws, steps, j);
    }
  }

  /** Under the human rule, either side being Paired already means both hold each other's real key. */
  lemma PairedMeansRealKeys(ws: seq<World>, steps: seq<Step>, j: nat)
    requires Run(ws, steps) && HumanRule(ws, steps) && j < |ws|
    requires ws[j].a.state.APaired? || ws[j].i.state.IPaired?
    ensures ws[j].a.receivedEphPub == ws[j].p.initiatorKey && ws[j].i.receivedEphPub == ws[j].p.acceptorKey
    ensures ws[j].adversaryKeys == {}
  {
    RunInv(ws, steps, j);
    ConfirmedMeansMatch(ws, steps, j);
    EqualCodesMeanRealKeys(ws, steps, j);
    CodesAgreeIffUntouched(ws, steps, j);
  }

  /** Some run ends in `w`; a careful one obeys the human rule. */
  ghost predicate Reachable(w: World, careful: bool) {
    exists ws, steps :: Run(ws, steps) && (careful ==> HumanRule(ws, steps)) && ws[|steps|] == w
  }

  lemma Advance(w: World, s: Step, careful: bool) returns (w': World)
    requires Reachable(w, careful) && Enabled(w, s)
    requires careful && (s == AcceptorStep(AUserConfirm) || s == InitiatorStep(IUserConfirm)) ==> CodesMatch(w)
    ensures w' == Do(w, s) && Reachable(w', careful)
  {
    var ws, steps :| Run(ws, steps) && (careful ==> HumanRule(ws, steps)) && ws[|steps|] == w;
    w' := Do(w, s);
    var ws', steps' := ws + [w'], steps + [s];
    forall i | 0 <= i < |steps'| ensures StepAt(ws', steps', i) {
      if i < |steps| { assert StepAt(ws, steps, i); }
    }
    assert Run(ws', steps') && (careful ==> HumanRule(ws', steps'));
  }

  /** Both sides ready, the honest hello under way. */
  function HelloSent(p: Parties): World {
    World(p,
      NEW_ACCEPTOR.(state := AWaitingForHello, ephPub := p.acceptorKey),
      NEW_INITIATOR.(state := IAwaitingWelcome, ephPub := p.initiatorKey, commit := CommitOf(p.initiatorKey),
        tokenEphPub := p.acceptorKey, tokenIdentity := p.acceptorIdentity, tokenInstance := p.acceptorInstance),
      [Hello(CommitOf(p.initiatorKey), p.initiatorIdentity, p.initiatorInstance)], [], {},
      Flying(CommitOf(p.initiatorKey)), Unsent, Unsent)
  }

  predicate BothShowCodes(w: World) {
    && w.a.state.AAwaitingUserConfirm? && w.i.state.IAwaitingUserConfirm?
    && w.toAcceptor == [] && w.toInitiator == [] && CodesMatch(w)
  }

  lemma HonestAcceptorReady(p: Parties, careful: bool) returns (w: World)
    requires Distinct(p)
    ensures Reachable(w, careful)
    ensures w == World(p, NEW_ACCEPTOR.(state := AWaitingForHello, ephPub := p.acceptorKey), NEW_INITIATOR,
                       [], [], {}, Unsent, Unsent, Unsent)
  {
    w := World(p, NEW_ACCEPTOR, NEW_INITIATOR, [], [], {}, Unsent, Unsent, Unsent);
    assert Run([w], []) && HumanRule([w], []);
    w := Advance(w, AcceptorStep(PairBegin(p.acceptorKey)), careful);
    w := Advance(w, AcceptorStep(AEphemeralReady), careful);
    w := Advance(w, AcceptorStep(RelayRegistered), careful);
  }

  lemma HonestToken(p: Parties, careful: bool) returns (w: World)
    requires Distinct(p)
    ensures Reachable(w, careful) && w == HelloSent(p).(
              i := HelloSent(p).i.(state := IGeneratingEphemeral), toAcceptor := [], hello := Unsent)
  {
    w := HonestAcceptorReady(p, careful);
    w := Advance(w, InitiatorStep(TokenReceived(p.acceptorKey, p.acceptorIdentity, p.acceptorInstance)), careful);
    w := Advance(w, InitiatorStep(TokenDecoded(p.initiatorKey)), careful);
  }

  lemma HonestHello(p: Parties, careful: bool)
    requires Distinct(p)
    ensures Reachable(HelloSent(p), careful)
  {
    var w := HonestToken(p, careful);
    w := Advance(w, InitiatorStep(IEphemeralReady), careful);
    w := Advance(w, InitiatorStep(RelayConnected), careful);
  }

  lemma HonestWelcome(p: Parties, careful: bool) returns (w: World)
    requires Distinct(p)
    ensures Reachable(w, careful) && w.p == p && w.toAcceptor == [] && w.i == HelloSent(p).i
    ensures w.toInitiator == [Welcome(p.acceptorKey, p.acceptorIdentity, p.acceptorInstance)]
    ensures w.a.state.AWaitingForReveal? && w.a.ephPub == p.acceptorKey && w.a.receivedCommit == CommitOf(p.initiatorKey)
  {
    HonestHello(p, careful);
    w := Advance(HelloSent(p), AcceptorReceives, careful);
  }

  lemma HonestReveal(p: Parties, careful: bool) returns (w: World)
    requires Distinct(p)
    ensures Reachable(w, careful) && w.p == p && w.toAcceptor == [] && w.toInitiator == []
    ensures w.a.state.ADerivingCode? && w.a.code == DeriveCode(p.acceptorKey, p.initiatorKey)
    ensures w.i.state.IRevealing? && w.i.ephPub == p.initiatorKey && w.i.receivedEphPub == p.acceptorKey
  {
    w := HonestWelcome(p, careful);
    w := Advance(w, InitiatorReceives, careful);
    w := Advance(w, AcceptorReceives, careful);
  }

  lemma HonestExchange(p: Parties, careful: bool) returns (w: World)
    requires Distinct(p)
    ensures Reachable(w, careful) && BothShowCodes(w) && w.p == p
  {
    w := HonestReveal(p, careful);
    w := Advance(w, InitiatorStep(RevealSent), careful);
    w := Advance(w, InitiatorStep(ICodeReady), careful);
    w := Advance(w, AcceptorStep(ACodeReady), careful);
  }

  /** With an idle relay and two users who confirm matching codes, both sides can reach Paired. */
  lemma HonestCeremonyCompletes(p: Parties) returns (w: World)
    requires Distinct(p)
    ensures Reachable(w, true) && w.p == p && w.a.state.APaired? && w.i.state.IPaired?
  {
    w := HonestExchange(p, true);
    w := Advance(w, InitiatorStep(IUserConfirm), true);
    w := Advance(w, AcceptorStep(AUserConfirm), true);
    w := Advance(w, AcceptorReceives, true);
    w := Advance(w, InitiatorReceives, true);
  }

  predicate BothConfirming(w: World) {
    && w.a.state.AAwaitingUserConfirm? && w.i.state.IAwaitingUserConfirm?
    && w.toAcceptor == [] && w.toInitiator == []
    && w.a.code != NoCode && w.i.code != NoCode && w.a.code != w.i.code
  }

  lemma SplitReveal(p: Parties, k: Key) returns (w: World)
    requires Distinct(p) && k != p.acceptorKey && k != NoKey
    ensures Reachable(w, false) && w.p == p && w.toAcceptor == [] && w.toInitiator == [] && k in w.adversaryKeys
    ensures w.a.state.ADerivingCode? && w.a.code == DeriveCode(p.acceptorKey, p.initiatorKey)
    ensures w.i.state.IRevealing? && w.i.ephPub == p.initiatorKey && w.i.receivedEphPub == k
  {
    w := HonestWelcome(p, false);
    w := Advance(w, SubstituteWelcome(k), false);
    w := Advance(w, InitiatorReceives, false);
    w := Advance(w, AcceptorReceives, false);
  }

  lemma SplitExchange(p: Parties, k: Key) returns (w: World)
    requires Distinct(p) && k != p.acceptorKey && k != NoKey
    ensures Reachable(w, false) && BothConfirming(w) && w.p == p && k in w.adversaryKeys
  {
    w := SplitReveal(p, k);
    CodesArePairs(p.acceptorKey, p.initiatorKey, p.initiatorKey, k);
    w := Advance(w, InitiatorStep(RevealSent), false);
    w := Advance(w, InitiatorStep(ICodeReady), false);
    w := Advance(w, AcceptorStep(ACodeReady), false);
  }

  /**
   The machines alone do not stop users who confirm without comparing: for any
   substituted welcome key both sides can reach Paired with different codes.
   */
  lemma BlindConfirmationPairs(p: Parties, k: Key) returns (w: World)
    requires Distinct(p) && k != p.acceptorKey && k != NoKey
    ensures Reachable(w, false) && w.a.state.APaired? && w.i.state.IPaired?
    ensures w.a.code != w.i.code && k in w.adversaryKeys
  {
    w := SplitExchange(p, k);
    w := Advance(w, InitiatorStep(IUserConfirm), false);
    w := Advance(w, AcceptorStep(AUserConfirm), false);
    w := Advance(w, AcceptorReceives, false);
    w := Advance(w, InitiatorReceives, false);
  }
}
