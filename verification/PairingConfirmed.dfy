/**
 When two Paired sides are really paired with each other. The machines do not
 compare codes, so the answer lies in what the two users saw when they confirmed.
 */
module PairingConfirmed {
  import opened Pairing
  import opened PairingRuns

  predicate PastReveal(s: AcceptorState) {
    s.ADerivingCode? || s.AAwaitingUserConfirm? || s.AAwaitingPeerConfirm? || s.APaired?
  }

  predicate PastDerive(s: InitiatorState) {
    s.IDerivingCode? || s.IAwaitingUserConfirm? || s.IAwaitingPeerConfirm? || s.IPaired?
  }

  /** Past the reveal the acceptor's code is that of its keys if the commit opened, and none otherwise. */
  predicate AcceptorShows(w: World) {
    PastReveal(w.a.state) ==>
      w.a.code == if w.a.receivedCommit == CommitOf(w.a.receivedEphPub)
                  then DeriveCode(w.p.acceptorKey, w.a.receivedEphPub) else NoCode
  }

  predicate InitiatorShows(w: World) {
    PastDerive(w.i.state) ==> w.i.code == DeriveCode(w.p.initiatorKey, w.i.receivedEphPub)
  }

  lemma AcceptorShowsStep(w: World, s: Step)
    requires AcceptorOk(w) && Enabled(w, s) && AcceptorShows(w)
    ensures AcceptorShows(Do(w, s))
  {
    if s.AcceptorStep? || s.AcceptorReceives? { AcceptorShowsOwn(w, s); }
  }

  lemma AcceptorShowsOwn(w: World, s: Step)
    requires AcceptorOk(w) && Enabled(w, s) && AcceptorShows(w) && (s.AcceptorStep? || s.AcceptorReceives?)
    ensures AcceptorShows(Do(w, s))
  {
  }

  lemma InitiatorShowsStep(w: World, s: Step)
    requires InitiatorOk(w) && Enabled(w, s) && InitiatorShows(w)
    ensures InitiatorShows(Do(w, s))
  {
    if s.InitiatorStep? || s.InitiatorReceives? { InitiatorShowsOwn(w, s); }
  }

  lemma InitiatorShowsOwn(w: World, s: Step)
    requires InitiatorOk(w) && Enabled(w, s) && InitiatorShows(w) && (s.InitiatorStep? || s.InitiatorReceives?)
    ensures InitiatorShows(Do(w, s))
  {
  }

  lemma {:induction false} RunShows(ws: seq<World>, steps: seq<Step>, j: nat)
    requires Run(ws, steps) && j < |ws|
    ensures AcceptorShows(ws[j]) && InitiatorShows(ws[j])
  {
    if j > 0 {
      RunShows(ws, steps, j - 1);
      RunInv(ws, steps, j - 1);
      ShowsAt(ws, steps, j - 1);
    }
  }

  lemma ShowsAt(ws: seq<World>, steps: seq<Step>, j: nat)
    requires |ws| == |steps| + 1 && j < |steps| && StepAt(ws, steps, j) && Inv(ws[j])
    requires AcceptorShows(ws[j]) && InitiatorShows(ws[j])
    ensures AcceptorShows(ws[j + 1]) && InitiatorShows(ws[j + 1])
  {
    AcceptorShowsStep(ws[j], steps[j]);
    InitiatorShowsStep(ws[j], steps[j]);
  }

  /** A shown code is final; so is being past the point where it is shown, unless the ceremony aborts. */
  predicate AcceptorFinal(w: World, w': World) {
    PastReveal(w.a.state) || w.a.state.AAborted? ==>
      w'.a.code == w.a.code && (PastReveal(w'.a.state) || w'.a.state.AAborted?)
  }

  predicate InitiatorFinal(w: World, w': World) {
    PastDerive(w.i.state) || w.i.state.IAborted? ==>
      w'.i.code == w.i.code && (PastDerive(w'.i.state) || w'.i.state.IAborted?)
  }

  lemma StaysPast(w: World, s: Step)
    requires Enabled(w, s)
    ensures AcceptorFinal(w, Do(w, s)) && InitiatorFinal(w, Do(w, s))
  {
    if s.AcceptorStep? || s.AcceptorReceives? { AcceptorStaysPast(w, s); }
    else if s.InitiatorStep? || s.InitiatorReceives? { InitiatorStaysPast(w, s); }
  }

  lemma AcceptorStaysPast(w: World, s: Step)
    requires Enabled(w, s) && (s.AcceptorStep? || s.AcceptorReceives?)
    ensures AcceptorFinal(w, Do(w, s)) && Do(w, s).i == w.i
  {
  }

  lemma InitiatorStaysPast(w: World, s: Step)
    requires Enabled(w, s) && (s.InitiatorStep? || s.InitiatorReceives?)
    ensures InitiatorFinal(w, Do(w, s)) && Do(w, s).a == w.a
  {
  }

  /** What a side shows from the display of its code on is what it shows for good. */
  lemma {:induction false} ShownCodesAreFinal(ws: seq<World>, steps: seq<Step>, k: nat, j: nat)
    requires Run(ws, steps) && k <= j < |ws|
    ensures AcceptorFinal(ws[k], ws[j]) && InitiatorFinal(ws[k], ws[j])
    decreases j
  {
    if k < j {
      ShownCodesAreFinal(ws, steps, k, j - 1);
      assert StepAt(ws, steps, j - 1);
      StaysPast(ws[j - 1], steps[j - 1]);
    }
  }

  /** The codes shown at the end agree exactly when nothing was substituted. */
  lemma PairedCodes(w: World)
    requires Inv(w) && AcceptorShows(w) && InitiatorShows(w) && w.a.state.APaired? && w.i.state.IPaired?
    ensures w.a.code != NoCode && w.a.code == w.i.code <==> w.adversaryKeys == {}
  {
    CodesArePairs(w.p.acceptorKey, w.a.receivedEphPub, w.p.initiatorKey, w.i.receivedEphPub);
  }

  /**
   Both sides Paired: the code the acceptor's user saw when confirming is a code and is the
   one the initiator's user saw when confirming, exactly if nothing was ever substituted.
   */
  lemma PairingIsGenuineIff(ws: seq<World>, steps: seq<Step>, j: nat, k: nat, l: nat)
    requires Run(ws, steps) && j < |ws| && ws[j].a.state.APaired? && ws[j].i.state.IPaired?
    requires k < j && l < j && steps[k] == AcceptorStep(AUserConfirm) && steps[l] == InitiatorStep(IUserConfirm)
    ensures ws[k].a.code != NoCode && ws[k].a.code == ws[l].i.code <==> ws[j].adversaryKeys == {}
  {
    assert StepAt(ws, steps, k) && StepAt(ws, steps, l);
    ShownCodesAreFinal(ws, steps, k, j);
    ShownCodesAreFinal(ws, steps, l, j);
    RunInv(ws, steps, j);
    RunShows(ws, steps, j);
    PairedCodes(ws[j]);
  }

  /** Both confirmations are there in every run that ends Paired on both sides. */
  lemma {:induction false} AcceptorConfirmed(ws: seq<World>, steps: seq<Step>, j: nat) returns (k: nat)
    requires Run(ws, steps) && j < |ws| && ws[j].a.userConfirmed
    ensures k < j && steps[k] == AcceptorStep(AUserConfirm)
  {
    assert StepAt(ws, steps, j - 1);
    if steps[j - 1] == AcceptorStep(AUserConfirm) { return j - 1; }
    AcceptorUnconfirmed(ws[j - 1], steps[j - 1]);
    k := AcceptorConfirmed(ws, steps, j - 1);
  }

  lemma AcceptorUnconfirmed(w: World, s: Step)
    requires Enabled(w, s) && s != AcceptorStep(AUserConfirm)
    ensures Do(w, s).a.userConfirmed == w.a.userConfirmed
  {
  }

  lemma {:induction false} InitiatorConfirmed(ws: seq<World>, steps: seq<Step>, j: nat) returns (k: nat)
    requires Run(ws, steps) && j < |ws| && ws[j].i.userConfirmed
    ensures k < j && steps[k] == InitiatorStep(IUserConfirm)
  {
    assert StepAt(ws, steps, j - 1);
    if steps[j - 1] == InitiatorStep(IUserConfirm) { return j - 1; }
    InitiatorUnconfirmed(ws[j - 1], steps[j - 1]);
    k := InitiatorConfirmed(ws, steps, j - 1);
  }

  lemma InitiatorUnconfirmed(w: World, s: Step)
    requires Enabled(w, s) && s != InitiatorStep(IUserConfirm)
    ensures Do(w, s).i.userConfirmed == w.i.userConfirmed
  {
  }

  /** What the two users saw when they confirmed decides it, and both did confirm. */
  lemma PairedRunsAreDecided(ws: seq<World>, steps: seq<Step>, j: nat) returns (k: nat, l: nat)
    requires Run(ws, steps) && j < |ws| && ws[j].a.state.APaired? && ws[j].i.state.IPaired?
    ensures k < j && l < j && steps[k] == AcceptorStep(AUserConfirm) && steps[l] == InitiatorStep(IUserConfirm)
    ensures ws[k].a.code != NoCode && ws[k].a.code == ws[l].i.code <==> ws[j].adversaryKeys == {}
    ensures ws[j].adversaryKeys == {} ==>
              ws[j].a.receivedEphPub == ws[j].p.initiatorKey && ws[j].i.receivedEphPub == ws[j].p.acceptorKey
  {
    RunInv(ws, steps, j);
    k := AcceptorConfirmed(ws, steps, j);
    l := InitiatorConfirmed(ws, steps, j);
    PairingIsGenuineIff(ws, steps, j, k, l);
  }
}
