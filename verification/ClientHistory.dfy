/**
 How the client gets where it is: every state by the edges that lead to it,
 the commands that go with each move, and what a run must have been through.
 */
module ClientHistory {
  import opened SessionCommands
  import opened ClientPath

  // ------------------------------------------------------------------
  // Edges by their target
  // ------------------------------------------------------------------

  predicate PairingEntry(from: State, ev: Event, to: State) {
    if to.ObtainBackchannelSecret? then from.Idle? && ev.BackchannelReceived?
    else if to.ConnectRelay? then from.ObtainBackchannelSecret? && ev.SecretParsed?
    else if to.GenKeyPair? then from.ConnectRelay? && ev.RelayConnectedEvent?
    else if to.WaitAck? then from.GenKeyPair? && ev.KeyPairGenerated?
    else if to.E2EReady? then from.WaitAck? && ev.RecvPairHelloAck?
    else if to.ShowCode? then from.E2EReady? && ev.RecvPairConfirm?
    else if to.WaitPairComplete? then from.ShowCode? && ev.CodeDisplayed?
    else if to.Paired? then (from.WaitPairComplete? && ev.RecvPairComplete?) || (from.RelayConnected? && ev.Disconnect?)
    else if to.Reconnect? then from.Paired? && ev.AppLaunch?
    else if to.SendAuth? then from.Reconnect? && ev.RelayConnectedEvent?
    else to.SessionActive? && from.SendAuth? && ev.RecvAuthOk?
  }

  predicate PathEntry(from: State, ev: Event, holds: set<Guard>, to: State) {
    if to.RelayConnected? then
      || (from.SessionActive? && ev.SessionEstablished?)
      || (from.PairDialing? && (ev.DialFailed? || ev.AppForceFallback?))
      || (from.PairChecking? && (ev.VerifyTimeout? || ev.AppForceFallback?))
      || (from.AltActive? && ev.AppForceFallback?)
      || (from.RelayFallback? && ev.RelayOk?)
    else if to.PairDialing? then (from.RelayConnected? || from.AltActive?) && ev.RecvCandidates? && AltEnabled in holds
    else if to.PairChecking? then from.PairDialing? && ev.DialOk?
    else if to.AltActive? then from.PairChecking? && ev.RecvPairCheckAck?
    else to.RelayFallback? && from.AltActive? && (ev.AltError? || ev.AltStreamError?)
  }

  predicate Entry(from: State, ev: Event, holds: set<Guard>, to: State) {
    if Connected(to) then PathEntry(from, ev, holds, to) else PairingEntry(from, ev, to)
  }

  /** The callback a move runs first, told by the states it joins. */
  function Duty(from: State, to: State): Action {
    if to.WaitAck? then SendPairHello
    else if to.E2EReady? then DeriveSecret
    else if to.Paired? && from.WaitPairComplete? then StoreSecret
    else if to.PairDialing? then DialCandidateAction
    else if to.AltActive? then ActivateLan
    else if from.AltActive? then FallbackToRelay
    else NoAction
  }

  predicate RowEnters(c: Client, ev: Event, holds: set<Guard>, row: Row, to: State) {
    && (row.Row? && row.after.state == to <==> Entry(c.state, ev, holds, to))
    && (row.Row? && row.after.state == to ==> row.action == Duty(c.state, to))
  }

  lemma PairingEnters(c: Client, ev: Event, holds: set<Guard>, to: State)
    requires !Connected(c.state) && to != c.state
    ensures RowEnters(c, ev, holds, PairingRow(c, ev), to)
  {
    if c.state.Idle? || c.state.ObtainBackchannelSecret? || c.state.ConnectRelay? || c.state.GenKeyPair? { OpeningEnters(c, ev, holds, to); }
    else if c.state.WaitAck? || c.state.E2EReady? || c.state.ShowCode? || c.state.WaitPairComplete? { AgreeingEnters(c, ev, holds, to); }
    else { ClosingEnters(c, ev, holds, to); }
  }

  lemma OpeningEnters(c: Client, ev: Event, holds: set<Guard>, to: State)
    requires c.state.Idle? || c.state.ObtainBackchannelSecret? || c.state.ConnectRelay? || c.state.GenKeyPair?
    requires to != c.state
    ensures RowEnters(c, ev, holds, PairingRow(c, ev), to)
  {
  }

  lemma AgreeingEnters(c: Client, ev: Event, holds: set<Guard>, to: State)
    requires c.state.WaitAck? || c.state.E2EReady? || c.state.ShowCode? || c.state.WaitPairComplete?
    requires to != c.state
    ensures RowEnters(c, ev, holds, PairingRow(c, ev), to)
  {
  }

  lemma ClosingEnters(c: Client, ev: Event, holds: set<Guard>, to: State)
    requires c.state.Paired? || c.state.Reconnect? || c.state.SendAuth? || c.state.SessionActive?
    requires to != c.state
    ensures RowEnters(c, ev, holds, PairingRow(c, ev), to)
  {
  }

  lemma RelayEdges(ev: Event, holds: set<Guard>, to: State)
    ensures Entry(RelayConnected, ev, holds, to) <==> (to.PairDialing? && ev.RecvCandidates? && AltEnabled in holds) || (to.Paired? && ev.Disconnect?)
  {
  }

  lemma RelayEnters(c: Client, ev: Event, holds: set<Guard>, to: State)
    requires c.state.RelayConnected? && to != c.state
    ensures RowEnters(c, ev, holds, RelayRow(c, ev, holds), to)
  {
    RelayEdges(ev, holds, to);
    if Traffic(ev) { TrafficOnRelay(c, ev, holds); }
  }

  lemma DialingEdges(ev: Event, holds: set<Guard>, to: State)
    ensures Entry(PairDialing, ev, holds, to) <==> (to.PairChecking? && ev.DialOk?) || (to.RelayConnected? && (ev.DialFailed? || ev.AppForceFallback?))
  {
  }

  lemma DialingEnters(c: Client, ev: Event, holds: set<Guard>, to: State)
    requires c.state.PairDialing? && to != c.state
    ensures RowEnters(c, ev, holds, DialingRow(c, ev), to)
  {
    DialingEdges(ev, holds, to);
    if Traffic(ev) { TrafficWhileDialing(c, ev); }
  }

  lemma CheckingEdges(ev: Event, holds: set<Guard>, to: State)
    ensures Entry(PairChecking, ev, holds, to) <==> (to.AltActive? && ev.RecvPairCheckAck?) || (to.RelayConnected? && (ev.VerifyTimeout? || ev.AppForceFallback?))
  {
  }

  lemma CheckingEnters(c: Client, ev: Event, holds: set<Guard>, to: State)
    requires c.state.PairChecking? && to != c.state
    ensures RowEnters(c, ev, holds, CheckingRow(c, ev), to)
  {
    CheckingEdges(ev, holds, to);
    if Traffic(ev) { TrafficWhileDialing(c, ev); }
  }

  lemma ActiveEdges(ev: Event, holds: set<Guard>, to: State)
    ensures Entry(AltActive, ev, holds, to) <==>
              || (to.RelayFallback? && (ev.AltError? || ev.AltStreamError?))
              || (to.PairDialing? && ev.RecvCandidates? && AltEnabled in holds)
              || (to.RelayConnected? && ev.AppForceFallback?)
  {
  }

  lemma ActiveEnters(c: Client, ev: Event, holds: set<Guard>, to: State)
    requires c.state.AltActive? && to != c.state
    ensures RowEnters(c, ev, holds, ActiveRow(c, ev, holds), to)
  {
    ActiveEdges(ev, holds, to);
    if Traffic(ev) { TrafficOnAlt(c, ev, holds); }
  }

  lemma FallbackEdges(ev: Event, holds: set<Guard>, to: State)
    ensures Entry(RelayFallback, ev, holds, to) <==> to.RelayConnected? && ev.RelayOk?
  {
  }

  lemma FallbackEnters(c: Client, ev: Event, holds: set<Guard>, to: State)
    requires c.state.RelayFallback? && to != c.state
    ensures RowEnters(c, ev, holds, FallbackRow(c, ev), to)
  {
    FallbackEdges(ev, holds, to);
    if Traffic(ev) { TrafficOnRelay(c, ev, holds); }
  }

  /** An event moves the client to another state exactly along a listed edge whose callback does not fail. */
  lemma EntersIff(c: Client, inp: Input, to: State)
    requires to != c.state
    ensures OnEvent(c, inp).machine.state == to <==>
              Entry(c.state, inp.event, inp.holds, to) && (Duty(c.state, to) == NoAction || Duty(c.state, to) !in inp.failing)
  {
    RowsEnter(c, inp.event, inp.holds, to);
  }

  lemma RowsEnter(c: Client, ev: Event, holds: set<Guard>, to: State)
    requires to != c.state
    ensures RowEnters(c, ev, holds, RowFor(c, ev, holds), to)
  {
    if c.state.RelayConnected? { RelayEnters(c, ev, holds, to); }
    else if c.state.PairDialing? { DialingEnters(c, ev, holds, to); }
    else if c.state.PairChecking? { CheckingEnters(c, ev, holds, to); }
    else if c.state.AltActive? { ActiveEnters(c, ev, holds, to); }
    else if c.state.RelayFallback? { FallbackEnters(c, ev, holds, to); }
    else { PairingEnters(c, ev, holds, to); }
  }

  // ------------------------------------------------------------------
  // Commands by what they go with
  // ------------------------------------------------------------------

  predicate MoveCmds(from: State, ev: Event, cmds: seq<Cmd>, to: State) {
    && (DialCandidate in cmds <==> !from.PairDialing? && to.PairDialing?)
    && (SendPairCheck in cmds <==> from.PairDialing? && to.PairChecking?)
    && (SetCryptoDatagram in cmds <==> !from.AltActive? && to.AltActive?)
    && (CloseAltPath in cmds <==> (from.AltActive? && !to.AltActive?) || (from.PairChecking? && ev.AppForceFallback?))
    && (SendPathPong in cmds <==> from.AltActive? && ev.RecvPathPing?)
  }

  predicate BackendCmd(c: Cmd) {
    || c == SendCandidates || c == SendPairCheckAck || c == SendPathPing || c == StartPongTimeout
    || c == CancelPongTimeout || c == StartBackoffTimer || c == StartMonitor || c == StopMonitor
  }

  predicate RowCmds(from: State, ev: Event, row: Row) {
    row.Row? ==>
      && MoveCmds(from, ev, row.cmds, row.after.state)
      && forall i :: 0 <= i < |row.cmds| ==> !BackendCmd(row.cmds[i])
  }

  lemma TrafficCmds(c: Client, ev: Event)
    requires Traffic(ev)
    ensures RowCmds(c.state, ev, Row(NoAction, c, [TrafficCmd(ev)]))
  {
  }

  lemma PairingCmds(c: Client, ev: Event)
    requires !Connected(c.state)
    ensures RowCmds(c.state, ev, PairingRow(c, ev))
  {
  }

  lemma RelayCmds(c: Client, ev: Event, holds: set<Guard>)
    requires c.state.RelayConnected?
    ensures RowCmds(c.state, ev, RelayRow(c, ev, holds))
  {
    if Traffic(ev) { TrafficOnRelay(c, ev, holds); TrafficCmds(c, ev); }
  }

  lemma FallbackCmds(c: Client, ev: Event)
    requires c.state.RelayFallback?
    ensures RowCmds(c.state, ev, FallbackRow(c, ev))
  {
    if Traffic(ev) { TrafficOnRelay(c, ev, {}); TrafficCmds(c, ev); }
  }

  lemma DialingCmds(c: Client, ev: Event)
    requires c.state.PairDialing?
    ensures RowCmds(c.state, ev, DialingRow(c, ev))
  {
    if Traffic(ev) { TrafficWhileDialing(c, ev); TrafficCmds(c, ev); }
  }

  lemma CheckingCmds(c: Client, ev: Event)
    requires c.state.PairChecking?
    ensures RowCmds(c.state, ev, CheckingRow(c, ev))
  {
    if Traffic(ev) { TrafficWhileDialing(c, ev); TrafficCmds(c, ev); } else { CheckingMoveCmds(c, ev); }
  }

  lemma CheckingMoveCmds(c: Client, ev: Event)
    requires c.state.PairChecking? && !Traffic(ev)
    ensures RowCmds(c.state, ev, CheckingRow(c, ev))
  {
  }

  /** Closing the alternate path, with one more command. */
  lemma ClosingCmds(last: Cmd, c: Cmd)
    ensures c in CLOSE_CMDS + [last] <==> c == StopAltStreamReader || c == StopAltDgReader || c == CloseAltPath || c == last
  {
  }

  lemma LeavingCmds(ev: Event, last: Cmd, to: State)
    requires !to.AltActive? && !ev.RecvPathPing?
    requires (last == DialCandidate && to.PairDialing?) || (last == ResetAltReady && !to.PairDialing?)
    ensures MoveCmds(AltActive, ev, CLOSE_CMDS + [last], to)
    ensures forall i :: 0 <= i < |CLOSE_CMDS + [last]| ==> !BackendCmd((CLOSE_CMDS + [last])[i])
  {
    forall c { ClosingCmds(last, c); }
  }

  lemma ActiveCmds(c: Client, ev: Event, holds: set<Guard>)
    requires c.state.AltActive?
    ensures RowCmds(c.state, ev, ActiveRow(c, ev, holds))
  {
    if Traffic(ev) { TrafficOnAlt(c, ev, holds); TrafficCmds(c, ev); }
    else if ev.AltError? || ev.AltStreamError? { LeavingCmds(ev, ResetAltReady, RelayFallback); }
    else if ev.AppForceFallback? { LeavingCmds(ev, ResetAltReady, RelayConnected); }
    else if ev.RecvCandidates? { LeavingCmds(ev, DialCandidate, PairDialing); }
  }

  lemma RowsCmds(c: Client, ev: Event, holds: set<Guard>)
    ensures RowCmds(c.state, ev, RowFor(c, ev, holds))
  {
    if c.state.RelayConnected? { RelayCmds(c, ev, holds); }
    else if c.state.PairDialing? { DialingCmds(c, ev); }
    else if c.state.PairChecking? { CheckingCmds(c, ev); }
    else if c.state.AltActive? { ActiveCmds(c, ev, holds); }
    else if c.state.RelayFallback? { FallbackCmds(c, ev); }
    else { PairingCmds(c, ev); }
  }

  lemma AlwaysAnswered(c: Client, ev: Event, holds: set<Guard>)
    ensures c.state.PairChecking? && ev.AppForceFallback? ==> RowFor(c, ev, holds).Row?
    ensures c.state.AltActive? && ev.RecvPathPing? ==> RowFor(c, ev, holds).Row?
  {
  }

  /**
   When commands are issued: a dial exactly on entering PairDialing, the pair check exactly
   on a dial that worked, the datagram key set exactly on entering AltActive, the alternate path
   closed exactly on leaving it or on forcing a check to end, a pong exactly on a ping in AltActive.
   */
  lemma CommandsMeanMoves(c: Client, inp: Input)
    requires !OnEvent(c, inp).err
    ensures MoveCmds(c.state, inp.event, OnEvent(c, inp).cmds, OnEvent(c, inp).machine.state)
    ensures forall i :: 0 <= i < |OnEvent(c, inp).cmds| ==> !BackendCmd(OnEvent(c, inp).cmds[i])
  {
    RowsCmds(c, inp.event, inp.holds);
    AlwaysAnswered(c, inp.event, inp.holds);
  }

  // ------------------------------------------------------------------
  // What a run has been through
  // ------------------------------------------------------------------

  predicate InSession(s: State) { s.SessionActive? || Connected(s) }

  predicate Known(s: State) { s.Paired? || s.Reconnect? || s.SendAuth? || InSession(s) }

  /** Trying for, or on, the alternate path. */
  predicate Reaching(s: State) { s.PairDialing? || s.PairChecking? || s.AltActive? }

  predicate Completed(c: Client, inp: Input) { c.state.WaitPairComplete? && inp.event.RecvPairComplete? }

  predicate Authorized(c: Client, inp: Input) { c.state.SendAuth? && inp.event.RecvAuthOk? }

  predicate Invited(c: Client, inp: Input) {
    (c.state.RelayConnected? || c.state.AltActive?) && inp.event.RecvCandidates? && AltEnabled in inp.holds
  }

  predicate Acknowledged(c: Client, inp: Input) { c.state.PairChecking? && inp.event.RecvPairCheckAck? }

  /** The ways into each part of the machine from outside it. */
  predicate Joins(c: Client, inp: Input, to: State) {
    && (Known(to) && !Known(c.state) ==> Completed(c, inp))
    && (InSession(to) && !InSession(c.state) ==> Authorized(c, inp))
    && (Reaching(to) && !Reaching(c.state) ==> Invited(c, inp))
    && (to.AltActive? && !c.state.AltActive? ==> Acknowledged(c, inp))
  }

  lemma EntryJoins(c: Client, inp: Input, to: State)
    requires Entry(c.state, inp.event, inp.holds, to)
    ensures Joins(c, inp, to)
  {
  }

  lemma RunJoins(cs: seq<Client>, rs: seq<Running>, ins: seq<Input>, k: nat)
    requires Run(cs, rs, ins) && 0 < k < |cs|
    ensures Joins(cs[k - 1], ins[k - 1], cs[k].state)
  {
    assert StepAt(cs, rs, ins, k - 1);
    if cs[k].state != cs[k - 1].state {
      EntersIff(cs[k - 1], ins[k - 1], cs[k].state);
      EntryJoins(cs[k - 1], ins[k - 1], cs[k].state);
    }
  }

  /** A client that is paired, or beyond, completed a pairing. */
  lemma {:induction false} KnownWasCompleted(cs: seq<Client>, rs: seq<Running>, ins: seq<Input>, k: nat) returns (p: nat)
    requires Run(cs, rs, ins) && k < |cs| && Known(cs[k].state)
    ensures p < k && Completed(cs[p], ins[p]) && forall i :: p < i <= k ==> Known(cs[i].state)
  {
    RunJoins(cs, rs, ins, k);
    if Known(cs[k - 1].state) { p := KnownWasCompleted(cs, rs, ins, k - 1); } else { p := k - 1; }
  }

  /** A session runs only after the backend accepted the authentication, and has not ended since. */
  lemma {:induction false} SessionWasAuthorized(cs: seq<Client>, rs: seq<Running>, ins: seq<Input>, k: nat) returns (v: nat)
    requires Run(cs, rs, ins) && k < |cs| && InSession(cs[k].state)
    ensures v < k && Authorized(cs[v], ins[v]) && forall i :: v < i <= k ==> InSession(cs[i].state)
  {
    RunJoins(cs, rs, ins, k);
    if InSession(cs[k - 1].state) { v := SessionWasAuthorized(cs, rs, ins, k - 1); } else { v := k - 1; }
  }

  /** A client dials, checks or uses the alternate path only on candidates received with the path enabled. */
  lemma {:induction false} ReachingWasInvited(cs: seq<Client>, rs: seq<Running>, ins: seq<Input>, k: nat) returns (d: nat)
    requires Run(cs, rs, ins) && k < |cs| && Reaching(cs[k].state)
    ensures d < k && Invited(cs[d], ins[d]) && forall i :: d < i <= k ==> Reaching(cs[i].state)
  {
    RunJoins(cs, rs, ins, k);
    if Reaching(cs[k - 1].state) { d := ReachingWasInvited(cs, rs, ins, k - 1); } else { d := k - 1; }
  }

  /** AltActive is held only since an acknowledged pair check. */
  lemma {:induction false} AltWasAcknowledged(cs: seq<Client>, rs: seq<Running>, ins: seq<Input>, k: nat) returns (a: nat)
    requires Run(cs, rs, ins) && k < |cs| && cs[k].state.AltActive?
    ensures a < k && Acknowledged(cs[a], ins[a]) && forall i :: a < i <= k ==> cs[i].state.AltActive?
  {
    RunJoins(cs, rs, ins, k);
    if cs[k - 1].state.AltActive? { a := AltWasAcknowledged(cs, rs, ins, k - 1); } else { a := k - 1; }
  }

  /** How far into the protocol a state is: the steps of pairing and authentication, then the session. */
  function Rank(s: State): nat {
    match s
    case Idle => 0
    case ObtainBackchannelSecret => 1
    case ConnectRelay => 2
    case GenKeyPair => 3
    case WaitAck => 4
    case E2EReady => 5
    case ShowCode => 6
    case WaitPairComplete => 7
    case Paired => 8
    case Reconnect => 9
    case SendAuth => 10
    case SessionActive => 11
    case _ => 12
  }

  lemma EntryClimbs(c: Client, inp: Input, to: State)
    requires Entry(c.state, inp.event, inp.holds, to)
    ensures Rank(c.state) + 1 >= Rank(to)
  {
  }

  /** No state is skipped: a run at some rank has been at every lower one before. */
  lemma {:induction false} EveryRankWasPassed(cs: seq<Client>, rs: seq<Running>, ins: seq<Input>, k: nat, r: nat) returns (i: nat)
    requires Run(cs, rs, ins) && k < |cs| && r < Rank(cs[k].state)
    ensures i < k && Rank(cs[i].state) == r
  {
    assert StepAt(cs, rs, ins, k - 1);
    if cs[k].state != cs[k - 1].state {
      EntersIff(cs[k - 1], ins[k - 1], cs[k].state);
      EntryClimbs(cs[k - 1], ins[k - 1], cs[k].state);
    }
    if r == Rank(cs[k - 1].state) { return k - 1; }
    i := EveryRankWasPassed(cs, rs, ins, k - 1, r);
  }
}
