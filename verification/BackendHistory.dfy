/**
 How the backend gets where it is: every state by the edges that lead to it,
 the commands that go with each move, and what a run must have been through.
 */
module BackendHistory {
  import opened SessionCommands
  import opened BackendPath

  // ------------------------------------------------------------------
  // Edges by their target
  // ------------------------------------------------------------------

  predicate PairingEntry(from: State, ev: Event, holds: set<Guard>, to: State) {
    if to.Idle? then
      || (from.WaitingForClient? && ev.RecvPairHello? && TokenInvalid in holds && TokenValid !in holds)
      || (from.ValidateCode? && ev.CheckCode? && CodeWrong in holds && CodeCorrect !in holds)
      || (from.AuthCheck? && ev.Verify? && DeviceUnknown in holds && DeviceKnown !in holds)
    else if to.GenerateToken? then from.Idle? && ev.CliInitPair?
    else if to.RegisterRelay? then from.GenerateToken? && ev.TokenCreated?
    else if to.WaitingForClient? then from.RegisterRelay? && ev.RelayRegistered?
    else if to.DeriveSecret? then from.WaitingForClient? && ev.RecvPairHello? && TokenValid in holds
    else if to.SendAck? then from.DeriveSecret? && ev.EcdhComplete?
    else if to.WaitingForCode? then from.SendAck? && ev.SignalCodeDisplay?
    else if to.ValidateCode? then from.WaitingForCode? && ev.CliCodeEntered?
    else if to.StorePaired? then from.ValidateCode? && ev.CheckCode? && CodeCorrect in holds
    else if to.Paired? then (from.StorePaired? && ev.Finalise?) || (from.RelayConnected? && ev.Disconnect?)
    else if to.AuthCheck? then from.Paired? && ev.RecvAuthRequest?
    else to.SessionActive? && from.AuthCheck? && ev.Verify? && DeviceKnown in holds
  }

  predicate PathEntry(from: State, ev: Event, holds: set<Guard>, to: State) {
    if to.RelayConnected? then
      || (from.SessionActive? && ev.SessionEstablished?)
      || (from.CandidatesAdvertised? && ev.RecvPairCheck? && ChallengeInvalid in holds && ChallengeValid !in holds)
      || (from.CandidatesAdvertised? && ev.AppForceFallback?)
    else if to.CandidatesAdvertised? then
      || (from.RelayConnected? && ev.CandidatesGathered?)
      || (from.RelayConnected? && ev.CandidatesRefreshTick? && LocalCandidatesAvailable in holds)
      || (from.RelayBackoff? && (ev.BackoffExpired? || ev.CandidatesChanged?))
    else if to.AltActive? then
      || (from.CandidatesAdvertised? && ev.RecvPairCheck? && ChallengeValid in holds)
      || (from.AltDegraded? && ev.RecvPathPong?)
    else if to.AltDegraded? then from.AltActive? && ev.PingTimeout?
    else
      && to.RelayBackoff?
      && (|| (from.CandidatesAdvertised? && ev.CandidatesTimeout?)
          || (OnAlt(from) && (ev.AltStreamError? || ev.AppForceFallback?))
          || (from.AltDegraded? && ev.PingTimeout? && AtMaxFailures in holds && UnderMaxFailures !in holds))
  }

  predicate PathState(s: State) { OnAlt(s) || s.RelayConnected? || s.CandidatesAdvertised? || s.RelayBackoff? }

  predicate Entry(from: State, ev: Event, holds: set<Guard>, to: State) {
    if PathState(to) then PathEntry(from, ev, holds, to) else PairingEntry(from, ev, holds, to)
  }

  /** The callback a move runs first, told by the states it joins. */
  function Duty(from: State, to: State): Action {
    if to.GenerateToken? then GenerateTokenAction
    else if to.RegisterRelay? then RegisterRelayAction
    else if to.DeriveSecret? then DeriveSecretAction
    else if to.Paired? && from.StorePaired? then StoreDevice
    else if to.SessionActive? then VerifyDevice
    else if to.AltActive? then (if from.AltDegraded? then ResetFailures else ActivateLan)
    else if to.RelayBackoff? && OnAlt(from) then FallbackToRelay
    else NoAction
  }

  predicate RowEnters(b: Backend, ev: Event, holds: set<Guard>, row: Row, to: State) {
    && (row.Row? && row.after.state == to <==> Entry(b.state, ev, holds, to))
    && (row.Row? && row.after.state == to ==> row.action == Duty(b.state, to))
  }

  lemma PairingEnters(b: Backend, ev: Event, holds: set<Guard>, to: State)
    requires !PathState(b.state) && to != b.state
    ensures RowEnters(b, ev, holds, PairingRow(b, ev, holds), to)
  {
    if b.state.Idle? || b.state.GenerateToken? || b.state.RegisterRelay? || b.state.WaitingForClient? { OpeningEnters(b, ev, holds, to); }
    else if b.state.DeriveSecret? || b.state.SendAck? || b.state.WaitingForCode? || b.state.ValidateCode? { JudgingEnters(b, ev, holds, to); }
    else { ClosingEnters(b, ev, holds, to); }
  }

  lemma OpeningEnters(b: Backend, ev: Event, holds: set<Guard>, to: State)
    requires b.state.Idle? || b.state.GenerateToken? || b.state.RegisterRelay? || b.state.WaitingForClient?
    requires to != b.state
    ensures RowEnters(b, ev, holds, PairingRow(b, ev, holds), to)
  {
  }

  lemma JudgingEnters(b: Backend, ev: Event, holds: set<Guard>, to: State)
    requires b.state.DeriveSecret? || b.state.SendAck? || b.state.WaitingForCode? || b.state.ValidateCode?
    requires to != b.state
    ensures RowEnters(b, ev, holds, PairingRow(b, ev, holds), to)
  {
  }

  lemma ClosingEnters(b: Backend, ev: Event, holds: set<Guard>, to: State)
    requires b.state.StorePaired? || b.state.Paired? || b.state.AuthCheck? || b.state.SessionActive?
    requires to != b.state
    ensures RowEnters(b, ev, holds, PairingRow(b, ev, holds), to)
  {
  }

  lemma RelayEdges(ev: Event, holds: set<Guard>, to: State)
    ensures Entry(RelayConnected, ev, holds, to) <==>
              || (to.Paired? && ev.Disconnect?)
              || (to.CandidatesAdvertised? && (ev.CandidatesGathered? || (ev.CandidatesRefreshTick? && LocalCandidatesAvailable in holds)))
  {
  }

  lemma RelayEnters(b: Backend, ev: Event, holds: set<Guard>, to: State)
    requires b.state.RelayConnected? && to != b.state
    ensures RowEnters(b, ev, holds, RelayRow(b, ev, holds), to)
  {
    RelayEdges(ev, holds, to);
    if Traffic(ev) { TrafficOnRelay(b, ev, holds); } else { RelayMoves(b, ev, holds, to); }
  }

  lemma RelayMoves(b: Backend, ev: Event, holds: set<Guard>, to: State)
    requires b.state.RelayConnected? && to != b.state && !Traffic(ev)
    ensures var row := RelayRow(b, ev, holds);
            (row.Row? && row.after.state == to <==>
              || (to.Paired? && ev.Disconnect?)
              || (to.CandidatesAdvertised? && (ev.CandidatesGathered? || (ev.CandidatesRefreshTick? && LocalCandidatesAvailable in holds)))) && (row.Row? && row.after.state == to ==> row.action == Duty(b.state, to))
  {
  }

  lemma AdvertisedEdges(ev: Event, holds: set<Guard>, to: State)
    ensures Entry(CandidatesAdvertised, ev, holds, to) <==>
              || (to.AltActive? && ev.RecvPairCheck? && ChallengeValid in holds)
              || (to.RelayConnected? && ev.RecvPairCheck? && ChallengeInvalid in holds && ChallengeValid !in holds)
              || (to.RelayConnected? && ev.AppForceFallback?)
              || (to.RelayBackoff? && ev.CandidatesTimeout?)
  {
  }

  lemma AdvertisedEnters(b: Backend, ev: Event, holds: set<Guard>, to: State)
    requires b.state.CandidatesAdvertised? && to != b.state
    ensures RowEnters(b, ev, holds, AdvertisedRow(b, ev, holds), to)
  {
    AdvertisedEdges(ev, holds, to);
    if Traffic(ev) { TrafficAdvertised(b, ev, holds); } else { AdvertisedMoves(b, ev, holds, to); }
  }

  lemma AdvertisedMoves(b: Backend, ev: Event, holds: set<Guard>, to: State)
    requires b.state.CandidatesAdvertised? && to != b.state && !Traffic(ev)
    ensures var row := AdvertisedRow(b, ev, holds);
            (row.Row? && row.after.state == to <==>
              || (to.AltActive? && ev.RecvPairCheck? && ChallengeValid in holds)
              || (to.RelayConnected? && ev.RecvPairCheck? && ChallengeInvalid in holds && ChallengeValid !in holds)
              || (to.RelayConnected? && ev.AppForceFallback?)
              || (to.RelayBackoff? && ev.CandidatesTimeout?)) && (row.Row? && row.after.state == to ==> row.action == Duty(b.state, to))
  {
  }

  lemma ActiveEdges(ev: Event, holds: set<Guard>, to: State)
    ensures Entry(AltActive, ev, holds, to) <==>
              || (to.AltDegraded? && ev.PingTimeout?)
              || (to.RelayBackoff? && (ev.AltStreamError? || ev.AppForceFallback?))
  {
  }

  lemma ActiveEnters(b: Backend, ev: Event, holds: set<Guard>, to: State)
    requires b.state.AltActive? && to != b.state
    ensures RowEnters(b, ev, holds, ActiveRow(b, ev), to)
  {
    ActiveEdges(ev, holds, to);
    if Traffic(ev) { TrafficWhileActive(b, ev); } else { ActiveMoves(b, ev, holds, to); }
  }

  lemma ActiveMoves(b: Backend, ev: Event, holds: set<Guard>, to: State)
    requires b.state.AltActive? && to != b.state && !Traffic(ev)
    ensures var row := ActiveRow(b, ev);
            (row.Row? && row.after.state == to <==>
              || (to.AltDegraded? && ev.PingTimeout?)
              || (to.RelayBackoff? && (ev.AltStreamError? || ev.AppForceFallback?))) && (row.Row? && row.after.state == to ==> row.action == Duty(b.state, to))
  {
  }

  lemma DegradedEdges(ev: Event, holds: set<Guard>, to: State)
    ensures Entry(AltDegraded, ev, holds, to) <==>
              || (to.AltActive? && ev.RecvPathPong?)
              || (to.RelayBackoff? && (ev.AltStreamError? || ev.AppForceFallback?))
              || (to.RelayBackoff? && ev.PingTimeout? && AtMaxFailures in holds && UnderMaxFailures !in holds)
  {
  }

  lemma DegradedEnters(b: Backend, ev: Event, holds: set<Guard>, to: State)
    requires b.state.AltDegraded? && to != b.state
    ensures RowEnters(b, ev, holds, DegradedRow(b, ev, holds), to)
  {
    DegradedEdges(ev, holds, to);
    if Traffic(ev) { TrafficWhileDegraded(b, ev, holds); } else { DegradedMoves(b, ev, holds, to); }
  }

  lemma DegradedMoves(b: Backend, ev: Event, holds: set<Guard>, to: State)
    requires b.state.AltDegraded? && to != b.state && !Traffic(ev)
    ensures var row := DegradedRow(b, ev, holds);
            (row.Row? && row.after.state == to <==>
              || (to.AltActive? && ev.RecvPathPong?)
              || (to.RelayBackoff? && (ev.AltStreamError? || ev.AppForceFallback?))
              || (to.RelayBackoff? && ev.PingTimeout? && AtMaxFailures in holds && UnderMaxFailures !in holds)) && (row.Row? && row.after.state == to ==> row.action == Duty(b.state, to))
  {
  }

  lemma BackoffEdges(ev: Event, holds: set<Guard>, to: State)
    ensures Entry(RelayBackoff, ev, holds, to) <==>
              to.CandidatesAdvertised? && (ev.BackoffExpired? || ev.CandidatesChanged?)
  {
  }

  lemma BackoffEnters(b: Backend, ev: Event, holds: set<Guard>, to: State)
    requires b.state.RelayBackoff? && to != b.state
    ensures RowEnters(b, ev, holds, BackoffRow(b, ev), to)
  {
    BackoffEdges(ev, holds, to);
    if Traffic(ev) { TrafficOnRelay(b, ev, holds); } else { BackoffMoves(b, ev, holds, to); }
  }

  lemma BackoffMoves(b: Backend, ev: Event, holds: set<Guard>, to: State)
    requires b.state.RelayBackoff? && to != b.state && !Traffic(ev)
    ensures var row := BackoffRow(b, ev);
            (row.Row? && row.after.state == to <==>
              to.CandidatesAdvertised? && (ev.BackoffExpired? || ev.CandidatesChanged?)) && (row.Row? && row.after.state == to ==> row.action == Duty(b.state, to))
  {
  }

  lemma RowsEnter(b: Backend, ev: Event, holds: set<Guard>, to: State)
    requires to != b.state
    ensures RowEnters(b, ev, holds, RowFor(b, ev, holds), to)
  {
    if b.state.RelayConnected? { RelayEnters(b, ev, holds, to); }
    else if b.state.CandidatesAdvertised? { AdvertisedEnters(b, ev, holds, to); }
    else if b.state.AltActive? { ActiveEnters(b, ev, holds, to); }
    else if b.state.AltDegraded? { DegradedEnters(b, ev, holds, to); }
    else if b.state.RelayBackoff? { BackoffEnters(b, ev, holds, to); }
    else { PairingEnters(b, ev, holds, to); }
  }

  /** An event moves the backend to another state exactly along a listed edge whose callback does not fail. */
  lemma EntersIff(b: Backend, inp: Input, to: State)
    requires to != b.state
    ensures OnEvent(b, inp).machine.state == to <==>
              Entry(b.state, inp.event, inp.holds, to) && (Duty(b.state, to) == NoAction || Duty(b.state, to) !in inp.failing)
  {
    RowsEnter(b, inp.event, inp.holds, to);
  }

  // ------------------------------------------------------------------
  // Commands by what they go with
  // ------------------------------------------------------------------

  predicate RowCmds(from: State, ev: Event, row: Row) {
    row.Row? ==> MoveCmds(from, row.cmds, row.after.state) && PingCmds(from, ev, row.cmds, row.after.state)
  }

  predicate MoveCmds(from: State, cmds: seq<Cmd>, to: State) {
    && (StartBackoffTimer in cmds <==> !from.RelayBackoff? && to.RelayBackoff?)
    && (CloseAltPath in cmds <==> OnAlt(from) && !OnAlt(to))
    && (SendCandidates in cmds <==> !from.CandidatesAdvertised? && to.CandidatesAdvertised?)
    && (SendPairCheckAck in cmds <==> !OnAlt(from) && OnAlt(to))
    && (SetCryptoDatagram in cmds <==> !OnAlt(from) && OnAlt(to))
  }

  predicate PingCmds(from: State, ev: Event, cmds: seq<Cmd>, to: State) {
    && (SendPathPing in cmds <==> OnAlt(from) && ev.PingTick?)
    && (StartPongTimeout in cmds <==> OnAlt(from) && ev.PingTick?)
    && (CancelPongTimeout in cmds <==> (from.AltDegraded? && to.AltActive?) || (OnAlt(from) && ev.AppForceFallback?))
    && (ResetAltReady in cmds <==>
          (OnAlt(from) && !OnAlt(to)) || (from.CandidatesAdvertised? && (ev.CandidatesTimeout? || ev.AppForceFallback?)))
    && DialCandidate !in cmds && SendPairCheck !in cmds && SendPathPong !in cmds
  }

  /** Which commands a teardown holds besides the ones before it. */
  lemma TeardownHolds(stops: seq<Cmd>, c: Cmd)
    ensures c in stops + TEARDOWN_CMDS <==>
              c in stops || c == StopAltStreamReader || c == StopAltDgReader || c == CloseAltPath || c == ResetAltReady || c == StartBackoffTimer
  {
  }

  lemma FallbackMoves(from: State, stops: seq<Cmd>)
    requires OnAlt(from) && (stops == [StopMonitor] || stops == [StopMonitor, CancelPongTimeout])
    ensures MoveCmds(from, stops + TEARDOWN_CMDS, RelayBackoff)
  {
    forall c { TeardownHolds(stops, c); }
  }

  lemma FallbackPings(from: State, stops: seq<Cmd>, ev: Event)
    requires OnAlt(from) && !ev.PingTick?
    requires stops == if ev.AppForceFallback? then [StopMonitor, CancelPongTimeout] else [StopMonitor]
    ensures PingCmds(from, ev, stops + TEARDOWN_CMDS, RelayBackoff)
  {
    forall c { TeardownHolds(stops, c); }
  }

  lemma FallbackCmds(b: Backend, stops: seq<Cmd>, ev: Event)
    requires OnAlt(b.state) && !ev.PingTick?
    requires stops == if ev.AppForceFallback? then [StopMonitor, CancelPongTimeout] else [StopMonitor]
    ensures RowCmds(b.state, ev, Fallback(b, stops))
  {
    FallbackMoves(b.state, stops);
    FallbackPings(b.state, stops, ev);
  }

  lemma ActivationCmds()
    ensures MoveCmds(CandidatesAdvertised, ACTIVATE_CMDS, AltActive)
    ensures PingCmds(CandidatesAdvertised, RecvPairCheck, ACTIVATE_CMDS, AltActive)
  {
  }

  lemma TrafficCmds(b: Backend, ev: Event)
    requires Traffic(ev)
    ensures RowCmds(b.state, ev, Row(NoAction, b, [TrafficCmd(ev)]))
  {
  }

  lemma PairingCmds(b: Backend, ev: Event, holds: set<Guard>)
    requires !PathState(b.state)
    ensures RowCmds(b.state, ev, PairingRow(b, ev, holds))
  {
    PairingIsSilent(b, ev, holds);
  }

  lemma PairingIsSilent(b: Backend, ev: Event, holds: set<Guard>)
    ensures var row := PairingRow(b, ev, holds);
            row.Row? ==> row.cmds == [] && (row.after.state.RelayConnected? || !PathState(row.after.state))
  {
  }

  lemma RelayCmds(b: Backend, ev: Event, holds: set<Guard>)
    requires b.state.RelayConnected?
    ensures RowCmds(b.state, ev, RelayRow(b, ev, holds))
  {
    if Traffic(ev) { TrafficOnRelay(b, ev, holds); TrafficCmds(b, ev); }
  }

  lemma AdvertisedCmds(b: Backend, ev: Event, holds: set<Guard>)
    requires b.state.CandidatesAdvertised?
    ensures RowCmds(b.state, ev, AdvertisedRow(b, ev, holds))
  {
    if Traffic(ev) { TrafficAdvertised(b, ev, holds); TrafficCmds(b, ev); }
    else if ev.RecvPairCheck? { ActivationCmds(); }
  }

  lemma ActiveCmds(b: Backend, ev: Event)
    requires b.state.AltActive?
    ensures RowCmds(b.state, ev, ActiveRow(b, ev))
  {
    if Traffic(ev) { TrafficWhileActive(b, ev); TrafficCmds(b, ev); }
    else if ev.AltStreamError? { FallbackCmds(b, [StopMonitor], ev); }
    else if ev.AppForceFallback? { FallbackCmds(b, [StopMonitor, CancelPongTimeout], ev); }
  }

  lemma DegradedOtherCmds(b: Backend, ev: Event, holds: set<Guard>)
    requires b.state.AltDegraded? && !Traffic(ev)
    requires !ev.AltStreamError? && !ev.PingTimeout? && !ev.AppForceFallback?
    ensures RowCmds(b.state, ev, DegradedRow(b, ev, holds))
  {
  }

  lemma DegradedCmds(b: Backend, ev: Event, holds: set<Guard>)
    requires b.state.AltDegraded?
    ensures RowCmds(b.state, ev, DegradedRow(b, ev, holds))
  {
    if Traffic(ev) { TrafficWhileDegraded(b, ev, holds); TrafficCmds(b, ev); }
    else if ev.AltStreamError? || ev.PingTimeout? { FallbackCmds(b, [StopMonitor], ev); }
    else if ev.AppForceFallback? { FallbackCmds(b, [StopMonitor, CancelPongTimeout], ev); }
    else { DegradedOtherCmds(b, ev, holds); }
  }

  lemma BackoffCmds(b: Backend, ev: Event)
    requires b.state.RelayBackoff?
    ensures RowCmds(b.state, ev, BackoffRow(b, ev))
  {
    if Traffic(ev) { TrafficOnRelay(b, ev, {}); TrafficCmds(b, ev); }
  }

  lemma RowsCmds(b: Backend, ev: Event, holds: set<Guard>)
    ensures RowCmds(b.state, ev, RowFor(b, ev, holds))
  {
    if b.state.RelayConnected? { RelayCmds(b, ev, holds); }
    else if b.state.CandidatesAdvertised? { AdvertisedCmds(b, ev, holds); }
    else if b.state.AltActive? { ActiveCmds(b, ev); }
    else if b.state.AltDegraded? { DegradedCmds(b, ev, holds); }
    else if b.state.RelayBackoff? { BackoffCmds(b, ev); }
    else { PairingCmds(b, ev, holds); }
  }

  /**
   When commands are issued: the backoff timer starts exactly on entering RelayBackoff,
   candidates go out exactly on entering CandidatesAdvertised, the pair check is
   acknowledged and the datagram key set exactly on taking the alternate path, which is
   closed exactly on leaving it, and pings go out exactly on ticks while on it.
   */
  lemma CommandsMeanMoves(b: Backend, inp: Input)
    requires !OnEvent(b, inp).err
    ensures MoveCmds(b.state, OnEvent(b, inp).cmds, OnEvent(b, inp).machine.state)
    ensures PingCmds(b.state, inp.event, OnEvent(b, inp).cmds, OnEvent(b, inp).machine.state)
  {
    RowsCmds(b, inp.event, inp.holds);
    OnAltAnswers(b, inp.event, inp.holds);
  }

  /** A tick on the alternate path, a forced fallback and a candidates timeout always have a row. */
  lemma OnAltAnswers(b: Backend, ev: Event, holds: set<Guard>)
    ensures OnAlt(b.state) && (ev.PingTick? || ev.AppForceFallback?) ==> RowFor(b, ev, holds).Row?
    ensures b.state.CandidatesAdvertised? && (ev.CandidatesTimeout? || ev.AppForceFallback?) ==> RowFor(b, ev, holds).Row?
  {
  }

  // ------------------------------------------------------------------
  // What a run has been through
  // ------------------------------------------------------------------

  /** After a client's hello was taken and before the code is judged. */
  predicate Judging(s: State) { s.DeriveSecret? || s.SendAck? || s.WaitingForCode? || s.ValidateCode? }

  predicate InSession(s: State) { s.SessionActive? || PathState(s) }

  /** The code was right. */
  predicate Cleared(s: State) { s.StorePaired? || s.Paired? || s.AuthCheck? || InSession(s) }

  predicate Heard(b: Backend, inp: Input) {
    b.state.WaitingForClient? && inp.event.RecvPairHello? && TokenValid in inp.holds
  }

  predicate Judged(b: Backend, inp: Input) {
    b.state.ValidateCode? && inp.event.CheckCode? && CodeCorrect in inp.holds
  }

  predicate Verified(b: Backend, inp: Input) {
    b.state.AuthCheck? && inp.event.Verify? && DeviceKnown in inp.holds
  }

  predicate Challenged(b: Backend, inp: Input) {
    b.state.CandidatesAdvertised? && inp.event.RecvPairCheck? && ChallengeValid in inp.holds
  }

  lemma StepEntry(b: Backend, inp: Input)
    ensures var to := OnEvent(b, inp).machine.state; to == b.state || Entry(b.state, inp.event, inp.holds, to)
  {
    if OnEvent(b, inp).machine.state != b.state { EntersIff(b, inp, OnEvent(b, inp).machine.state); }
  }

  /** The ways into each part of the machine from outside it. */
  predicate Joins(b: Backend, inp: Input, to: State) {
    && (Judging(to) && !Judging(b.state) ==> Heard(b, inp))
    && (Cleared(to) && !Cleared(b.state) ==> Judged(b, inp))
    && (InSession(to) && !InSession(b.state) ==> Verified(b, inp))
    && (OnAlt(to) && !OnAlt(b.state) ==> Challenged(b, inp))
  }

  lemma EntryJoins(b: Backend, inp: Input, to: State)
    requires Entry(b.state, inp.event, inp.holds, to)
    ensures Joins(b, inp, to)
  {
  }

  lemma RunJoins(ms: seq<Backend>, rs: seq<Running>, ins: seq<Input>, k: nat)
    requires Run(ms, rs, ins) && 0 < k < |ms|
    ensures Joins(ms[k - 1], ins[k - 1], ms[k].state)
  {
    assert Advances(ms[k - 1], rs[k - 1], ins[k - 1], ms[k], rs[k]);
    StepEntry(ms[k - 1], ins[k - 1]);
    if ms[k].state != ms[k - 1].state { EntryJoins(ms[k - 1], ins[k - 1], ms[k].state); }
  }

  /** While the code is awaited or judged, a hello with a valid token was taken, and nothing but these states followed. */
  lemma {:induction false} JudgingWasHeard(ms: seq<Backend>, rs: seq<Running>, ins: seq<Input>, k: nat) returns (h: nat)
    requires Run(ms, rs, ins) && k < |ms| && Judging(ms[k].state)
    ensures h < k && Heard(ms[h], ins[h]) && forall i :: h < i <= k ==> Judging(ms[i].state)
  {
    RunJoins(ms, rs, ins, k);
    if Judging(ms[k - 1].state) { h := JudgingWasHeard(ms, rs, ins, k - 1); } else { h := k - 1; }
  }

  /**
   From StorePaired on, into every session: the run took a hello with a valid token, then
   found the entered code right, and did not fall back to an earlier state since.
   */
  lemma {:induction false} ClearedWasJudged(ms: seq<Backend>, rs: seq<Running>, ins: seq<Input>, k: nat) returns (h: nat, c: nat)
    requires Run(ms, rs, ins) && k < |ms| && Cleared(ms[k].state)
    ensures h < c < k && Heard(ms[h], ins[h]) && Judged(ms[c], ins[c])
    ensures forall i :: h < i <= c ==> Judging(ms[i].state)
    ensures forall i :: c < i <= k ==> Cleared(ms[i].state)
  {
    RunJoins(ms, rs, ins, k);
    if Cleared(ms[k - 1].state) {
      h, c := ClearedWasJudged(ms, rs, ins, k - 1);
    } else {
      c := k - 1;
      h := JudgingWasHeard(ms, rs, ins, k - 1);
    }
  }

  /** A session runs only after the device was verified as known, and has not ended since. */
  lemma {:induction false} SessionWasVerified(ms: seq<Backend>, rs: seq<Running>, ins: seq<Input>, k: nat) returns (v: nat)
    requires Run(ms, rs, ins) && k < |ms| && InSession(ms[k].state)
    ensures v < k && Verified(ms[v], ins[v]) && forall i :: v < i <= k ==> InSession(ms[i].state)
  {
    RunJoins(ms, rs, ins, k);
    if InSession(ms[k - 1].state) { v := SessionWasVerified(ms, rs, ins, k - 1); } else { v := k - 1; }
  }

  /** The alternate path is in use only after a pair check with a valid challenge, and without a break since. */
  lemma {:induction false} AltWasChallenged(ms: seq<Backend>, rs: seq<Running>, ins: seq<Input>, k: nat) returns (c: nat)
    requires Run(ms, rs, ins) && k < |ms| && OnAlt(ms[k].state)
    ensures c < k && Challenged(ms[c], ins[c]) && forall i :: c < i <= k ==> OnAlt(ms[i].state)
  {
    RunJoins(ms, rs, ins, k);
    if OnAlt(ms[k - 1].state) { c := AltWasChallenged(ms, rs, ins, k - 1); } else { c := k - 1; }
  }

  /** The three decisions: a positive answer lets the backend on, a negative one alone sends it back to Idle. */
  lemma Decisions(b: Backend, inp: Input)
    requires inp.failing == {}
    ensures b.state.WaitingForClient? && inp.event.RecvPairHello? ==>
              OnEvent(b, inp).machine.state ==
                if TokenValid in inp.holds then DeriveSecret else if TokenInvalid in inp.holds then Idle else WaitingForClient
    ensures b.state.ValidateCode? && inp.event.CheckCode? ==>
              OnEvent(b, inp).machine.state ==
                if CodeCorrect in inp.holds then StorePaired else if CodeWrong in inp.holds then Idle else ValidateCode
    ensures b.state.AuthCheck? && inp.event.Verify? ==>
              OnEvent(b, inp).machine.state ==
                if DeviceKnown in inp.holds then SessionActive else if DeviceUnknown in inp.holds then Idle else AuthCheck
  {
    EntersIff(b, inp, if b.state.Idle? then Paired else Idle);
  }

  /** How far into the protocol a state is: the steps of pairing and authentication, then the session. */
  function Rank(s: State): nat {
    match s
    case Idle => 0
    case GenerateToken => 1
    case RegisterRelay => 2
    case WaitingForClient => 3
    case DeriveSecret => 4
    case SendAck => 5
    case WaitingForCode => 6
    case ValidateCode => 7
    case StorePaired => 8
    case Paired => 9
    case AuthCheck => 10
    case SessionActive => 11
    case _ => 12
  }

  lemma EntryClimbs(b: Backend, inp: Input, to: State)
    requires Entry(b.state, inp.event, inp.holds, to)
    ensures Rank(b.state) + 1 >= Rank(to)
  {
  }

  /** No state is skipped: a run at some rank has been at every lower one before. */
  lemma {:induction false} EveryRankWasPassed(ms: seq<Backend>, rs: seq<Running>, ins: seq<Input>, k: nat, r: nat) returns (i: nat)
    requires Run(ms, rs, ins) && k < |ms| && r < Rank(ms[k].state)
    ensures i < k && Rank(ms[i].state) == r
  {
    assert Advances(ms[k - 1], rs[k - 1], ins[k - 1], ms[k], rs[k]);
    if ms[k].state != ms[k - 1].state {
      EntersIff(ms[k - 1], ins[k - 1], ms[k].state);
      EntryClimbs(ms[k - 1], ins[k - 1], ms[k].state);
    }
    if r == Rank(ms[k - 1].state) { return k - 1; }
    i := EveryRankWasPassed(ms, rs, ins, k - 1, r);
  }
}
