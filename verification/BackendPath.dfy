/**
 The backend's session machine: pairing states, then the path states that move
 traffic between the relay and a direct alternate path. Of its variables the
 model keeps those that steer the path.
 */
module BackendPath {
  import opened SessionCommands

  datatype State =
    | Idle | GenerateToken | RegisterRelay | WaitingForClient | DeriveSecret | SendAck | WaitingForCode
    | ValidateCode | StorePaired | Paired | AuthCheck | SessionActive
    | RelayConnected | CandidatesAdvertised | AltActive | AltDegraded | RelayBackoff

  datatype Event =
    | CliInitPair | TokenCreated | RelayRegistered | RecvPairHello | EcdhComplete | SignalCodeDisplay
    | CliCodeEntered | CheckCode | Finalise | RecvAuthRequest | Verify | SessionEstablished
    | CandidatesGathered | CandidatesRefreshTick | CandidatesTimeout | CandidatesChanged
    | RecvPairCheck | RecvPathPong | PingTick | PingTimeout | BackoffExpired
    | AltStreamError | AppForceFallback | Disconnect
    | AppSend | RelayStreamData | RelayStreamError | AppSendDatagram | RelayDatagram | AltStreamData | AltDatagram

  datatype Guard =
    | TokenValid | TokenInvalid | CodeCorrect | CodeWrong | DeviceKnown | DeviceUnknown
    | ChallengeValid | ChallengeInvalid | LocalCandidatesAvailable | UnderMaxFailures | AtMaxFailures

  datatype Action =
    | NoAction | GenerateTokenAction | RegisterRelayAction | DeriveSecretAction | StoreDevice | VerifyDevice
    | ActivateLan | FallbackToRelay | ResetFailures

  datatype Backend = Backend(
    state: State, pingFailures: int, backoffLevel: int,
    activePath: Carrier, dispatcherPath: Carrier, monitorTarget: Target, altSignal: Signal)

  const INITIAL := Backend(Idle, 0, 0, Relay, Relay, NoTarget, Pending)

  /** The answers of one call's callbacks: guards registered and true, actions registered and failing. */
  datatype Input = Input(event: Event, holds: set<Guard>, failing: set<Action>)

  datatype Row = NoRow | Row(action: Action, after: Backend, cmds: seq<Cmd>)

  datatype Reply = Reply(machine: Backend, cmds: seq<Cmd>, err: bool)

  function Goto(b: Backend, to: State, cmds: seq<Cmd>): Row { Row(NoAction, b.(state := to), cmds) }

  function GotoDoing(b: Backend, a: Action, to: State): Row { Row(a, b.(state := to), []) }

  const ACTIVATE_CMDS: seq<Cmd> :=
    [SendPairCheckAck, StartAltStreamReader, StartAltDgReader, StartMonitor, SignalAltReady, SetCryptoDatagram]

  const TEARDOWN_CMDS: seq<Cmd> :=
    [StopAltStreamReader, StopAltDgReader, CloseAltPath, ResetAltReady, StartBackoffTimer]

  /** The updates and commands of every edge that gives the alternate path up. */
  function Fallback(b: Backend, stops: seq<Cmd>): Row {
    Row(FallbackToRelay,
        b.(state := RelayBackoff, activePath := Relay, dispatcherPath := Relay, monitorTarget := NoTarget,
           altSignal := Pending, pingFailures := 0),
        stops + TEARDOWN_CMDS)
  }

  function DataRow(b: Backend, ev: Event): Row {
    if ev.AppSend? then Goto(b, b.state, [WriteActiveStream])
    else if ev.RelayStreamData? then Goto(b, b.state, [DeliverRecv])
    else if ev.RelayStreamError? then Goto(b, b.state, [DeliverRecvError])
    else if ev.AppSendDatagram? then Goto(b, b.state, [SendActiveDatagram])
    else if ev.RelayDatagram? then Goto(b, b.state, [DeliverRecvDatagram])
    else NoRow
  }

  function AltDataRow(b: Backend, ev: Event): Row {
    if ev.AltStreamData? then Goto(b, b.state, [DeliverRecv])
    else if ev.AltDatagram? then Goto(b, b.state, [DeliverRecvDatagram])
    else DataRow(b, ev)
  }

  function PairingRow(b: Backend, ev: Event, holds: set<Guard>): Row {
    if b.state.Idle? then if ev.CliInitPair? then GotoDoing(b, GenerateTokenAction, GenerateToken) else NoRow
    else if b.state.GenerateToken? then if ev.TokenCreated? then GotoDoing(b, RegisterRelayAction, RegisterRelay) else NoRow
    else if b.state.RegisterRelay? then if ev.RelayRegistered? then Goto(b, WaitingForClient, []) else NoRow
    else if b.state.WaitingForClient? then
      if ev.RecvPairHello? && TokenValid in holds then GotoDoing(b, DeriveSecretAction, DeriveSecret)
      else if ev.RecvPairHello? && TokenInvalid in holds then Goto(b, Idle, [])
      else NoRow
    else if b.state.DeriveSecret? then if ev.EcdhComplete? then Goto(b, SendAck, []) else NoRow
    else if b.state.SendAck? then if ev.SignalCodeDisplay? then Goto(b, WaitingForCode, []) else NoRow
    else if b.state.WaitingForCode? then if ev.CliCodeEntered? then Goto(b, ValidateCode, []) else NoRow
    else if b.state.ValidateCode? then
      if ev.CheckCode? && CodeCorrect in holds then Goto(b, StorePaired, [])
      else if ev.CheckCode? && CodeWrong in holds then Goto(b, Idle, [])
      else NoRow
    else if b.state.StorePaired? then if ev.Finalise? then GotoDoing(b, StoreDevice, Paired) else NoRow
    else if b.state.Paired? then if ev.RecvAuthRequest? then Goto(b, AuthCheck, []) else NoRow
    else if b.state.AuthCheck? then
      if ev.Verify? && DeviceKnown in holds then GotoDoing(b, VerifyDevice, SessionActive)
      else if ev.Verify? && DeviceUnknown in holds then Goto(b, Idle, [])
      else NoRow
    else if b.state.SessionActive? then if ev.SessionEstablished? then Goto(b, RelayConnected, []) else NoRow
    else NoRow
  }

  function RelayRow(b: Backend, ev: Event, holds: set<Guard>): Row {
    if ev.CandidatesGathered? then Goto(b, CandidatesAdvertised, [SendCandidates])
    else if ev.CandidatesRefreshTick? then
      if LocalCandidatesAvailable in holds then Goto(b, CandidatesAdvertised, [SendCandidates]) else NoRow
    else if ev.Disconnect? then Goto(b, Paired, [])
    else DataRow(b, ev)
  }

  function AdvertisedRow(b: Backend, ev: Event, holds: set<Guard>): Row {
    if ev.RecvPairCheck? then
      if ChallengeValid in holds then
        Row(ActivateLan,
            Backend(AltActive, 0, 0, Alt, Alt, AltTarget, Ready),
            ACTIVATE_CMDS)
      else if ChallengeInvalid in holds then Goto(b, RelayConnected, [])
      else NoRow
    else if ev.CandidatesTimeout? then Goto(b.(altSignal := Pending), RelayBackoff, [ResetAltReady, StartBackoffTimer])
    else if ev.AppForceFallback? then Goto(b.(altSignal := Pending), RelayConnected, [ResetAltReady])
    else DataRow(b, ev)
  }

  function ActiveRow(b: Backend, ev: Event): Row {
    if ev.PingTick? then Goto(b, AltActive, [SendPathPing, StartPongTimeout])
    else if ev.PingTimeout? then Goto(b.(pingFailures := 1), AltDegraded, [])
    else if ev.AltStreamError? then Fallback(b, [StopMonitor])
    else if ev.AppForceFallback? then Fallback(b, [StopMonitor, CancelPongTimeout])
    else AltDataRow(b, ev)
  }

  function DegradedRow(b: Backend, ev: Event, holds: set<Guard>): Row {
    if ev.PingTick? then Goto(b, AltDegraded, [SendPathPing, StartPongTimeout])
    else if ev.RecvPathPong? then Row(ResetFailures, b.(state := AltActive, pingFailures := 0), [CancelPongTimeout])
    else if ev.PingTimeout? then
      if UnderMaxFailures in holds then Goto(b.(pingFailures := b.pingFailures + 1), AltDegraded, [])
      else if AtMaxFailures in holds then Fallback(b, [StopMonitor])
      else NoRow
    else if ev.AltStreamError? then Fallback(b, [StopMonitor])
    else if ev.AppForceFallback? then Fallback(b, [StopMonitor, CancelPongTimeout])
    else AltDataRow(b, ev)
  }

  function BackoffRow(b: Backend, ev: Event): Row {
    if ev.BackoffExpired? then Goto(b, CandidatesAdvertised, [SendCandidates])
    else if ev.CandidatesChanged? then Goto(b.(backoffLevel := 0), CandidatesAdvertised, [SendCandidates])
    else DataRow(b, ev)
  }

  function RowFor(b: Backend, ev: Event, holds: set<Guard>): Row {
    if b.state.RelayConnected? then RelayRow(b, ev, holds)
    else if b.state.CandidatesAdvertised? then AdvertisedRow(b, ev, holds)
    else if b.state.AltActive? then ActiveRow(b, ev)
    else if b.state.AltDegraded? then DegradedRow(b, ev, holds)
    else if b.state.RelayBackoff? then BackoffRow(b, ev)
    else PairingRow(b, ev, holds)
  }

  /** A failing action abandons the row: nothing changes and no command is issued. */
  function Perform(b: Backend, row: Row, failing: set<Action>): Reply {
    match row
    case NoRow => Reply(b, [], false)
    case Row(a, after, cmds) => if a != NoAction && a in failing then Reply(b, [], true) else Reply(after, cmds, false)
  }

  function OnEvent(b: Backend, inp: Input): Reply { Perform(b, RowFor(b, inp.event, inp.holds), inp.failing) }

  // ------------------------------------------------------------------
  // The commands agree with the state, over every run
  // ------------------------------------------------------------------

  predicate OnAlt(s: State) { s.AltActive? || s.AltDegraded? }

  /** The path fields as a function of whether the alternate path is in use. */
  predicate FieldsAgree(b: Backend) {
    && (b.activePath == Alt <==> OnAlt(b.state))
    && (b.dispatcherPath == Alt <==> OnAlt(b.state))
    && (b.monitorTarget == AltTarget <==> OnAlt(b.state))
    && (b.altSignal == Ready <==> OnAlt(b.state))
  }

  predicate RunningAgrees(b: Backend, r: Running) { r == if OnAlt(b.state) then ALL_ON else ALL_OFF }

  ghost predicate Run(ms: seq<Backend>, rs: seq<Running>, ins: seq<Input>) {
    && |ms| == |rs| == |ins| + 1
    && ms[0] == INITIAL && rs[0] == ALL_OFF
    && forall i :: 0 <= i < |ins| ==> Advances(ms[i], rs[i], ins[i], ms[i + 1], rs[i + 1])
  }

  predicate Advances(b: Backend, r: Running, inp: Input, b': Backend, r': Running) {
    b' == OnEvent(b, inp).machine && r' == ObeyAll(r, OnEvent(b, inp).cmds)
  }

  lemma ObeyTeardown(r: Running)
    ensures ObeyAll(r, [StopMonitor] + TEARDOWN_CMDS) == ALL_OFF
    ensures ObeyAll(r, [StopMonitor, CancelPongTimeout] + TEARDOWN_CMDS) == ALL_OFF
  {
  }

  lemma ObeyActivate(r: Running)
    ensures ObeyAll(r, ACTIVATE_CMDS) == ALL_ON
  {
  }

  /** What a row does to the tracked activities, told from which side of the alternate path it joins. */
  predicate Shape(from: State, row: Row) {
    row.Row? ==>
      if OnAlt(from) then
        if OnAlt(row.after.state) then Quiet(row.cmds)
        else row.cmds == [StopMonitor] + TEARDOWN_CMDS || row.cmds == [StopMonitor, CancelPongTimeout] + TEARDOWN_CMDS
      else
        if OnAlt(row.after.state) then row.cmds == ACTIVATE_CMDS
        else Quiet(row.cmds) || row.cmds == [ResetAltReady] || row.cmds == [ResetAltReady, StartBackoffTimer]
  }

  lemma PairingShape(b: Backend, ev: Event, holds: set<Guard>)
    requires !OnAlt(b.state)
    ensures Shape(b.state, PairingRow(b, ev, holds))
  {
  }

  lemma RelayShape(b: Backend, ev: Event, holds: set<Guard>)
    requires !OnAlt(b.state)
    ensures Shape(b.state, RelayRow(b, ev, holds))
  {
  }

  lemma BackoffShape(b: Backend, ev: Event)
    requires !OnAlt(b.state)
    ensures Shape(b.state, BackoffRow(b, ev))
  {
  }

  lemma AdvertisedShape(b: Backend, ev: Event, holds: set<Guard>)
    requires !OnAlt(b.state)
    ensures Shape(b.state, AdvertisedRow(b, ev, holds))
  {
  }

  lemma DataShape(b: Backend, ev: Event)
    ensures var row := AltDataRow(b, ev); row.Row? ==> row.after.state == b.state && Quiet(row.cmds)
  {
  }

  lemma ActiveShape(b: Backend, ev: Event)
    requires OnAlt(b.state)
    ensures Shape(b.state, ActiveRow(b, ev))
  {
    DataShape(b, ev);
  }

  lemma DegradedShape(b: Backend, ev: Event, holds: set<Guard>)
    requires OnAlt(b.state)
    ensures Shape(b.state, DegradedRow(b, ev, holds))
  {
    DataShape(b, ev);
  }

  lemma Shapes(b: Backend, ev: Event, holds: set<Guard>)
    ensures Shape(b.state, RowFor(b, ev, holds))
  {
    if OnAlt(b.state) {
      ActiveShape(b, ev);
      DegradedShape(b, ev, holds);
    } else {
      PairingShape(b, ev, holds);
      RelayShape(b, ev, holds);
      BackoffShape(b, ev);
      AdvertisedShape(b, ev, holds);
    }
  }

  lemma ShapeKeeps(b: Backend, r: Running, row: Row, failing: set<Action>)
    requires RunningAgrees(b, r) && Shape(b.state, row)
    ensures var reply := Perform(b, row, failing); RunningAgrees(reply.machine, ObeyAll(r, reply.cmds))
  {
    if row.Row? && Perform(b, row, failing) == Reply(row.after, row.cmds, false) {
      if Quiet(row.cmds) { ObeyQuiet(r, row.cmds); }
      if OnAlt(b.state) { ObeyTeardown(r); } else { ObeyActivate(r); ObeyReset(r); }
    }
  }

  /** Obeying the commands of one event keeps what is running in step with the state. */
  lemma RunningKept(b: Backend, r: Running, inp: Input)
    requires RunningAgrees(b, r)
    ensures RunningAgrees(OnEvent(b, inp).machine, ObeyAll(r, OnEvent(b, inp).cmds))
  {
    Shapes(b, inp.event, inp.holds);
    ShapeKeeps(b, r, RowFor(b, inp.event, inp.holds), inp.failing);
  }

  lemma ObeyReset(r: Running)
    ensures ObeyAll(r, [ResetAltReady]) == r.(altReady := false)
    ensures ObeyAll(r, [ResetAltReady, StartBackoffTimer]) == r.(altReady := false)
  {
  }

  lemma FieldsKept(b: Backend, inp: Input)
    requires FieldsAgree(b)
    ensures FieldsAgree(OnEvent(b, inp).machine)
  {
    RowFields(b, inp.event, inp.holds);
  }

  predicate RowAgrees(row: Row) { row.Row? ==> FieldsAgree(row.after) }

  lemma RowFields(b: Backend, ev: Event, holds: set<Guard>)
    requires FieldsAgree(b)
    ensures RowAgrees(RowFor(b, ev, holds))
  {
    if OnAlt(b.state) { AltFields(b, ev, holds); } else { RelayFields(b, ev, holds); AdvertisedFields(b, ev, holds); PairingFields(b, ev, holds); }
  }

  lemma AltFields(b: Backend, ev: Event, holds: set<Guard>)
    requires FieldsAgree(b) && OnAlt(b.state)
    ensures RowAgrees(ActiveRow(b, ev)) && RowAgrees(DegradedRow(b, ev, holds))
  {
  }

  lemma RelayFields(b: Backend, ev: Event, holds: set<Guard>)
    requires FieldsAgree(b) && !OnAlt(b.state)
    ensures RowAgrees(RelayRow(b, ev, holds)) && RowAgrees(BackoffRow(b, ev))
  {
  }

  lemma AdvertisedFields(b: Backend, ev: Event, holds: set<Guard>)
    requires FieldsAgree(b) && !OnAlt(b.state)
    ensures RowAgrees(AdvertisedRow(b, ev, holds))
  {
  }

  lemma PairingFields(b: Backend, ev: Event, holds: set<Guard>)
    requires FieldsAgree(b) && !OnAlt(b.state)
    ensures RowAgrees(PairingRow(b, ev, holds))
  {
  }

  /**
   After any run, whatever the guards answered and whichever actions failed, the
   monitor, both alt readers and the alt-ready signal are all on when the state is
   AltActive or AltDegraded and all off otherwise, and the four path fields say the same.
   */
  lemma {:induction false} CommandsMatchState(ms: seq<Backend>, rs: seq<Running>, ins: seq<Input>, k: nat)
    requires Run(ms, rs, ins) && k < |ms|
    ensures FieldsAgree(ms[k]) && RunningAgrees(ms[k], rs[k])
  {
    if k > 0 {
      CommandsMatchState(ms, rs, ins, k - 1);
      assert Advances(ms[k - 1], rs[k - 1], ins[k - 1], ms[k], rs[k]);
      RunningKept(ms[k - 1], rs[k - 1], ins[k - 1]);
      FieldsKept(ms[k - 1], ins[k - 1]);
    }
  }

  // ------------------------------------------------------------------
  // Application traffic
  // ------------------------------------------------------------------

  predicate AltTraffic(ev: Event) { ev.AltStreamData? || ev.AltDatagram? }

  predicate Traffic(ev: Event) {
    || ev.AppSend? || ev.AppSendDatagram? || ev.RelayStreamData? || ev.RelayStreamError? || ev.RelayDatagram?
    || AltTraffic(ev)
  }

  /** The one command that handles a traffic event. */
  function TrafficCmd(ev: Event): Cmd
    requires Traffic(ev)
  {
    if ev.AppSend? then WriteActiveStream
    else if ev.AppSendDatagram? then SendActiveDatagram
    else if ev.RelayStreamError? then DeliverRecvError
    else if ev.RelayStreamData? || ev.AltStreamData? then DeliverRecv
    else DeliverRecvDatagram
  }

  predicate IsTrafficCmd(c: Cmd) {
    c == WriteActiveStream || c == SendActiveDatagram || c == DeliverRecv || c == DeliverRecvError || c == DeliverRecvDatagram
  }

  predicate Connected(s: State) { OnAlt(s) || s.RelayConnected? || s.CandidatesAdvertised? || s.RelayBackoff? }

  predicate MayCarry(s: State, ev: Event) { if AltTraffic(ev) then OnAlt(s) else Connected(s) }

  /** No other event touches traffic. */
  predicate Silences(row: Row) { row.Row? ==> forall i :: 0 <= i < |row.cmds| ==> !IsTrafficCmd(row.cmds[i]) }

  /** What a state's row must be on an event: the traffic command in place, nothing, or something silent. */
  predicate TrafficRow(b: Backend, ev: Event, row: Row, carries: bool) {
    if !Traffic(ev) then Silences(row)
    else row == if carries then Row(NoAction, b, [TrafficCmd(ev)]) else NoRow
  }

  lemma TrafficInPairing(b: Backend, ev: Event, holds: set<Guard>)
    ensures TrafficRow(b, ev, PairingRow(b, ev, holds), false)
  {
  }

  lemma TrafficOnRelay(b: Backend, ev: Event, holds: set<Guard>)
    ensures TrafficRow(b, ev, RelayRow(b, ev, holds), !AltTraffic(ev))
    ensures TrafficRow(b, ev, BackoffRow(b, ev), !AltTraffic(ev))
  {
  }

  lemma TrafficAdvertised(b: Backend, ev: Event, holds: set<Guard>)
    ensures TrafficRow(b, ev, AdvertisedRow(b, ev, holds), !AltTraffic(ev))
  {
  }

  lemma TrafficData(b: Backend, ev: Event)
    ensures AltDataRow(b, ev) == if Traffic(ev) then Row(NoAction, b, [TrafficCmd(ev)]) else NoRow
  {
  }

  lemma TrafficWhileActive(b: Backend, ev: Event)
    requires b.state.AltActive?
    ensures TrafficRow(b, ev, ActiveRow(b, ev), true)
  {
    TrafficData(b, ev);
  }

  lemma TrafficWhileDegraded(b: Backend, ev: Event, holds: set<Guard>)
    requires b.state.AltDegraded?
    ensures TrafficRow(b, ev, DegradedRow(b, ev, holds), true)
  {
    TrafficData(b, ev);
  }

  lemma TrafficRows(b: Backend, ev: Event, holds: set<Guard>)
    ensures TrafficRow(b, ev, RowFor(b, ev, holds), Traffic(ev) && MayCarry(b.state, ev))
  {
    if b.state.AltActive? { TrafficWhileActive(b, ev); }
    else if b.state.AltDegraded? { TrafficWhileDegraded(b, ev, holds); }
    else if b.state.CandidatesAdvertised? { TrafficAdvertised(b, ev, holds); }
    else if b.state.RelayConnected? || b.state.RelayBackoff? { TrafficOnRelay(b, ev, holds); }
    else { TrafficInPairing(b, ev, holds); }
  }

  /**
   In every connected state each traffic event is answered by its one command and nothing else,
   alternate-path traffic only on that path; no other event issues a traffic command.
   */
  lemma TrafficPasses(b: Backend, inp: Input)
    ensures Traffic(inp.event) ==>
              OnEvent(b, inp) == Reply(b, if MayCarry(b.state, inp.event) then [TrafficCmd(inp.event)] else [], false)
    ensures !Traffic(inp.event) ==>
              forall i :: 0 <= i < |OnEvent(b, inp).cmds| ==> !IsTrafficCmd(OnEvent(b, inp).cmds[i])
  {
    TrafficRows(b, inp.event, inp.holds);
  }
}
