/**
 The client's session machine. New candidates re-dial straight out of AltActive
 without touching the path fields, so those can lag behind the state.
 */
module ClientPath {
  import opened SessionCommands

  datatype State =
    | Idle | ObtainBackchannelSecret | ConnectRelay | GenKeyPair | WaitAck | E2EReady | ShowCode | WaitPairComplete
    | Paired | Reconnect | SendAuth | SessionActive
    | RelayConnected | PairDialing | PairChecking | AltActive | RelayFallback

  datatype Event =
    | BackchannelReceived | SecretParsed | RelayConnectedEvent | KeyPairGenerated | RecvPairHelloAck | RecvPairConfirm
    | CodeDisplayed | RecvPairComplete | AppLaunch | RecvAuthOk | SessionEstablished
    | RecvCandidates | DialOk | DialFailed | RecvPairCheckAck | VerifyTimeout | RecvPathPing
    | AltError | AltStreamError | RelayOk | AppForceFallback | Disconnect
    | AppSend | RelayStreamData | RelayStreamError | AppSendDatagram | RelayDatagram | AltStreamData | AltDatagram

  datatype Guard = AltEnabled | AltDisabled

  datatype Action = NoAction | SendPairHello | DeriveSecret | StoreSecret | DialCandidateAction | ActivateLan | FallbackToRelay

  datatype Client = Client(state: State, activePath: Carrier, dispatcherPath: Carrier, altSignal: Signal)

  const INITIAL := Client(Idle, Relay, Relay, Pending)

  datatype Input = Input(event: Event, holds: set<Guard>, failing: set<Action>)

  datatype Row = NoRow | Row(action: Action, after: Client, cmds: seq<Cmd>)

  datatype Reply = Reply(machine: Client, cmds: seq<Cmd>, err: bool)

  const CLOSE_CMDS: seq<Cmd> := [StopAltStreamReader, StopAltDgReader, CloseAltPath]

  const ACTIVATE_CMDS: seq<Cmd> := [StartAltStreamReader, StartAltDgReader, SignalAltReady, SetCryptoDatagram]

  function Goto(c: Client, to: State, cmds: seq<Cmd>): Row { Row(NoAction, c.(state := to), cmds) }

  function Fallback(c: Client, to: State): Row {
    Row(FallbackToRelay, Client(to, Relay, Relay, Pending), CLOSE_CMDS + [ResetAltReady])
  }

  function DataRow(c: Client, ev: Event): Row {
    if ev.AppSend? then Goto(c, c.state, [WriteActiveStream])
    else if ev.RelayStreamData? then Goto(c, c.state, [DeliverRecv])
    else if ev.RelayStreamError? then Goto(c, c.state, [DeliverRecvError])
    else if ev.AppSendDatagram? then Goto(c, c.state, [SendActiveDatagram])
    else if ev.RelayDatagram? then Goto(c, c.state, [DeliverRecvDatagram])
    else NoRow
  }

  function AltDataRow(c: Client, ev: Event): Row {
    if ev.AltStreamData? then Goto(c, c.state, [DeliverRecv])
    else if ev.AltDatagram? then Goto(c, c.state, [DeliverRecvDatagram])
    else DataRow(c, ev)
  }

  function PairingRow(c: Client, ev: Event): Row {
    if c.state.Idle? && ev.BackchannelReceived? then Goto(c, ObtainBackchannelSecret, [])
    else if c.state.ObtainBackchannelSecret? && ev.SecretParsed? then Goto(c, ConnectRelay, [])
    else if c.state.ConnectRelay? && ev.RelayConnectedEvent? then Goto(c, GenKeyPair, [])
    else if c.state.GenKeyPair? && ev.KeyPairGenerated? then Row(SendPairHello, c.(state := WaitAck), [])
    else if c.state.WaitAck? && ev.RecvPairHelloAck? then Row(DeriveSecret, c.(state := E2EReady), [])
    else if c.state.E2EReady? && ev.RecvPairConfirm? then Goto(c, ShowCode, [])
    else if c.state.ShowCode? && ev.CodeDisplayed? then Goto(c, WaitPairComplete, [])
    else if c.state.WaitPairComplete? && ev.RecvPairComplete? then Row(StoreSecret, c.(state := Paired), [])
    else if c.state.Paired? && ev.AppLaunch? then Goto(c, Reconnect, [])
    else if c.state.Reconnect? && ev.RelayConnectedEvent? then Goto(c, SendAuth, [])
    else if c.state.SendAuth? && ev.RecvAuthOk? then Goto(c, SessionActive, [])
    else if c.state.SessionActive? && ev.SessionEstablished? then Goto(c, RelayConnected, [])
    else NoRow
  }

  function RelayRow(c: Client, ev: Event, holds: set<Guard>): Row {
    if ev.RecvCandidates? && AltEnabled in holds then Row(DialCandidateAction, c.(state := PairDialing), [DialCandidate])
    else if ev.RecvCandidates? && AltDisabled in holds then Goto(c, RelayConnected, [])
    else if ev.Disconnect? then Goto(c, Paired, [])
    else DataRow(c, ev)
  }

  function DialingRow(c: Client, ev: Event): Row {
    if ev.DialOk? then Goto(c, PairChecking, [SendPairCheck])
    else if ev.DialFailed? || ev.AppForceFallback? then Goto(c, RelayConnected, [])
    else DataRow(c, ev)
  }

  function CheckingRow(c: Client, ev: Event): Row {
    if ev.RecvPairCheckAck? then Row(ActivateLan, Client(AltActive, Alt, Alt, Ready), ACTIVATE_CMDS)
    else if ev.VerifyTimeout? then Goto(c.(dispatcherPath := Relay), RelayConnected, [])
    else if ev.AppForceFallback? then Goto(c.(dispatcherPath := Relay), RelayConnected, CLOSE_CMDS)
    else DataRow(c, ev)
  }

  function ActiveRow(c: Client, ev: Event, holds: set<Guard>): Row {
    if ev.RecvPathPing? then Goto(c, AltActive, [SendPathPong])
    else if ev.AltError? || ev.AltStreamError? then Fallback(c, RelayFallback)
    else if ev.RecvCandidates? && AltEnabled in holds then
      Row(DialCandidateAction, c.(state := PairDialing), CLOSE_CMDS + [DialCandidate])
    else if ev.AppForceFallback? then Fallback(c, RelayConnected)
    else AltDataRow(c, ev)
  }

  function FallbackRow(c: Client, ev: Event): Row {
    if ev.RelayOk? then Goto(c, RelayConnected, []) else DataRow(c, ev)
  }

  function RowFor(c: Client, ev: Event, holds: set<Guard>): Row {
    if c.state.RelayConnected? then RelayRow(c, ev, holds)
    else if c.state.PairDialing? then DialingRow(c, ev)
    else if c.state.PairChecking? then CheckingRow(c, ev)
    else if c.state.AltActive? then ActiveRow(c, ev, holds)
    else if c.state.RelayFallback? then FallbackRow(c, ev)
    else PairingRow(c, ev)
  }

  function Perform(c: Client, row: Row, failing: set<Action>): Reply {
    match row
    case NoRow => Reply(c, [], false)
    case Row(a, after, cmds) => if a != NoAction && a in failing then Reply(c, [], true) else Reply(after, cmds, false)
  }

  function OnEvent(c: Client, inp: Input): Reply { Perform(c, RowFor(c, inp.event, inp.holds), inp.failing) }

  // ------------------------------------------------------------------
  // Readers, signal and fields over every run
  // ------------------------------------------------------------------

  /** Both readers run exactly in AltActive; the signal is up exactly when the field says so. */
  predicate RunningAgrees(c: Client, r: Running) {
    r == Running(false, c.state.AltActive?, c.state.AltActive?, c.altSignal == Ready)
  }

  predicate FieldsAgree(c: Client) {
    && (c.activePath == Alt <==> c.altSignal == Ready)
    && (c.dispatcherPath == Alt ==> c.activePath == Alt)
    && (c.state.AltActive? ==> c.dispatcherPath == Alt)
  }

  ghost predicate Run(cs: seq<Client>, rs: seq<Running>, ins: seq<Input>) {
    && |cs| == |rs| == |ins| + 1
    && cs[0] == INITIAL && rs[0] == ALL_OFF
    && forall i :: 0 <= i < |ins| ==> StepAt(cs, rs, ins, i)
  }

  predicate StepAt(cs: seq<Client>, rs: seq<Running>, ins: seq<Input>, i: int)
    requires |cs| == |rs| == |ins| + 1 && 0 <= i < |ins|
  {
    var reply := OnEvent(cs[i], ins[i]);
    cs[i + 1] == reply.machine && rs[i + 1] == ObeyAll(rs[i], reply.cmds)
  }

  /** What a row does, told by the states it joins. */
  predicate Shape(c: Client, row: Row) {
    row.Row? ==>
      if c.state.AltActive? && !row.after.state.AltActive? then
        || (row.cmds == CLOSE_CMDS + [ResetAltReady] && row.after == Client(row.after.state, Relay, Relay, Pending))
        || (row.cmds == CLOSE_CMDS + [DialCandidate] && row.after == c.(state := row.after.state))
      else if !c.state.AltActive? && row.after.state.AltActive? then
        row.cmds == ACTIVATE_CMDS && row.after == Client(AltActive, Alt, Alt, Ready)
      else
        && (Quiet(row.cmds) || (!c.state.AltActive? && row.cmds == CLOSE_CMDS))
        && (row.after == c.(state := row.after.state) || (!c.state.AltActive? && row.after == c.(state := row.after.state, dispatcherPath := Relay)))
  }

  lemma DataShape(c: Client, ev: Event)
    ensures var row := DataRow(c, ev); row.Row? ==> row.after == c && Quiet(row.cmds)
    ensures var row := AltDataRow(c, ev); row.Row? ==> row.after == c && Quiet(row.cmds)
  {
  }

  lemma ActiveShape(c: Client, ev: Event, holds: set<Guard>)
    requires c.state.AltActive?
    ensures Shape(c, ActiveRow(c, ev, holds))
  {
    DataShape(c, ev);
  }

  lemma RelayShapes(c: Client, ev: Event, holds: set<Guard>)
    requires !c.state.AltActive?
    ensures Shape(c, RelayRow(c, ev, holds))
    ensures Shape(c, FallbackRow(c, ev))
  {
    DataShape(c, ev);
  }

  lemma PairingShape(c: Client, ev: Event)
    requires !c.state.AltActive?
    ensures Shape(c, PairingRow(c, ev))
  {
  }

  lemma CheckShapes(c: Client, ev: Event)
    requires !c.state.AltActive?
    ensures Shape(c, DialingRow(c, ev))
    ensures Shape(c, CheckingRow(c, ev))
  {
    DataShape(c, ev);
  }

  lemma Shapes(c: Client, ev: Event, holds: set<Guard>)
    ensures Shape(c, RowFor(c, ev, holds))
  {
    if c.state.AltActive? { ActiveShape(c, ev, holds); } else { RelayShapes(c, ev, holds); PairingShape(c, ev); CheckShapes(c, ev); }
  }

  lemma ObeyClose(r: Running, last: Cmd)
    ensures ObeyAll(r, CLOSE_CMDS) == r.(streamReader := false, dgReader := false)
    ensures ObeyAll(r, CLOSE_CMDS + [last]) == Obey(r.(streamReader := false, dgReader := false), last)
  {
    ObeyConcat(r, CLOSE_CMDS, [last]);
  }

  lemma ObeyActivate(r: Running)
    ensures ObeyAll(r, ACTIVATE_CMDS) == r.(streamReader := true, dgReader := true, altReady := true)
  {
  }

  lemma LeavingKeeps(c: Client, r: Running, row: Row)
    requires RunningAgrees(c, r) && FieldsAgree(c) && Shape(c, row) && row.Row?
    requires c.state.AltActive? && !row.after.state.AltActive?
    ensures RunningAgrees(row.after, ObeyAll(r, row.cmds)) && FieldsAgree(row.after)
  {
    if row.cmds == CLOSE_CMDS + [ResetAltReady] { ObeyClose(r, ResetAltReady); }
    if row.cmds == CLOSE_CMDS + [DialCandidate] { ObeyClose(r, DialCandidate); }
  }

  lemma StayingKeeps(c: Client, r: Running, row: Row)
    requires RunningAgrees(c, r) && FieldsAgree(c) && Shape(c, row) && row.Row?
    requires c.state.AltActive? <==> row.after.state.AltActive?
    ensures RunningAgrees(row.after, ObeyAll(r, row.cmds)) && FieldsAgree(row.after)
  {
    if Quiet(row.cmds) { ObeyQuiet(r, row.cmds); } else { ObeyClose(r, DialCandidate); }
  }

  lemma ShapeKeeps(c: Client, r: Running, row: Row, failing: set<Action>)
    requires RunningAgrees(c, r) && FieldsAgree(c) && Shape(c, row)
    ensures var reply := Perform(c, row, failing);
            RunningAgrees(reply.machine, ObeyAll(r, reply.cmds)) && FieldsAgree(reply.machine)
  {
    if row.Row? {
      if c.state.AltActive? && !row.after.state.AltActive? { LeavingKeeps(c, r, row); }
      else if !c.state.AltActive? && row.after.state.AltActive? { ObeyActivate(r); }
      else { StayingKeeps(c, r, row); }
    }
  }

  /** The state that is left when the client abandons AltActive to re-dial. */
  predicate Redials(c: Client, inp: Input, c': Client) {
    c.state.AltActive? && !c'.state.AltActive? && inp.event.RecvCandidates?
  }

  /** AltActive was last left by a re-dial, and not entered since. */
  ghost predicate Stale(cs: seq<Client>, ins: seq<Input>, k: nat)
    requires |cs| == |ins| + 1 && k < |cs|
  {
    && k > 0 && !cs[k].state.AltActive?
    && (if cs[k - 1].state.AltActive? then Redials(cs[k - 1], ins[k - 1], cs[k]) else Stale(cs, ins, k - 1))
  }

  /** Leaving PairChecking without an acknowledgement puts the dispatcher back on the relay. */
  predicate Unbinds(c: Client, inp: Input) {
    c.state.PairChecking? && (inp.event.VerifyTimeout? || inp.event.AppForceFallback?)
  }

  /** Stale, and no pair check given up since. */
  ghost predicate StaleDispatcher(cs: seq<Client>, ins: seq<Input>, k: nat)
    requires |cs| == |ins| + 1 && k < |cs|
  {
    && k > 0 && !cs[k].state.AltActive? && !Unbinds(cs[k - 1], ins[k - 1])
    && (if cs[k - 1].state.AltActive? then Redials(cs[k - 1], ins[k - 1], cs[k]) else StaleDispatcher(cs, ins, k - 1))
  }

  /** One step's effect on the two path fields. */
  predicate FieldStep(c: Client, inp: Input, c': Client) {
    if c'.state.AltActive? then c'.activePath == Alt && c'.dispatcherPath == Alt
    else if c.state.AltActive? then
      if Redials(c, inp, c') then c'.activePath == c.activePath && c'.dispatcherPath == c.dispatcherPath
      else c'.activePath == Relay && c'.dispatcherPath == Relay
    else
      c'.activePath == c.activePath && c'.dispatcherPath == if Unbinds(c, inp) then Relay else c.dispatcherPath
  }

  lemma FieldSteps(c: Client, inp: Input)
    requires FieldsAgree(c)
    ensures FieldStep(c, inp, OnEvent(c, inp).machine)
  {
    if c.state.AltActive? { ActiveFieldSteps(c, inp); } else { OtherFieldSteps(c, inp); }
  }

  lemma ActiveFieldSteps(c: Client, inp: Input)
    requires FieldsAgree(c) && c.state.AltActive?
    ensures FieldStep(c, inp, Perform(c, ActiveRow(c, inp.event, inp.holds), inp.failing).machine)
  {
    DataShape(c, inp.event);
  }

  lemma OtherFieldSteps(c: Client, inp: Input)
    requires !c.state.AltActive?
    ensures FieldStep(c, inp, Perform(c, RowFor(c, inp.event, inp.holds), inp.failing).machine)
  {
    DataShape(c, inp.event);
  }

  lemma StepKeeps(c: Client, r: Running, inp: Input)
    requires RunningAgrees(c, r) && FieldsAgree(c)
    ensures var reply := OnEvent(c, inp);
            RunningAgrees(reply.machine, ObeyAll(r, reply.cmds)) && FieldsAgree(reply.machine)
  {
    Shapes(c, inp.event, inp.holds);
    ShapeKeeps(c, r, RowFor(c, inp.event, inp.holds), inp.failing);
  }

  lemma {:induction false} RunOk(cs: seq<Client>, rs: seq<Running>, ins: seq<Input>, k: nat)
    requires Run(cs, rs, ins) && k < |cs|
    ensures FieldsAgree(cs[k]) && RunningAgrees(cs[k], rs[k])
  {
    if k > 0 {
      RunOk(cs, rs, ins, k - 1);
      assert StepAt(cs, rs, ins, k - 1);
      StepKeeps(cs[k - 1], rs[k - 1], ins[k - 1]);
    }
  }

  /**
   Over any run the alt readers run exactly in AltActive, and the alt-ready signal is
   up exactly when the active path is the alternate one.
   */
  lemma ReadersMatchState(cs: seq<Client>, rs: seq<Running>, ins: seq<Input>, k: nat)
    requires Run(cs, rs, ins) && k < |cs|
    ensures rs[k].streamReader <==> cs[k].state.AltActive?
    ensures rs[k].dgReader <==> cs[k].state.AltActive?
    ensures rs[k].altReady <==> cs[k].activePath == Alt
    ensures rs[k].altReady <==> cs[k].altSignal == Ready
    ensures cs[k].dispatcherPath == Alt ==> cs[k].activePath == Alt
    ensures cs[k].state.AltActive? ==> cs[k].activePath == Alt && cs[k].dispatcherPath == Alt
  {
    RunOk(cs, rs, ins, k);
  }

  /**
   The path fields name the alternate path outside AltActive exactly while the last
   departure from AltActive was a re-dial; the dispatcher recovers earlier, when a
   pair check is given up.
   */
  lemma {:induction false} StaleExactlyAfterRedial(cs: seq<Client>, rs: seq<Running>, ins: seq<Input>, k: nat)
    requires Run(cs, rs, ins) && k < |cs|
    ensures cs[k].activePath == Alt <==> cs[k].state.AltActive? || Stale(cs, ins, k)
    ensures cs[k].dispatcherPath == Alt <==> cs[k].state.AltActive? || StaleDispatcher(cs, ins, k)
  {
    if k > 0 {
      StaleExactlyAfterRedial(cs, rs, ins, k - 1);
      RunOk(cs, rs, ins, k - 1);
      assert StepAt(cs, rs, ins, k - 1);
      FieldSteps(cs[k - 1], ins[k - 1]);
    }
  }

  /** A re-dial that fails leaves a relayed client whose fields and signal still name the alternate path. */
  lemma RedialExample(c: Client)
    requires c == Client(AltActive, Alt, Alt, Ready)
    ensures var dialing := OnEvent(c, Input(RecvCandidates, {AltEnabled}, {})).machine;
            OnEvent(dialing, Input(DialFailed, {}, {})) == Reply(Client(RelayConnected, Alt, Alt, Ready), [], false)
  {
  }

  // ------------------------------------------------------------------
  // Application traffic
  // ------------------------------------------------------------------

  predicate AltTraffic(ev: Event) { ev.AltStreamData? || ev.AltDatagram? }

  predicate Traffic(ev: Event) {
    || ev.AppSend? || ev.AppSendDatagram? || ev.RelayStreamData? || ev.RelayStreamError? || ev.RelayDatagram?
    || AltTraffic(ev)
  }

  /** The one command that handles a traffic event. */
  function TrafficCmd(ev: Event): Cmd
    requires Traffic(ev)
  {
    if ev.AppSend? then WriteActiveStream
    else if ev.AppSendDatagram? then SendActiveDatagram
    else if ev.RelayStreamError? then DeliverRecvError
    else if ev.RelayStreamData? || ev.AltStreamData? then DeliverRecv
    else DeliverRecvDatagram
  }

  predicate IsTrafficCmd(c: Cmd) {
    c == WriteActiveStream || c == SendActiveDatagram || c == DeliverRecv || c == DeliverRecvError || c == DeliverRecvDatagram
  }

  predicate Connected(s: State) { s.RelayConnected? || s.PairDialing? || s.PairChecking? || s.AltActive? || s.RelayFallback? }

  predicate MayCarry(s: State, ev: Event) { if AltTraffic(ev) then s.AltActive? else Connected(s) }

  /** No other event touches traffic. */
  predicate Silences(row: Row) { row.Row? ==> forall i :: 0 <= i < |row.cmds| ==> !IsTrafficCmd(row.cmds[i]) }

  /** What a state's row must be on an event: the traffic command in place, nothing, or something silent. */
  predicate TrafficRow(c: Client, ev: Event, row: Row, carries: bool) {
    if !Traffic(ev) then Silences(row)
    else row == if carries then Row(NoAction, c, [TrafficCmd(ev)]) else NoRow
  }

  lemma TrafficInPairing(c: Client, ev: Event)
    ensures TrafficRow(c, ev, PairingRow(c, ev), false)
  {
  }

  lemma TrafficOnRelay(c: Client, ev: Event, holds: set<Guard>)
    ensures TrafficRow(c, ev, RelayRow(c, ev, holds), !AltTraffic(ev))
    ensures TrafficRow(c, ev, FallbackRow(c, ev), !AltTraffic(ev))
  {
  }

  lemma TrafficWhileDialing(c: Client, ev: Event)
    ensures TrafficRow(c, ev, DialingRow(c, ev), !AltTraffic(ev))
    ensures TrafficRow(c, ev, CheckingRow(c, ev), !AltTraffic(ev))
  {
  }

  lemma TrafficOnAlt(c: Client, ev: Event, holds: set<Guard>)
    ensures TrafficRow(c, ev, ActiveRow(c, ev, holds), true)
  {
  }

  lemma TrafficRows(c: Client, ev: Event, holds: set<Guard>)
    ensures TrafficRow(c, ev, RowFor(c, ev, holds), Traffic(ev) && MayCarry(c.state, ev))
  {
    if c.state.AltActive? { TrafficOnAlt(c, ev, holds); }
    else if c.state.PairDialing? || c.state.PairChecking? { TrafficWhileDialing(c, ev); }
    else if c.state.RelayConnected? || c.state.RelayFallback? { TrafficOnRelay(c, ev, holds); }
    else { TrafficInPairing(c, ev); }
  }

  /** As for the backend: one command per traffic event wherever the client is connected, and none elsewhere. */
  lemma TrafficPasses(c: Client, inp: Input)
    ensures Traffic(inp.event) ==>
              OnEvent(c, inp) == Reply(c, if MayCarry(c.state, inp.event) then [TrafficCmd(inp.event)] else [], false)
    ensures !Traffic(inp.event) ==>
              forall i :: 0 <= i < |OnEvent(c, inp).cmds| ==> !IsTrafficCmd(OnEvent(c, inp).cmds[i])
  {
    TrafficRows(c, inp.event, inp.holds);
  }
}
