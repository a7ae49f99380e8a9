/** Commands the session machines hand to their executor, and what those commands keep running. */
module SessionCommands {
  datatype Cmd =
    | SendCandidates | SendPairCheck | SendPairCheckAck | SendPathPing | SendPathPong | DialCandidate
    | StartAltStreamReader | StopAltStreamReader | StartAltDgReader | StopAltDgReader | CloseAltPath
    | StartMonitor | StopMonitor | StartPongTimeout | CancelPongTimeout | StartBackoffTimer
    | SignalAltReady | ResetAltReady | SetCryptoDatagram
    | WriteActiveStream | SendActiveDatagram | DeliverRecv | DeliverRecvError | DeliverRecvDatagram

  datatype Carrier = Relay | Alt
  datatype Target = NoTarget | AltTarget
  datatype Signal = Pending | Ready

  /** What is switched on after some commands: the health monitor, the two alt readers, the alt-ready signal. */
  datatype Running = Running(monitor: bool, streamReader: bool, dgReader: bool, altReady: bool)

  const ALL_OFF := Running(false, false, false, false)
  const ALL_ON := Running(true, true, true, true)

  function Obey(r: Running, c: Cmd): Running {
    match c
    case StartMonitor => r.(monitor := true)
    case StopMonitor => r.(monitor := false)
    case StartAltStreamReader => r.(streamReader := true)
    case StopAltStreamReader => r.(streamReader := false)
    case StartAltDgReader => r.(dgReader := true)
    case StopAltDgReader => r.(dgReader := false)
    case SignalAltReady => r.(altReady := true)
    case ResetAltReady => r.(altReady := false)
    case _ => r
  }

  function ObeyAll(r: Running, cs: seq<Cmd>): Running
    decreases cs
  {
    if cs == [] then r else ObeyAll(Obey(r, cs[0]), cs[1..])
  }

  lemma {:induction false} ObeyConcat(r: Running, a: seq<Cmd>, b: seq<Cmd>)
    ensures ObeyAll(r, a + b) == ObeyAll(ObeyAll(r, a), b)
    decreases a
  {
    if a == [] {
      assert a + b == b;
    } else {
      assert (a + b)[1..] == a[1..] + b;
      ObeyConcat(Obey(r, a[0]), a[1..], b);
    }
  }

  /** Nothing that `Running` tracks is started or stopped by `c`. */
  predicate Untracked(c: Cmd) {
    && !c.StartMonitor? && !c.StopMonitor? && !c.SignalAltReady? && !c.ResetAltReady?
    && !c.StartAltStreamReader? && !c.StopAltStreamReader? && !c.StartAltDgReader? && !c.StopAltDgReader?
  }

  predicate Quiet(cs: seq<Cmd>) { forall i :: 0 <= i < |cs| ==> Untracked(cs[i]) }

  lemma {:induction false} ObeyQuiet(r: Running, cs: seq<Cmd>)
    requires Quiet(cs)
    ensures ObeyAll(r, cs) == r
  {
    if cs != [] { assert Untracked(cs[0]); ObeyQuiet(r, cs[1..]); }
  }
}
