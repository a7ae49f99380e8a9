/** Goroutines and timers under way cannot run forever: every internal step uses up potential. */
module RendezvousProgress {
  import opened StreamTable
  import opened Rendezvous
  import opened RendezvousRuns

  function DeliverRank(pc: DeliverPc): nat {
    match pc
    case Arrived => 5
    case Sending(_) => 4
    case Sent(_) => 3
    case Arming => 3
    case TakingBack(_) => 2
    case Leaked(_) => 1
    case Rejecting => 1
    case Delivered => 0
  }

  function TimerRank(pc: TimerPc): nat {
    match pc case Armed => 2 case Expired => 1 case _ => 0
  }

  function AcceptRank(pc: AcceptPc): nat {
    match pc
    case Waiting => 5
    case Removing => 4
    case Storing => 3
    case Checking => 2
    case Abandoned(_) => 1
    case _ => 0
  }

  function RejecterRank(r: Rejecter): nat {
    if r.Swapping? then 1 else 0
  }

  ghost function Total<K>(m: map<K, nat>): nat
    decreases m.Keys
  {
    if m.Keys == {} then 0 else var k :| k in m.Keys; m[k] + Total(m - {k})
  }

  lemma {:induction false} TotalSplit<K>(m: map<K, nat>, k: K)
    requires k in m
    ensures Total(m) == m[k] + Total(m - {k})
    decreases m.Keys
  {
    var j :| j in m && Total(m) == m[j] + Total(m - {j});
    if j != k {
      TotalSplit(m - {j}, k);
      TotalSplit(m - {k}, j);
      assert m - {j} - {k} == m - {k} - {j};
    }
  }

  lemma TotalUpdate<K>(m: map<K, nat>, k: K, v: nat)
    requires k in m
    ensures Total(m[k := v]) == Total(m) - m[k] + v
  {
    TotalSplit(m, k);
    TotalSplit(m[k := v], k);
    assert m[k := v] - {k} == m - {k};
  }

  function StreamRanks(st: State): map<int, nat> {
    map s | s in st.streams :: StreamRank(st.streams[s])
  }

  function WaiterRanks(st: State): map<int, nat> {
    map w | w in st.waiters :: AcceptRank(st.waiters[w].pc)
  }

  function Unreset(st: State): set<StreamId> {
    set s | s in st.streams && s !in st.resets
  }

  ghost function Potential(st: State): nat {
    Total(StreamRanks(st)) + Total(WaiterRanks(st)) + RejecterRank(st.drain) + RejecterRank(st.close) + |Unreset(st)|
  }

  lemma StreamRanked(st: State, st': State, s: StreamId)
    requires s in st.streams && s in st'.streams && st'.streams == st.streams[s := st'.streams[s]]
    ensures Total(StreamRanks(st')) == Total(StreamRanks(st)) - StreamRanks(st)[s] + StreamRanks(st')[s]
  {
    TotalUpdate(StreamRanks(st), s, StreamRanks(st')[s]);
    assert StreamRanks(st') == StreamRanks(st)[s := StreamRanks(st')[s]];
  }

  lemma WaiterRanked(st: State, st': State, w: WaiterId)
    requires w in st.waiters && w in st'.waiters && st'.waiters == st.waiters[w := st'.waiters[w]]
    ensures Total(WaiterRanks(st')) == Total(WaiterRanks(st)) - WaiterRanks(st)[w] + WaiterRanks(st')[w]
  {
    TotalUpdate(WaiterRanks(st), w, WaiterRanks(st')[w]);
    assert WaiterRanks(st') == WaiterRanks(st)[w := WaiterRanks(st')[w]];
  }

  lemma UnresetShrinks(st: State, st': State)
    requires st'.streams.Keys == st.streams.Keys && forall s :: s in st.resets ==> s in st'.resets
    ensures |Unreset(st')| <= |Unreset(st)|
    ensures forall s :: s in st.streams && s !in st.resets && s in st'.resets ==> |Unreset(st')| < |Unreset(st)|
  {
    assert forall s :: s in Unreset(st') ==> s in Unreset(st);
    SubsetSize(Unreset(st'), Unreset(st));
    forall s | s in st.streams && s !in st.resets && s in st'.resets ensures |Unreset(st')| < |Unreset(st)| {
      SubsetSize(Unreset(st'), Unreset(st) - {s});
    }
  }

  lemma {:induction false} SubsetSize<T>(a: set<T>, b: set<T>)
    requires a <= b
    ensures |a| <= |b|
  {
    if a != {} {
      var x :| x in a;
      SubsetSize(a - {x}, b - {x});
    }
  }

  function StreamRank(d: Delivery): nat { DeliverRank(d.pc) + TimerRank(d.timer) }

  lemma StreamDown(st: State, st': State, s: StreamId)
    requires s in st.streams && s in st'.streams && st'.streams == st.streams[s := st'.streams[s]]
    requires StreamRank(st'.streams[s]) < StreamRank(st.streams[s])
    requires WaiterRanks(st') == WaiterRanks(st) && st'.drain == st.drain && st'.close == st.close
    requires forall x :: x in st.resets ==> x in st'.resets
    ensures Potential(st') < Potential(st)
  {
    StreamRanked(st, st', s);
    UnresetShrinks(st, st');
  }

  lemma WaiterDown(st: State, st': State, w: WaiterId)
    requires w in st.waiters && w in st'.waiters && st'.waiters == st.waiters[w := st'.waiters[w]]
    requires AcceptRank(st'.waiters[w].pc) < AcceptRank(st.waiters[w].pc)
    requires st'.streams == st.streams && st'.drain == st.drain && st'.close == st.close
    requires forall x :: x in st.resets ==> x in st'.resets
    ensures Potential(st') < Potential(st)
  {
    WaiterRanked(st, st', w);
    assert StreamRanks(st') == StreamRanks(st);
    UnresetShrinks(st, st');
  }

  lemma StreamStepDown(st: State, step: Step)
    requires Enabled(st, step)
    requires || step.Deliver? || step.Reject? || step.Send? || step.LoadDone? || step.TakeBack? || step.ResetLeaked?
             || step.Arm? || step.Fire? || step.ResetExpired?
    ensures Potential(Do(st, step)) < Potential(st)
  {
    var st' := Do(st, step);
    assert WaiterRanks(st') == WaiterRanks(st);
    StreamDown(st, st', step.s);
  }

  lemma WaiterStepDown(st: State, step: Step)
    requires Enabled(st, step)
    requires step.Receive? || step.Remove? || step.StoreDone? || step.Poll? || step.ResetAbandoned?
    ensures Potential(Do(st, step)) < Potential(st)
  {
    WaiterDown(st, Do(st, step), step.w);
  }

  lemma RejecterStepDown(st: State, step: Step)
    requires Inv(st) && Enabled(st, step)
    requires step.DrainSwap? || step.DrainReset? || step.CloseSwap? || step.CloseReset?
    ensures Potential(Do(st, step)) < Potential(st)
  {
    var st' := Do(st, step);
    assert StreamRanks(st') == StreamRanks(st) && WaiterRanks(st') == WaiterRanks(st);
    UnresetShrinks(st, st');
    if step.DrainReset? || step.CloseReset? {
      assert Holds(st, if step.DrainReset? then InDrain else InClose, step.s);
      assert Held(st, step.s) && !Holds(st, WasReset, step.s);
    }
  }

  /** Left to themselves, the goroutines and timers under way reach quiet in boundedly many steps. */
  lemma InternalStepsEnd(states: seq<State>, steps: seq<Step>, i: nat, step: Step)
    requires Run(states, steps) && i < |states| && Internal(step) && Enabled(states[i], step)
    ensures Potential(Do(states[i], step)) < Potential(states[i])
  {
    var st := states[i];
    RunInv(states, steps, i);
    if step.Receive? || step.Remove? || step.StoreDone? || step.Poll? || step.ResetAbandoned? {
      WaiterStepDown(st, step);
    } else if step.DrainSwap? || step.DrainReset? || step.CloseSwap? || step.CloseReset? {
      RejecterStepDown(st, step);
    } else {
      StreamStepDown(st, step);
    }
  }

  /** A stretch of a run in which nothing new arrives is no longer than the potential at its start. */
  lemma {:induction false} InternalStretchIsBounded(states: seq<State>, steps: seq<Step>, i: nat, j: nat)
    requires Run(states, steps) && i <= j < |states|
    requires forall k :: i <= k < j ==> Internal(steps[k])
    ensures Potential(states[j]) + (j - i) <= Potential(states[i])
    decreases j
  {
    if i < j {
      InternalStretchIsBounded(states, steps, i, j - 1);
      InternalStepsEnd(states, steps, j - 1, steps[j - 1]);
    }
  }
}
