/** What every interleaving guarantees, as theorems about whole runs. */
module RendezvousRuns {
  import opened Sequences
  import opened StreamTable
  import opened Rendezvous
  import opened RendezvousSteps

  /** A run: any finite interleaving, from a fresh session. */
  ghost predicate Run(states: seq<State>, steps: seq<Step>) {
    && |states| == |steps| + 1 && Init(states[0])
    && (forall i :: 0 <= i < |steps| ==> Enabled(states[i], steps[i]) && states[i + 1] == Do(states[i], steps[i]))
  }

  lemma {:induction false} RunInv(states: seq<State>, steps: seq<Step>, i: nat)
    requires Run(states, steps) && i < |states|
    ensures Inv(states[i])
  {
    if i == 0 {
      InvInit(states[0]);
    } else {
      RunInv(states, steps, i - 1);
      InvStep(states[i - 1], steps[i - 1]);
    }
  }

  // ------------------------------------------------------------------
  // What every run guarantees
  // ------------------------------------------------------------------

  /** At every moment every delivered stream is in exactly one pair of hands. */
  lemma ExactlyOneHolder(states: seq<State>, steps: seq<Step>, i: nat, s: StreamId)
    requires Run(states, steps) && i < |states| && s in states[i].streams
    ensures exists p :: Holds(states[i], p, s) && forall q :: Holds(states[i], q, s) ==> q == p
  {
    RunInv(states, steps, i);
    assert Held(states[i], s);
    var p :| Holds(states[i], p, s);
  }

  /** The send of a delivery that popped a waiter always finds room in that waiter's channel. */
  lemma SendNeverBlocks(states: seq<State>, steps: seq<Step>, i: nat, s: StreamId)
    requires Run(states, steps) && i < |states|
    requires s in states[i].streams && states[i].streams[s].pc.Sending?
    ensures Enabled(states[i], Send(s))
  {
    RunInv(states, steps, i);
    assert Targets(states[i], s, states[i].streams[s].pc.to);
  }

  /** Steps that goroutines and timers already under way can still take. */
  predicate Internal(step: Step) {
    !step.Arrive? && !step.Accept? && !step.Cancel? && !step.EnterDrain? && !step.Close?
  }

  ghost predicate AllQuiet(st: State) {
    forall step :: Internal(step) ==> !Enabled(st, step)
  }

  /** Once nothing under way can move, each stream has one owner outside the table or was reset once. */
  lemma Settled(states: seq<State>, steps: seq<Step>, i: nat, s: StreamId)
    requires Run(states, steps) && i < |states| && s in states[i].streams && AllQuiet(states[i])
    ensures var st := states[i];
      || ((exists w :: WaiterAt(st, w, Returned(s)))
          && (forall v, w :: WaiterAt(st, v, Returned(s)) && WaiterAt(st, w, Returned(s)) ==> v == w)
          && multiset(st.resets)[s] == 0)
      || (multiset(st.resets)[s] == 1 && !exists w :: WaiterAt(st, w, Returned(s)))
  {
    var st := states[i];
    ExactlyOneHolder(states, steps, i, s);
    RunInv(states, steps, i);
    var p :| Holds(st, p, s);
    if !p.WithCaller? && !p.WasReset? { var step := Mover(st, p, s); }
    forall w | WaiterAt(st, w, Returned(s)) ensures p == WithCaller(w) { assert Holds(st, WithCaller(w), s); }
    if s in st.resets { assert Holds(st, WasReset, s); NoDupCount(st.resets, s); }
  }

  lemma {:induction false} NoDupCount(q: seq<StreamId>, s: StreamId)
    requires NoDup(q) && s in q
    ensures multiset(q)[s] == 1
  {
    var k := |q| - 1;
    assert q == q[..k] + [q[k]];
    if s == q[k] { assert s !in q[..k]; } else { NoDupCount(q[..k], s); }
  }

  /** A stream left in a channel always has a goroutine that can still take it out. */
  lemma ChannelMover(st: State, w: WaiterId) returns (step: Step)
    requires Targeting(st) && Channels(st) && w in st.waiters && st.waiters[w].ch != []
    ensures Internal(step) && Enabled(st, step)
  {
    assert WaiterOk(st, w);
    var s, pc := st.waiters[w].ch[0], st.waiters[w].pc;
    if pc.Waiting? { return Receive(w); }
    if pc.Removing? { return Remove(w); }
    if pc.Storing? { return StoreDone(w); }
    if pc.Checking? { return Poll(w); }
    assert Targets(st, s, w) && AimOk(st, s, w);
    return if st.streams[s].pc.Sent? then LoadDone(s) else TakeBack(s);
  }

  /** No deadlock: whoever holds an unsettled stream, some goroutine or timer can move it on. */
  lemma Mover(st: State, p: Place, s: StreamId) returns (step: Step)
    requires Inv(st) && Holds(st, p, s) && !p.WithCaller? && !p.WasReset?
    ensures Internal(step) && Enabled(st, step)
  {
    match p
    case InDelivery(d) =>
      if st.streams[d].pc.Sending? { assert Targets(st, d, st.streams[d].pc.to); }
      return match st.streams[d].pc
        case Arrived => Deliver(d)
        case Rejecting => Reject(d)
        case Sending(_) => Send(d)
        case _ => ResetLeaked(d);
    case InTimer(d) => return ResetExpired(d);
    case InPark(n) =>
      assert ParkedOk(st, n, s);
      return if st.streams[s].pc == Arming then Arm(s) else Fire(s);
    case InChannel(w) => step := ChannelMover(st, w);
    case WithAbandoner(w) => return ResetAbandoned(w);
    case InDrain => return DrainReset(s);
    case InClose => return CloseReset(s);
  }

  /** A name never has both a waiter and a parked stream, and never parks beyond the cap. */
  lemma ParkDiscipline(states: seq<State>, steps: seq<Step>, i: nat, n: Name)
    requires Run(states, steps) && i < |states|
    ensures Queue(states[i].table.pending, n) == [] || Queue(states[i].table.parked, n) == []
    ensures var limit := states[i].table.maxBufferedPerName;
            |Queue(states[i].table.parked, n)| <= if limit > 0 then limit else 1
  {
    RunInv(states, steps, i);
    assert QueuesOk(states[i].table, n);
  }

  /** First come, first served: pops and hand-outs follow arrival order, whatever was cancelled or expired. */
  lemma ArrivalOrder(states: seq<State>, steps: seq<Step>, i: nat, n: Name)
    requires Run(states, steps) && i < |states|
    ensures var h := Log(states[i], n);
      && Subseq(h.popped + Queue(states[i].table.pending, n), h.queued)
      && Subseq(h.handed + Queue(states[i].table.parked, n), h.parked)
  {
    RunInv(states, steps, i);
    assert Ordered(states[i], n);
  }

  /** AcceptStream only ever returns a stream that was opened under the name it asked for. */
  lemma NamesAgree(states: seq<State>, steps: seq<Step>, i: nat, w: WaiterId, s: StreamId)
    requires Run(states, steps) && i < |states| && WaiterAt(states[i], w, Returned(s))
    ensures Opened(states[i], s, states[i].waiters[w].name)
  {
    RunInv(states, steps, i);
    assert WaiterOk(states[i], w);
  }

  predicate Refused(st: State, s: StreamId) { DeliveryAt(st, s, Rejecting) || s in st.resets }

  lemma RefusedStep(st: State, step: Step, s: StreamId)
    requires Refused(st, s) && Enabled(st, step)
    ensures Refused(Do(st, step), s)
  {
  }

  lemma {:induction false} RefusedStays(states: seq<State>, steps: seq<Step>, i: nat, j: nat, s: StreamId)
    requires Run(states, steps) && i <= j < |states| && Refused(states[i], s)
    ensures Refused(states[j], s)
    decreases j
  {
    if i < j {
      RefusedStays(states, steps, i, j - 1, s);
      RefusedStep(states[j - 1], steps[j - 1], s);
    }
  }

  /** A stream whose delivery section runs after draining was set is refused for good, and ends up reset. */
  lemma LateStreamIsReset(states: seq<State>, steps: seq<Step>, i: nat, j: nat, s: StreamId)
    requires Run(states, steps) && i < j < |states|
    requires steps[i] == Deliver(s) && states[i].table.draining && !Reserved(states[i].streams[s].name)
    ensures Refused(states[j], s) && (forall w :: !WaiterAt(states[j], w, Returned(s)))
    ensures AllQuiet(states[j]) ==> multiset(states[j].resets)[s] == 1
  {
    assert states[i + 1] == Do(states[i], steps[i]);
    RefusedStays(states, steps, i + 1, j, s);
    RunInv(states, steps, j);
    var st := states[j];
    assert DeliveryAt(st, s, Rejecting) ==> Holds(st, InDelivery(s), s) && Enabled(st, Reject(s));
    assert s in st.resets ==> Holds(st, WasReset, s);
    forall w | WaiterAt(st, w, Returned(s)) ensures false { assert Holds(st, WithCaller(w), s); }
    if s in st.resets { NoDupCount(st.resets, s); }
  }

  lemma DrainStep(st: State, step: Step)
    requires st.drain.Resetting? && Drains(st) && Enabled(st, step)
    ensures Do(st, step).drain.Resetting?
  {
  }

  lemma {:induction false} DrainStarted(states: seq<State>, steps: seq<Step>, i: nat, j: nat)
    requires Run(states, steps) && i <= j < |states| && states[i].drain.Resetting?
    ensures states[j].drain.Resetting?
    decreases j
  {
    if i < j {
      DrainStarted(states, steps, i, j - 1);
      RunInv(states, steps, j - 1);
      DrainStep(states[j - 1], steps[j - 1]);
    }
  }

  /** After the drain's map swap no application stream is ever parked again. */
  lemma DrainedParkStaysEmpty(states: seq<State>, steps: seq<Step>, i: nat, j: nat, n: Name)
    requires Run(states, steps) && i < j < |states| && steps[i] == DrainSwap && !Reserved(n)
    ensures Queue(states[j].table.parked, n) == []
  {
    assert states[i + 1] == Do(states[i], steps[i]);
    DrainStarted(states, steps, i + 1, j);
    RunInv(states, steps, j);
  }
}
