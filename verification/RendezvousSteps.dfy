/** Every step of the rendezvous keeps its invariant. */
module RendezvousSteps {
  import opened Sequences
  import opened StreamTable
  import opened Rendezvous

  // ------------------------------------------------------------------
  // One holder
  // ------------------------------------------------------------------

  /** The only change of hands from `st` to `st'` is `x` going from one place to another. */
  ghost predicate Shift(st: State, st': State, x: StreamId, from: Place, to: Place) {
    && st'.streams.Keys == st.streams.Keys
    && from != to && Holds(st, from, x)
    && (forall s, p :: Holds(st', p, s) <==>
          (Holds(st, p, s) && !(s == x && p == from)) || (s == x && p == to))
  }

  ghost predicate SameHands(st: State, st': State) {
    && st'.streams.Keys == st.streams.Keys
    && (forall s, p :: Holds(st', p, s) <==> Holds(st, p, s))
  }

  lemma ShiftKeeps(st: State, st': State, x: StreamId, from: Place, to: Place)
    requires OneHolder(st) && Shift(st, st', x, from, to)
    ensures OneHolder(st')
  {
    assert Held(st, x);
    forall s | Held(st, s) ensures Held(st', s) {
      if s == x {
        assert Holds(st', to, s);
      } else {
        var p :| Holds(st, p, s);
        assert Holds(st', p, s);
      }
    }
    forall s | Held(st', s) ensures Held(st, s) {
      var p :| Holds(st', p, s);
    }
  }

  lemma SameKeeps(st: State, st': State)
    requires OneHolder(st) && SameHands(st, st')
    ensures OneHolder(st')
  {
    forall s ensures Held(st, s) <==> Held(st', s) {
      if Held(st, s) { var p :| Holds(st, p, s); assert Holds(st', p, s); }
      if Held(st', s) { var p :| Holds(st', p, s); assert Holds(st, p, s); }
    }
  }

  lemma HoldArrive(st: State, s: StreamId, n: Name)
    requires OneHolder(st) && Enabled(st, Arrive(s, n))
    ensures OneHolder(Do(st, Arrive(s, n)))
  {
    var st' := Do(st, Arrive(s, n));
    assert !Held(st, s);
    forall x, p ensures Holds(st', p, x) <==> Holds(st, p, x) || (x == s && p == InDelivery(s)) { }
    forall x | Held(st, x) ensures Held(st', x) { var p :| Holds(st, p, x); assert Holds(st', p, x); }
    assert Holds(st', InDelivery(s), s);
    forall x | Held(st', x) ensures x in st'.streams { var p :| Holds(st', p, x); }
  }

  lemma HandsMoved(st: State, d: StreamId, pc: DeliverPc)
    requires d in st.streams
    ensures forall p, s :: Holds(Moved(st, d, pc), p, s) <==>
              if p == InDelivery(d) then PcHolds(pc, d, s) else Holds(st, p, s)
  {
  }

  lemma HandsTimed(st: State, d: StreamId, timer: TimerPc)
    requires d in st.streams
    ensures forall p, s :: Holds(Timed(st, d, timer), p, s) <==>
              if p == InTimer(d) then timer == Expired && s == d else Holds(st, p, s)
  {
  }

  lemma HandsAt(st: State, w: WaiterId, pc: AcceptPc)
    requires w in st.waiters
    ensures forall p, s :: Holds(At(st, w, pc), p, s) <==>
              if p == WithAbandoner(w) then pc == Abandoned(s)
              else if p == WithCaller(w) then pc == Returned(s) else Holds(st, p, s)
  {
  }

  lemma HandsChannel(st: State, w: WaiterId, ch: seq<StreamId>)
    requires w in st.waiters
    ensures forall p, s :: Holds(WithChannel(st, w, ch), p, s) <==>
              if p == InChannel(w) then s in ch else Holds(st, p, s)
  {
  }

  lemma HandsReset(st: State, x: StreamId)
    ensures forall p, s :: Holds(DidReset(st, x), p, s) <==>
              Holds(st, p, s) || (p == WasReset && s == x)
  {
  }

  lemma HoldReject(st: State, s: StreamId)
    requires OneHolder(st) && Enabled(st, Reject(s))
    ensures OneHolder(Do(st, Reject(s)))
  {
    HandsMoved(st, s, Delivered);
    HandsReset(Moved(st, s, Delivered), s);
    ShiftKeeps(st, Do(st, Reject(s)), s, InDelivery(s), WasReset);
  }

  lemma HoldResetLeaked(st: State, s: StreamId)
    requires OneHolder(st) && Enabled(st, ResetLeaked(s))
    ensures OneHolder(Do(st, ResetLeaked(s)))
  {
    var x := st.streams[s].pc.held;
    HandsMoved(st, s, Delivered);
    HandsReset(Moved(st, s, Delivered), x);
    ShiftKeeps(st, Do(st, ResetLeaked(s)), x, InDelivery(s), WasReset);
  }

  lemma HoldResetExpired(st: State, s: StreamId)
    requires OneHolder(st) && Enabled(st, ResetExpired(s))
    ensures OneHolder(Do(st, ResetExpired(s)))
  {
    HandsTimed(st, s, Stopped);
    HandsReset(Timed(st, s, Stopped), s);
    ShiftKeeps(st, Do(st, ResetExpired(s)), s, InTimer(s), WasReset);
  }

  lemma HoldResetAbandoned(st: State, w: WaiterId)
    requires OneHolder(st) && Enabled(st, ResetAbandoned(w))
    ensures OneHolder(Do(st, ResetAbandoned(w)))
  {
    var x := st.waiters[w].pc.held;
    HandsAt(st, w, Cancelled);
    HandsReset(At(st, w, Cancelled), x);
    ShiftKeeps(st, Do(st, ResetAbandoned(w)), x, WithAbandoner(w), WasReset);
  }

  lemma HoldDrainReset(st: State, s: StreamId)
    requires OneHolder(st) && Enabled(st, DrainReset(s))
    ensures OneHolder(Do(st, DrainReset(s)))
  {
    ShiftKeeps(st, Do(st, DrainReset(s)), s, InDrain, WasReset);
  }

  lemma HoldCloseReset(st: State, s: StreamId)
    requires OneHolder(st) && Enabled(st, CloseReset(s))
    ensures OneHolder(Do(st, CloseReset(s)))
  {
    ShiftKeeps(st, Do(st, CloseReset(s)), s, InClose, WasReset);
  }

  lemma HoldSend(st: State, s: StreamId)
    requires OneHolder(st) && Channels(st) && Enabled(st, Send(s))
    ensures OneHolder(Do(st, Send(s)))
  {
    var w := st.streams[s].pc.to;
    var ch := st.waiters[w].ch + [s];
    HandsChannel(st, w, ch);
    HandsMoved(WithChannel(st, w, ch), s, Sent(w));
    ShiftKeeps(st, Do(st, Send(s)), s, InDelivery(s), InChannel(w));
  }

  lemma HoldTakeBack(st: State, s: StreamId)
    requires OneHolder(st) && Channels(st) && Enabled(st, TakeBack(s))
    ensures OneHolder(Do(st, TakeBack(s)))
  {
    var w := st.streams[s].pc.to;
    var ch := st.waiters[w].ch;
    if ch == [] {
      HandsMoved(st, s, Delivered);
      SameKeeps(st, Do(st, TakeBack(s)));
    } else {
      assert ch == [ch[0]];
      HandsChannel(st, w, ch[1..]);
      HandsMoved(WithChannel(st, w, ch[1..]), s, Leaked(ch[0]));
      ShiftKeeps(st, Do(st, TakeBack(s)), ch[0], InChannel(w), InDelivery(s));
    }
  }

  lemma HoldReceive(st: State, w: WaiterId)
    requires OneHolder(st) && Channels(st) && Enabled(st, Receive(w))
    ensures OneHolder(Do(st, Receive(w)))
  {
    var ch := st.waiters[w].ch;
    assert ch == [ch[0]];
    HandsChannel(st, w, ch[1..]);
    HandsAt(WithChannel(st, w, ch[1..]), w, Returned(ch[0]));
    ShiftKeeps(st, Do(st, Receive(w)), ch[0], InChannel(w), WithCaller(w));
  }

  lemma HoldPoll(st: State, w: WaiterId)
    requires OneHolder(st) && Channels(st) && Enabled(st, Poll(w))
    ensures OneHolder(Do(st, Poll(w)))
  {
    var ch := st.waiters[w].ch;
    if ch == [] {
      HandsAt(st, w, Cancelled);
      SameKeeps(st, Do(st, Poll(w)));
    } else {
      assert ch == [ch[0]];
      HandsChannel(st, w, ch[1..]);
      HandsAt(WithChannel(st, w, ch[1..]), w, Abandoned(ch[0]));
      ShiftKeeps(st, Do(st, Poll(w)), ch[0], InChannel(w), WithAbandoner(w));
    }
  }

  lemma HoldDeliver(st: State, s: StreamId)
    requires OneHolder(st) && Enabled(st, Deliver(s))
    ensures OneHolder(Do(st, Deliver(s)))
  {
    var st' := Do(st, Deliver(s));
    var n := st.streams[s].name;
    var (t, v) := DeliverSection(st.table, n, s);
    var st1 := st.(table := t, log := st'.log);
    HandsMoved(st1, s, st'.streams[s].pc);
    assert st' == Moved(st1, s, st'.streams[s].pc);
    if v == Park {
      assert forall x, p :: Holds(st1, p, x) <==> Holds(st, p, x) || (p == InPark(n) && x == s);
      ShiftKeeps(st, st', s, InDelivery(s), InPark(n));
    } else {
      SameKeeps(st, st');
    }
  }

  lemma HoldAccept(st: State, w: WaiterId, n: Name)
    requires OneHolder(st) && Tidy(st) && Enabled(st, Accept(w, n))
    ensures OneHolder(Do(st, Accept(w, n)))
  {
    var st' := Do(st, Accept(w, n));
    if Queue(st.table.parked, n) == [] {
      assert SameHands(st, st');
      SameKeeps(st, st');
    } else {
      HoldAcceptParked(st, w, n);
    }
  }

  lemma HoldAcceptParked(st: State, w: WaiterId, n: Name)
    requires OneHolder(st) && Tidy(st) && Enabled(st, Accept(w, n)) && Queue(st.table.parked, n) != []
    ensures OneHolder(Do(st, Accept(w, n)))
  {
    var st' := Do(st, Accept(w, n));
    var q := Queue(st.table.parked, n);
    assert q == [q[0]] + q[1..];
    assert q[0] !in q[1..];
    assert Holds(st, InPark(n), q[0]);
    assert Shift(st, st', q[0], InPark(n), WithCaller(w));
    ShiftKeeps(st, st', q[0], InPark(n), WithCaller(w));
  }

  lemma HoldFire(st: State, s: StreamId)
    requires OneHolder(st) && Tidy(st) && Enabled(st, Fire(s))
    ensures OneHolder(Do(st, Fire(s)))
  {
    var st' := Do(st, Fire(s));
    var n := st.streams[s].name;
    var q := Queue(st.table.parked, n);
    if s in q {
      RemoveFirstNoDup(q, s);
      assert Holds(st, InPark(n), s);
      assert Shift(st, st', s, InPark(n), InTimer(s));
      ShiftKeeps(st, st', s, InPark(n), InTimer(s));
    } else {
      assert SameHands(st, st');
      SameKeeps(st, st');
    }
  }

  lemma AllParkedHeld(st: State, s: StreamId)
    ensures s in AllParked(st.table) <==> exists n :: Holds(st, InPark(n), s)
  {
    if s in AllParked(st.table) {
      var n :| n in st.table.parked && s in st.table.parked[n];
      assert Holds(st, InPark(n), s);
    }
  }

  /** A swap moves every parked stream, and nothing else, to the rejecting goroutine. */
  lemma SwapKeeps(st: State, st': State, to: Place)
    requires OneHolder(st) && st'.streams == st.streams && !to.InPark?
    requires forall s, p :: Holds(st', p, s) <==>
               (Holds(st, p, s) && !p.InPark?) || (p == to && s in AllParked(st.table))
    ensures OneHolder(st')
  {
    forall s ensures Held(st, s) <==> Held(st', s) {
      AllParkedHeld(st, s);
      if Held(st, s) {
        var p :| Holds(st, p, s);
        assert Holds(st', if p.InPark? then to else p, s);
      }
      if Held(st', s) { var p :| Holds(st', p, s); }
    }
    forall s, p, q | Holds(st', p, s) && Holds(st', q, s) ensures p == q { AllParkedHeld(st, s); }
  }

  lemma HoldSwap(st: State, step: Step)
    requires OneHolder(st) && Enabled(st, step) && (step.DrainSwap? || step.CloseSwap?)
    ensures OneHolder(Do(st, step))
  {
    SwapKeeps(st, Do(st, step), if step.DrainSwap? then InDrain else InClose);
  }

  lemma HoldQuiet(st: State, step: Step)
    requires OneHolder(st) && Drains(st) && Enabled(st, step)
    requires step.LoadDone? || step.EnterDrain? || step.Close?
    ensures OneHolder(Do(st, step))
  {
    SameKeeps(st, Do(st, step));
  }

  lemma HoldQuietWaiter(st: State, step: Step)
    requires OneHolder(st) && Enabled(st, step)
    requires step.Cancel? || step.Remove? || step.StoreDone?
    ensures OneHolder(Do(st, step))
  {
    SameKeeps(st, Do(st, step));
  }

  lemma HoldArm(st: State, s: StreamId)
    requires OneHolder(st) && Parks(st) && Enabled(st, Arm(s))
    ensures OneHolder(Do(st, Arm(s)))
  {
    HandsMoved(st, s, Delivered);
    HandsTimed(Moved(st, s, Delivered), s, Armed);
    SameKeeps(st, Do(st, Arm(s)));
  }

  // ------------------------------------------------------------------
  // The waiter protocol
  // ------------------------------------------------------------------

  ghost predicate Protocol(st: State) {
    QueuedWaiters(st) && Targeting(st) && Channels(st)
  }

  /** A step that leaves waiters, their queues and the deliveries aimed at them alone. */
  ghost predicate SameTalk(st: State, st': State) {
    && st'.table.pending == st.table.pending && st'.waiters == st.waiters
    && (forall s, n :: Opened(st, s, n) ==> Opened(st', s, n))
    && (forall d, w :: Targets(st', d, w) <==> Targets(st, d, w))
    && (forall d, w :: Targets(st', d, w) && st'.streams[d].pc.Sending? ==> st.streams[d].pc.Sending?)
  }

  lemma TalkFrame(st: State, st': State)
    requires Protocol(st) && SameTalk(st, st')
    ensures Protocol(st')
  {
    forall n, w | w in Queue(st'.table.pending, n) ensures QueuedOk(st', n, w) { assert QueuedOk(st, n, w); }
    forall d, w | Targets(st', d, w) ensures AimOk(st', d, w) {
      assert AimOk(st, d, w) && Opened(st, d, st.streams[d].name);
      assert Opened(st', d, st.streams[d].name);
    }
    forall w | w in st'.waiters ensures WaiterOk(st', w) {
      assert WaiterOk(st, w);
      var x := st.waiters[w];
      if x.ch != [] { assert Opened(st, x.ch[0], x.name); }
      if x.pc.Returned? { assert Opened(st, x.pc.got, x.name); }
    }
  }

  lemma TalkUntouched(st: State, step: Step)
    requires Enabled(st, step)
    requires step.Arrive? || step.Reject? || step.ResetLeaked? || step.Arm? || step.Fire? || step.ResetExpired?
    ensures SameTalk(st, Do(st, step))
  {
  }

  lemma TalkRejecters(st: State, step: Step)
    requires Enabled(st, step)
    requires || step.EnterDrain? || step.DrainSwap? || step.DrainReset?
             || step.Close? || step.CloseSwap? || step.CloseReset?
    ensures SameTalk(st, Do(st, step))
  {
  }

  lemma TalkDeliver(st: State, s: StreamId)
    requires Protocol(st) && Enabled(st, Deliver(s))
    ensures Protocol(Do(st, Deliver(s)))
  {
    var st' := Do(st, Deliver(s));
    var n := st.streams[s].name;
    var v := DeliverSection(st.table, n, s).1;
    if v.HandTo? {
      var w := v.waiter;
      var q := Queue(st.table.pending, n);
      assert w in q && QueuedOk(st, n, w);
      forall d, x | Targets(st', d, x) ensures AimOk(st', d, x) {
        assert d == s || Targets(st, d, x);
      }
      forall m, x | x in Queue(st'.table.pending, m) ensures QueuedOk(st', m, x) {
        assert x in Queue(st.table.pending, m);
      }
      forall d, e, x | Targets(st', d, x) && Targets(st', e, x) ensures d == e {
        assert d == s || (Targets(st, d, x) && AimOk(st, d, x));
        assert e == s || (Targets(st, e, x) && AimOk(st, e, x));
      }
      forall m ensures NoDup(Queue(st'.table.pending, m)) { assert NoDup(Queue(st.table.pending, m)); }
      forall x | x in st'.waiters ensures WaiterOk(st', x) { assert WaiterOk(st, x); }
    } else {
      assert SameTalk(st, st');
      TalkFrame(st, st');
    }
  }

  lemma TalkSend(st: State, s: StreamId)
    requires Protocol(st) && Enabled(st, Send(s))
    ensures Protocol(Do(st, Send(s)))
  {
    var st' := Do(st, Send(s));
    var w := st.streams[s].pc.to;
    assert Targets(st, s, w) && AimOk(st, s, w);
    forall d, x | Targets(st', d, x) ensures Targets(st, d, x) && (x == w ==> d == s) && AimOk(st', d, x) {
      assert Targets(st, d, x) && AimOk(st, d, x);
    }
    forall d, e, x | Targets(st', d, x) && Targets(st', e, x) ensures d == e { assert Targets(st, d, x) && Targets(st, e, x); }
    forall m, x | x in Queue(st'.table.pending, m) ensures QueuedOk(st', m, x) { assert QueuedOk(st, m, x); }
    forall x | x in st'.waiters ensures WaiterOk(st', x) { assert WaiterOk(st, x); }
  }

  lemma TalkLoadDone(st: State, s: StreamId)
    requires Protocol(st) && Enabled(st, LoadDone(s))
    ensures Protocol(Do(st, LoadDone(s)))
  {
    var st' := Do(st, LoadDone(s));
    forall d, x | Targets(st', d, x) ensures Targets(st, d, x) && AimOk(st', d, x) { assert AimOk(st, d, x); }
    forall d, e, x | Targets(st', d, x) && Targets(st', e, x) ensures d == e { assert Targets(st, d, x) && Targets(st, e, x); }
    forall m, x | x in Queue(st'.table.pending, m) ensures QueuedOk(st', m, x) { assert QueuedOk(st, m, x); }
    forall x | x in st'.waiters ensures WaiterOk(st', x) { assert WaiterOk(st, x); }
  }

  lemma TalkTakeBack(st: State, s: StreamId)
    requires Protocol(st) && Enabled(st, TakeBack(s))
    ensures Protocol(Do(st, TakeBack(s)))
  {
    var st' := Do(st, TakeBack(s));
    var w := st.streams[s].pc.to;
    assert Targets(st, s, w) && AimOk(st, s, w);
    forall d, x | Targets(st', d, x) ensures Targets(st, d, x) && AimOk(st', d, x) { assert AimOk(st, d, x); }
    forall d, e, x | Targets(st', d, x) && Targets(st', e, x) ensures d == e { assert Targets(st, d, x) && Targets(st, e, x); }
    forall m, x | x in Queue(st'.table.pending, m) ensures QueuedOk(st', m, x) { assert QueuedOk(st, m, x); }
    forall x | x in st'.waiters ensures WaiterOk(st', x) { assert WaiterOk(st, x); }
  }

  lemma TalkAccept(st: State, w: WaiterId, n: Name)
    requires Protocol(st) && Parks(st) && Enabled(st, Accept(w, n))
    ensures Protocol(Do(st, Accept(w, n)))
  {
    var st' := Do(st, Accept(w, n));
    forall d, x | Targets(st', d, x) ensures Targets(st, d, x) && AimOk(st', d, x) { assert AimOk(st, d, x); }
    forall d, e, x | Targets(st', d, x) && Targets(st', e, x) ensures d == e { assert Targets(st, d, x) && Targets(st, e, x); }
    forall m, x | x in Queue(st'.table.pending, m) ensures QueuedOk(st', m, x) {
      assert (m == n && x == w) || QueuedOk(st, m, x);
    }
    var q := Queue(st.table.parked, n);
    if q != [] { assert q[0] in q && ParkedOk(st, n, q[0]); }
    forall x | x in st'.waiters ensures WaiterOk(st', x) { assert x == w || WaiterOk(st, x); }
    forall m ensures NoDup(Queue(st'.table.pending, m)) {
      assert w in Queue(st.table.pending, m) ==> QueuedOk(st, m, w);
    }
  }

  lemma TalkReceive(st: State, w: WaiterId)
    requires Protocol(st) && Enabled(st, Receive(w))
    ensures Protocol(Do(st, Receive(w)))
  {
    var st' := Do(st, Receive(w));
    assert WaiterOk(st, w);
    forall d, x | Targets(st', d, x) ensures Targets(st, d, x) && AimOk(st', d, x) { assert AimOk(st, d, x); }
    forall d, e, x | Targets(st', d, x) && Targets(st', e, x) ensures d == e { assert Targets(st, d, x) && Targets(st, e, x); }
    forall m, x | x in Queue(st'.table.pending, m) ensures QueuedOk(st', m, x) { assert QueuedOk(st, m, x); }
    forall x | x in st'.waiters ensures WaiterOk(st', x) { assert WaiterOk(st, x); }
  }

  lemma TalkRemove(st: State, w: WaiterId)
    requires Protocol(st) && Enabled(st, Remove(w))
    ensures Protocol(Do(st, Remove(w)))
  {
    var st' := Do(st, Remove(w));
    RemoveFirstNoDup(Queue(st.table.pending, st.waiters[w].name), w);
    forall m ensures NoDup(Queue(st'.table.pending, m)) { assert NoDup(Queue(st.table.pending, m)); }
    forall d, x | Targets(st', d, x) ensures Targets(st, d, x) && AimOk(st', d, x) { assert AimOk(st, d, x); }
    forall d, e, x | Targets(st', d, x) && Targets(st', e, x) ensures d == e { assert Targets(st, d, x) && Targets(st, e, x); }
    forall m, x | x in Queue(st'.table.pending, m) ensures QueuedOk(st', m, x) { assert QueuedOk(st, m, x); }
    forall x | x in st'.waiters ensures WaiterOk(st', x) { assert WaiterOk(st, x); }
  }

  lemma TalkPoll(st: State, w: WaiterId)
    requires Protocol(st) && Enabled(st, Poll(w))
    ensures Protocol(Do(st, Poll(w)))
  {
    var st' := Do(st, Poll(w));
    assert WaiterOk(st, w);
    forall d, x | Targets(st', d, x) ensures Targets(st, d, x) && AimOk(st', d, x) { assert AimOk(st, d, x); }
    forall d, e, x | Targets(st', d, x) && Targets(st', e, x) ensures d == e { assert Targets(st, d, x) && Targets(st, e, x); }
    forall m, x | x in Queue(st'.table.pending, m) ensures QueuedOk(st', m, x) { assert QueuedOk(st, m, x); }
    forall x | x in st'.waiters ensures WaiterOk(st', x) { assert WaiterOk(st, x); }
  }

  lemma TalkWaiter(st: State, step: Step)
    requires Protocol(st) && Enabled(st, step)
    requires step.Cancel? || step.StoreDone? || step.ResetAbandoned?
    ensures Protocol(Do(st, step))
  {
    var st' := Do(st, step);
    assert WaiterOk(st, step.w);
    forall d, x | Targets(st', d, x) ensures Targets(st, d, x) && AimOk(st', d, x) { assert AimOk(st, d, x); }
    forall d, e, x | Targets(st', d, x) && Targets(st', e, x) ensures d == e { assert Targets(st, d, x) && Targets(st, e, x); }
    forall m, x | x in Queue(st'.table.pending, m) ensures QueuedOk(st', m, x) { assert QueuedOk(st, m, x); }
    forall x | x in st'.waiters ensures WaiterOk(st', x) { assert WaiterOk(st, x); }
  }

  // ------------------------------------------------------------------
  // The park, the drain and the order of the queues
  // ------------------------------------------------------------------

  /** A step that leaves the queues alone and disturbs no parked stream's timer. */
  ghost predicate SamePark(st: State, st': State) {
    && st'.table == st.table
    && (forall s :: s in st.streams ==> s in st'.streams && st'.streams[s].name == st.streams[s].name)
    && (forall s :: s in st.streams && (st.streams[s].pc == Arming || st.streams[s].timer == Armed) ==>
          st'.streams[s].pc == Arming || st'.streams[s].timer == Armed)
    && (forall s :: s in st'.streams && st'.streams[s].timer != Unarmed ==> st'.streams[s].pc == Delivered)
  }

  lemma ParkUntouched(st: State, step: Step)
    requires Parks(st) && Enabled(st, step)
    requires || step.Arrive? || step.Reject? || step.Send? || step.LoadDone? || step.TakeBack? || step.ResetLeaked?
             || step.Arm? || step.Receive? || step.Cancel? || step.StoreDone? || step.Poll?
             || step.ResetAbandoned? || step.DrainReset? || step.Close? || step.CloseReset?
    ensures Parks(Do(st, step))
  {
    assert SamePark(st, Do(st, step));
  }

  lemma ParkDeliver(st: State, s: StreamId)
    requires Parks(st) && Enabled(st, Deliver(s))
    ensures Parks(Do(st, Deliver(s)))
  {
    var st' := Do(st, Deliver(s));
    var n := st.streams[s].name;
    forall m ensures QueuesOk(st'.table, m) { assert QueuesOk(st.table, m); }
    forall m, x | x in Queue(st'.table.parked, m) ensures ParkedOk(st', m, x) {
      assert (m == n && x == s) || ParkedOk(st, m, x);
    }
  }

  lemma ParkAccept(st: State, w: WaiterId, n: Name)
    requires Parks(st) && Enabled(st, Accept(w, n))
    ensures Parks(Do(st, Accept(w, n)))
  {
    var st' := Do(st, Accept(w, n));
    forall m ensures QueuesOk(st'.table, m) { assert QueuesOk(st.table, m); }
    forall m, x | x in Queue(st'.table.parked, m) ensures ParkedOk(st', m, x) { assert ParkedOk(st, m, x); }
  }

  lemma ParkTable(st: State, step: Step)
    requires Parks(st) && Enabled(st, step)
    requires step.Remove? || step.EnterDrain? || step.DrainSwap? || step.CloseSwap?
    ensures Parks(Do(st, step))
  {
    var st' := Do(st, step);
    forall m ensures QueuesOk(st'.table, m) { assert QueuesOk(st.table, m); }
    forall m, x | x in Queue(st'.table.parked, m) ensures ParkedOk(st', m, x) { assert ParkedOk(st, m, x); }
  }

  lemma ParkFire(st: State, s: StreamId)
    requires Parks(st) && Tidy(st) && Enabled(st, Fire(s))
    ensures Parks(Do(st, Fire(s)))
  {
    var st' := Do(st, Fire(s));
    RemoveFirstNoDup(Queue(st.table.parked, st.streams[s].name), s);
    forall m ensures QueuesOk(st'.table, m) { assert QueuesOk(st.table, m); }
    forall m, x | x in Queue(st'.table.parked, m) ensures ParkedOk(st', m, x) { assert ParkedOk(st, m, x); }
  }

  lemma ParkResetExpired(st: State, s: StreamId)
    requires Parks(st) && Enabled(st, ResetExpired(s))
    ensures Parks(Do(st, ResetExpired(s)))
  {
    var st' := Do(st, ResetExpired(s));
    forall m, x | x in Queue(st'.table.parked, m) ensures ParkedOk(st', m, x) { assert ParkedOk(st, m, x); }
  }

  lemma DrainKeeps(st: State, step: Step)
    requires Drains(st) && Enabled(st, step)
    ensures Drains(Do(st, step))
  {
  }

  lemma OrderUntouched(st: State, step: Step)
    requires InOrder(st) && Enabled(st, step)
    requires !step.Deliver? && !step.Accept? && !step.Remove? && !step.Fire? && !step.DrainSwap? && !step.CloseSwap?
    ensures InOrder(Do(st, step))
  {
    var st' := Do(st, step);
    forall n ensures Ordered(st', n) { assert Ordered(st, n); }
  }

  lemma OrderPush<T(!new)>(out: seq<T>, q: seq<T>, x: T, all: seq<T>)
    requires Subseq(out + q, all)
    ensures Subseq(out + (q + [x]), all + [x])
  {
    SubseqExtend(out + q, all, x);
    assert (out + q) + [x] == out + (q + [x]);
  }

  lemma OrderPop<T(!new)>(out: seq<T>, q: seq<T>, all: seq<T>)
    requires Subseq(out + q, all) && q != []
    ensures Subseq((out + [q[0]]) + q[1..], all)
  {
    assert (out + [q[0]]) + q[1..] == out + q;
  }

  lemma OrderDeliver(st: State, s: StreamId)
    requires InOrder(st) && Enabled(st, Deliver(s))
    ensures InOrder(Do(st, Deliver(s)))
  {
    var st' := Do(st, Deliver(s));
    var n := st.streams[s].name;
    var h, q, p := Log(st, n), Queue(st.table.pending, n), Queue(st.table.parked, n);
    var v := DeliverSection(st.table, n, s).1;
    assert Ordered(st, n);
    if v.HandTo? {
      OrderPop(h.popped, q, h.queued);
    } else if v.Park? {
      OrderPush(h.handed, p, s, h.parked);
    }
    forall m ensures Ordered(st', m) { assert Ordered(st, m); }
  }

  lemma OrderAccept(st: State, w: WaiterId, n: Name)
    requires InOrder(st) && Enabled(st, Accept(w, n))
    ensures InOrder(Do(st, Accept(w, n)))
  {
    var st' := Do(st, Accept(w, n));
    var h, q, p := Log(st, n), Queue(st.table.pending, n), Queue(st.table.parked, n);
    assert Ordered(st, n);
    if p != [] {
      OrderPop(h.handed, p, h.parked);
    } else {
      OrderPush(h.popped, q, w, h.queued);
    }
    forall m ensures Ordered(st', m) { assert Ordered(st, m); }
  }

  /** Deleting from a queue keeps the order of what is left. */
  lemma OrderDrop<T(!new)>(out: seq<T>, q: seq<T>, x: T, all: seq<T>)
    requires Subseq(out + q, all)
    ensures Subseq(out + RemoveFirst(q, x), all)
  {
    if x in q {
      var i := IndexOf(q, x);
      RemoveFirstAt(q, x, i);
      SubseqDelete(out + q, |out| + i, all);
      assert (out + q)[..|out| + i] + (out + q)[|out| + i + 1..] == out + (q[..i] + q[i + 1..]);
    }
  }

  lemma OrderRemove(st: State, w: WaiterId)
    requires InOrder(st) && Enabled(st, Remove(w))
    ensures InOrder(Do(st, Remove(w)))
  {
    var st' := Do(st, Remove(w));
    var n := st.waiters[w].name;
    var h := Log(st, n);
    assert Ordered(st, n);
    OrderDrop(h.popped, Queue(st.table.pending, n), w, h.queued);
    forall m ensures Ordered(st', m) { assert Ordered(st, m); }
  }

  lemma OrderFire(st: State, s: StreamId)
    requires InOrder(st) && Enabled(st, Fire(s))
    ensures InOrder(Do(st, Fire(s)))
  {
    var st' := Do(st, Fire(s));
    var n := st.streams[s].name;
    var h := Log(st, n);
    assert Ordered(st, n);
    OrderDrop(h.handed, Queue(st.table.parked, n), s, h.parked);
    forall m ensures Ordered(st', m) { assert Ordered(st, m); }
  }

  lemma OrderSwap(st: State, step: Step)
    requires InOrder(st) && Enabled(st, step) && (step.DrainSwap? || step.CloseSwap?)
    ensures InOrder(Do(st, step))
  {
    var st' := Do(st, step);
    forall m ensures Ordered(st', m) {
      var h, p := Log(st, m), Queue(st.table.parked, m);
      assert Ordered(st, m);
      SubseqPrefix(h.handed + p, |h.handed|, h.parked);
      assert (h.handed + p)[..|h.handed|] == h.handed + Queue(st'.table.parked, m);
    }
  }

  // ------------------------------------------------------------------
  // Nothing is counted twice
  // ------------------------------------------------------------------

  lemma ResetOnce(st: State, p: Place, s: StreamId)
    requires OneHolder(st) && Tidy(st) && Holds(st, p, s) && p != WasReset
    ensures NoDup(st.resets + [s])
  {
    assert !Holds(st, WasReset, s);
  }

  lemma TidyResets(st: State, step: Step)
    requires OneHolder(st) && Tidy(st) && Enabled(st, step)
    requires || step.Reject? || step.ResetLeaked? || step.ResetExpired?
             || step.ResetAbandoned? || step.DrainReset? || step.CloseReset?
    ensures Tidy(Do(st, step))
  {
    match step
    case Reject(s) => ResetOnce(st, InDelivery(s), s);
    case ResetLeaked(s) => ResetOnce(st, InDelivery(s), st.streams[s].pc.held);
    case ResetExpired(s) => ResetOnce(st, InTimer(s), s);
    case ResetAbandoned(w) => ResetOnce(st, WithAbandoner(w), st.waiters[w].pc.held);
    case DrainReset(s) => ResetOnce(st, InDrain, s);
    case CloseReset(s) => ResetOnce(st, InClose, s);
  }

  lemma TidyParks(st: State, step: Step)
    requires OneHolder(st) && Tidy(st) && Enabled(st, step)
    requires step.Deliver? || step.Accept? || step.Fire?
    ensures Tidy(Do(st, step))
  {
    var st' := Do(st, step);
    if step.Deliver? {
      assert Holds(st, InDelivery(step.s), step.s);
      assert !Holds(st, InPark(st.streams[step.s].name), step.s);
    } else if step.Fire? {
      RemoveFirstNoDup(Queue(st.table.parked, st.streams[step.s].name), step.s);
    }
    forall m ensures NoDup(Queue(st'.table.parked, m)) { assert NoDup(Queue(st.table.parked, m)); }
  }

  lemma TidyUntouched(st: State, step: Step)
    requires Tidy(st) && Enabled(st, step)
    requires || step.Arrive? || step.Send? || step.LoadDone? || step.TakeBack? || step.Arm? || step.Receive?
             || step.Cancel? || step.Remove? || step.StoreDone? || step.Poll?
             || step.EnterDrain? || step.DrainSwap? || step.Close? || step.CloseSwap?
    ensures Tidy(Do(st, step))
  {
    var st' := Do(st, step);
    forall m ensures NoDup(Queue(st'.table.parked, m)) { assert NoDup(Queue(st.table.parked, m)); }
  }

  // ------------------------------------------------------------------
  // The invariant, over every step and every run
  // ------------------------------------------------------------------

  lemma InvInit(st: State)
    requires Init(st)
    ensures Inv(st)
  {
    assert forall p, s :: !Holds(st, p, s);
    assert forall s :: !Held(st, s);
  }

  lemma HoldStep(st: State, step: Step)
    requires Inv(st) && Enabled(st, step)
    ensures OneHolder(Do(st, step))
  {
    match step
    case Arrive(s, n) => HoldArrive(st, s, n);
    case Deliver(s) => HoldDeliver(st, s);
    case Reject(s) => HoldReject(st, s);
    case Send(s) => HoldSend(st, s);
    case LoadDone(_) => HoldQuiet(st, step);
    case TakeBack(s) => HoldTakeBack(st, s);
    case ResetLeaked(s) => HoldResetLeaked(st, s);
    case Arm(s) => HoldArm(st, s);
    case Fire(s) => HoldFire(st, s);
    case ResetExpired(s) => HoldResetExpired(st, s);
    case Accept(w, n) => HoldAccept(st, w, n);
    case Receive(w) => HoldReceive(st, w);
    case Cancel(_) => HoldQuietWaiter(st, step);
    case Remove(_) => HoldQuietWaiter(st, step);
    case StoreDone(_) => HoldQuietWaiter(st, step);
    case Poll(w) => HoldPoll(st, w);
    case ResetAbandoned(w) => HoldResetAbandoned(st, w);
    case EnterDrain => HoldQuiet(st, step);
    case DrainSwap => HoldSwap(st, step);
    case DrainReset(s) => HoldDrainReset(st, s);
    case Close => HoldQuiet(st, step);
    case CloseSwap => HoldSwap(st, step);
    case CloseReset(s) => HoldCloseReset(st, s);
  }

  lemma TalkOthers(st: State, step: Step)
    requires Inv(st) && Enabled(st, step)
    requires !step.Deliver? && !step.Send? && !step.LoadDone? && !step.TakeBack? && !step.Accept? && !step.Receive?
    requires !step.Remove? && !step.Poll? && !step.Cancel? && !step.StoreDone? && !step.ResetAbandoned?
    ensures Protocol(Do(st, step))
  {
    if step.Arrive? || step.Reject? || step.ResetLeaked? || step.Arm? || step.Fire? || step.ResetExpired? {
      TalkUntouched(st, step);
    } else {
      TalkRejecters(st, step);
    }
    TalkFrame(st, Do(st, step));
  }

  lemma TalkStep(st: State, step: Step)
    requires Inv(st) && Enabled(st, step)
    ensures Protocol(Do(st, step))
  {
    if step.Deliver? { TalkDeliver(st, step.s); }
    else if step.Send? { TalkSend(st, step.s); }
    else if step.LoadDone? { TalkLoadDone(st, step.s); }
    else if step.TakeBack? { TalkTakeBack(st, step.s); }
    else if step.Accept? { TalkAccept(st, step.w, step.n); }
    else if step.Receive? { TalkReceive(st, step.w); }
    else if step.Remove? { TalkRemove(st, step.w); }
    else if step.Poll? { TalkPoll(st, step.w); }
    else if step.Cancel? || step.StoreDone? || step.ResetAbandoned? { TalkWaiter(st, step); }
    else { TalkOthers(st, step); }
  }

  lemma ParkStep(st: State, step: Step)
    requires Inv(st) && Enabled(st, step)
    ensures Parks(Do(st, step))
  {
    match step
    case Deliver(s) => ParkDeliver(st, s);
    case Accept(w, n) => ParkAccept(st, w, n);
    case Fire(s) => ParkFire(st, s);
    case ResetExpired(s) => ParkResetExpired(st, s);
    case Remove(_) => ParkTable(st, step);
    case EnterDrain => ParkTable(st, step);
    case DrainSwap => ParkTable(st, step);
    case CloseSwap => ParkTable(st, step);
    case _ => ParkUntouched(st, step);
  }

  lemma OrderStep(st: State, step: Step)
    requires Inv(st) && Enabled(st, step)
    ensures InOrder(Do(st, step))
  {
    match step
    case Deliver(s) => OrderDeliver(st, s);
    case Accept(w, n) => OrderAccept(st, w, n);
    case Remove(w) => OrderRemove(st, w);
    case Fire(s) => OrderFire(st, s);
    case DrainSwap => OrderSwap(st, step);
    case CloseSwap => OrderSwap(st, step);
    case _ => OrderUntouched(st, step);
  }

  lemma TidyStep(st: State, step: Step)
    requires Inv(st) && Enabled(st, step)
    ensures Tidy(Do(st, step))
  {
    if step.Deliver? || step.Accept? || step.Fire? {
      TidyParks(st, step);
    } else if || step.Reject? || step.ResetLeaked? || step.ResetExpired?
              || step.ResetAbandoned? || step.DrainReset? || step.CloseReset? {
      TidyResets(st, step);
    } else {
      TidyUntouched(st, step);
    }
  }

  lemma InvStep(st: State, step: Step)
    requires Inv(st) && Enabled(st, step)
    ensures Inv(Do(st, step))
  {
    TidyStep(st, step);
    HoldStep(st, step);
    TalkStep(st, step);
    ParkStep(st, step);
    DrainKeeps(st, step);
    OrderStep(st, step);
  }
}
