/**
 Which streams a session takes in: the declared names, the reserved names, the
 room per name and draining, for one delivery and over whole runs.
 */
module StreamPolicy {
  import opened StreamTable
  import opened Rendezvous
  import opened RendezvousRuns

  /** The names the library keeps for itself. */
  const CONTROL_NAMES: set<Name> := {DISCOVERY_STREAM, LAN_CONTROL_STREAM, GO_AWAY_STREAM}

  predicate Declared(t: Table, n: Name) { t.allowed.Only? ==> n in t.allowed.names }

  /** Turned away at the door: an application name while draining, or one nobody declared. */
  predicate TurnedAway(t: Table, n: Name) { n !in CONTROL_NAMES && (t.draining || !Declared(t, n)) }

  /** Room for parked streams of one name: what was configured, or one. */
  predicate Full(t: Table, n: Name) {
    var room := if t.maxBufferedPerName > 0 then t.maxBufferedPerName else 1;
    |Queue(t.parked, n)| >= room
  }

  /**
   A delivery is refused exactly when its name is turned away or nobody waits and the
   park is full; it goes to the oldest waiter exactly when it is not turned away and someone
   waits; and it is parked last in every other case. Nothing else in the table changes.
   */
  lemma DeliveryVerdict(t: Table, n: Name, s: StreamId)
    ensures var (t', v) := DeliverSection(t, n, s);
            var waiting := Queue(t.pending, n);
            && (v == Refuse <==> TurnedAway(t, n) || (waiting == [] && Full(t, n)))
            && (v.HandTo? <==> !TurnedAway(t, n) && waiting != [])
            && (v.HandTo? ==> v.waiter == waiting[0] && t' == t.(pending := t.pending[n := waiting[1..]]))
            && (v == Refuse ==> t' == t)
            && (v == Park ==> t' == t.(parked := t.parked[n := Queue(t.parked, n) + [s]]))
  {
  }

  /** With nobody waiting and an empty park, only an undeclared application name is refused. */
  lemma OnlyUndeclaredNamesAreRefused(t: Table, n: Name, s: StreamId)
    requires !t.draining && Queue(t.pending, n) == [] && Queue(t.parked, n) == []
    ensures DeliverSection(t, n, s).1 == Refuse <==>
              t.allowed.Only? && n !in t.allowed.names && n !in {DISCOVERY_STREAM, LAN_CONTROL_STREAM, GO_AWAY_STREAM}
    ensures DeliverSection(t, n, s).1 != Refuse ==> DeliverSection(t, n, s).1 == Park
  {
  }

  /** A parked stream of a name is taken by the next call for it, the oldest first; otherwise the call queues last. */
  lemma AcceptVerdict(t: Table, n: Name, w: WaiterId)
    ensures var (t', r) := AcceptSection(t, n, w);
            var parked := Queue(t.parked, n);
            && (r.Took? <==> parked != [])
            && (r.Took? ==> r.stream == parked[0] && Queue(t'.parked, n) == parked[1..] && t'.pending == t.pending)
            && (r == MustWait ==> Queue(t'.pending, n) == Queue(t.pending, n) + [w] && t'.parked == t.parked)
            && (forall m :: m != n ==> Queue(t'.parked, m) == Queue(t.parked, m) && Queue(t'.pending, m) == Queue(t.pending, m))
  {
  }

  // ------------------------------------------------------------------
  // Over runs
  // ------------------------------------------------------------------

  lemma PolicyStep(st: State, step: Step)
    requires Enabled(st, step)
    ensures Do(st, step).table.allowed == st.table.allowed
    ensures Do(st, step).table.maxBufferedPerName == st.table.maxBufferedPerName
  {
  }

  /** No step changes the policy. */
  lemma {:induction false} PolicyStays(states: seq<State>, steps: seq<Step>, i: nat)
    requires Run(states, steps) && i < |states|
    ensures states[i].table.allowed == states[0].table.allowed
    ensures states[i].table.maxBufferedPerName == states[0].table.maxBufferedPerName
  {
    if i > 0 {
      PolicyStays(states, steps, i - 1);
      PolicyStep(states[i - 1], steps[i - 1]);
    }
  }

  lemma DrainingStep(st: State, step: Step)
    requires Enabled(st, step)
    ensures Do(st, step).table.draining <==> st.table.draining || step == EnterDrain
  {
  }

  /** A session drains exactly from its first go-away on. */
  lemma {:induction false} DrainsFromGoAwayOn(states: seq<State>, steps: seq<Step>, j: nat)
    requires Run(states, steps) && j < |states|
    ensures states[j].table.draining <==> exists i :: 0 <= i < j && steps[i] == EnterDrain
  {
    if j > 0 {
      DrainsFromGoAwayOn(states, steps, j - 1);
      DrainingStep(states[j - 1], steps[j - 1]);
    }
  }

  lemma NamedStep(st: State, step: Step, w: WaiterId)
    requires Enabled(st, step) && (w in st.waiters ==> st.waiters[w].name != "")
    ensures w in Do(st, step).waiters ==> Do(st, step).waiters[w].name != ""
  {
  }

  /** A call that waits or has returned a stream asked for a non-empty name. */
  lemma {:induction false} CallsAreNamed(states: seq<State>, steps: seq<Step>, i: nat, w: WaiterId)
    requires Run(states, steps) && i < |states| && w in states[i].waiters
    ensures states[i].waiters[w].name != ""
  {
    if i > 0 {
      if w in states[i - 1].waiters { CallsAreNamed(states, steps, i - 1, w); }
      NamedStep(states[i - 1], steps[i - 1], w);
    }
  }

  predicate Undeclared(st: State, s: StreamId) {
    s in st.streams && st.streams[s].name !in CONTROL_NAMES && !Declared(st.table, st.streams[s].name)
  }

  predicate NotTakenIn(st: State, s: StreamId) { DeliveryAt(st, s, Arrived) || Refused(st, s) }

  lemma NameStep(st: State, step: Step, s: StreamId)
    requires Enabled(st, step) && s in st.streams
    ensures s in Do(st, step).streams && Do(st, step).streams[s].name == st.streams[s].name
  {
  }

  lemma UndeclaredStep(st: State, step: Step, s: StreamId)
    requires Enabled(st, step) && Undeclared(st, s) && NotTakenIn(st, s)
    ensures NotTakenIn(Do(st, step), s)
  {
    if Refused(st, s) {
      RefusedStep(st, step, s);
    } else if step == Deliver(s) {
      DeliveryVerdict(st.table, st.streams[s].name, s);
    } else {
      ArrivedStays(st, step, s);
    }
  }

  lemma ArrivedStays(st: State, step: Step, s: StreamId)
    requires Enabled(st, step) && DeliveryAt(st, s, Arrived) && step != Deliver(s)
    ensures DeliveryAt(Do(st, step), s, Arrived)
  {
  }

  lemma {:induction false} UndeclaredNotTakenIn(states: seq<State>, steps: seq<Step>, i: nat, s: StreamId)
    requires Run(states, steps) && i < |states| && Undeclared(states[i], s)
    ensures NotTakenIn(states[i], s)
  {
    var st, step := states[i - 1], steps[i - 1];
    PolicyStays(states, steps, i);
    PolicyStays(states, steps, i - 1);
    if s in st.streams {
      NameStep(st, step, s);
      UndeclaredNotTakenIn(states, steps, i - 1, s);
      UndeclaredStep(st, step, s);
    } else {
      NewStream(st, step, s);
    }
  }

  lemma NewStream(st: State, step: Step, s: StreamId)
    requires Enabled(st, step) && s !in st.streams && s in Do(st, step).streams
    ensures DeliveryAt(Do(st, step), s, Arrived)
  {
  }

  /** A stream of an undeclared application name is never parked, never returned, and ends up reset once. */
  lemma UndeclaredStreamsAreReset(states: seq<State>, steps: seq<Step>, i: nat, s: StreamId)
    requires Run(states, steps) && i < |states| && Undeclared(states[i], s)
    ensures forall n :: s !in Queue(states[i].table.parked, n)
    ensures forall w :: !WaiterAt(states[i], w, Returned(s))
    ensures AllQuiet(states[i]) ==> multiset(states[i].resets)[s] == 1
  {
    var st := states[i];
    UndeclaredNotTakenIn(states, steps, i, s);
    RunInv(states, steps, i);
    var p := if s in st.resets then WasReset else InDelivery(s);
    assert Holds(st, p, s);
    forall n ensures s !in Queue(st.table.parked, n) { assert Holds(st, InPark(n), s) ==> InPark(n) == p; }
    forall w ensures !WaiterAt(st, w, Returned(s)) { assert Holds(st, WithCaller(w), s) ==> WithCaller(w) == p; }
    if AllQuiet(st) { Settled(states, steps, i, s); }
  }

  /** A name nobody declared never has anything parked. */
  lemma UndeclaredNamesStayEmpty(states: seq<State>, steps: seq<Step>, i: nat, n: Name)
    requires Run(states, steps) && i < |states| && n !in CONTROL_NAMES && !Declared(states[i].table, n)
    ensures Queue(states[i].table.parked, n) == []
  {
    RunInv(states, steps, i);
    var q := Queue(states[i].table.parked, n);
    if q != [] {
      assert ParkedOk(states[i], n, q[0]);
      UndeclaredStreamsAreReset(states, steps, i, q[0]);
      assert false;
    }
  }
}
