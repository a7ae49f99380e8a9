/**
 The backend under the transition table's own guards and updates. The table
 raises the backoff level on every edge into RelayBackoff and compares the ping
 failures with a limit; generated machines leave both to their callbacks.
 */
module BackendTable {
  import opened BackendPath

  function Min(a: int, b: int): int { if a <= b then a else b }

  /** The failure guards mean what the table says they mean. */
  predicate TableGuards(b: Backend, inp: Input, limit: int) {
    && (UnderMaxFailures in inp.holds <==> b.pingFailures + 1 < limit)
    && (AtMaxFailures in inp.holds <==> b.pingFailures + 1 >= limit)
  }

  predicate Enters(b: Backend, b': Backend) { !b.state.RelayBackoff? && b'.state.RelayBackoff? }

  function TableOn(b: Backend, inp: Input, cap: int): Backend {
    var after := OnEvent(b, inp).machine;
    if Enters(b, after) then after.(backoffLevel := Min(b.backoffLevel + 1, cap)) else after
  }

  ghost predicate TableRun(ms: seq<Backend>, ins: seq<Input>, limit: int, cap: int) {
    && |ms| == |ins| + 1 && ms[0] == INITIAL
    && forall i :: 0 <= i < |ins| ==> StepAt(ms, ins, limit, cap, i)
  }

  predicate StepAt(ms: seq<Backend>, ins: seq<Input>, limit: int, cap: int, i: int)
    requires |ms| == |ins| + 1 && 0 <= i < |ins|
  {
    TableStep(ms[i], ins[i], ms[i + 1], limit, cap)
  }

  predicate TableStep(b: Backend, inp: Input, b': Backend, limit: int, cap: int) {
    TableGuards(b, inp, limit) && b' == TableOn(b, inp, cap)
  }

  /** A pair check that brings the alternate path up, or new candidates during a backoff. */
  predicate Resets(b: Backend, inp: Input, b': Backend) {
    || (b.state.CandidatesAdvertised? && b'.state.AltActive?)
    || (b.state.RelayBackoff? && inp.event.CandidatesChanged?)
  }

  /** How often RelayBackoff was entered since the last reset, read off the run. */
  ghost function Entries(ms: seq<Backend>, ins: seq<Input>, k: nat): nat
    requires |ms| == |ins| + 1 && k < |ms|
  {
    if k == 0 || Resets(ms[k - 1], ins[k - 1], ms[k]) then 0
    else Entries(ms, ins, k - 1) + if Enters(ms[k - 1], ms[k]) then 1 else 0
  }

  predicate PingOk(b: Backend, limit: int) {
    if b.state.AltDegraded? then 1 <= b.pingFailures <= limit - 1 else b.pingFailures == 0
  }

  predicate BackoffOk(b: Backend, entries: nat, cap: int) {
    b.backoffLevel == Min(cap, entries) && (OnAlt(b.state) ==> entries == 0)
  }

  /** What any row may do to the two counters, told by the states it joins. */
  predicate CountersMove(b: Backend, ev: Event, b': Backend) {
    && (b'.state.AltDegraded? ==> ev.PingTimeout? || (b.state.AltDegraded? && b'.pingFailures == b.pingFailures))
    && (b'.state.AltDegraded? && ev.PingTimeout? ==>
          b'.pingFailures == if b.state.AltActive? then 1 else b.pingFailures + 1)
    && (!b'.state.AltDegraded? ==> b'.pingFailures == 0 || (!b.state.AltDegraded? && b'.pingFailures == b.pingFailures))
    && (OnAlt(b'.state) && !OnAlt(b.state) ==> b.state.CandidatesAdvertised? && b'.state.AltActive?)
    && b'.backoffLevel == if (b.state.CandidatesAdvertised? && b'.state.AltActive?)
                             || (b.state.RelayBackoff? && ev.CandidatesChanged?) then 0 else b.backoffLevel
  }

  predicate RowCounters(b: Backend, ev: Event, row: Row) { row.Row? ==> CountersMove(b, ev, row.after) }

  lemma ActiveCounters(b: Backend, ev: Event, holds: set<Guard>)
    requires b.state.AltActive?
    ensures RowCounters(b, ev, ActiveRow(b, ev))
  {
  }

  lemma DegradedCounters(b: Backend, ev: Event, holds: set<Guard>)
    requires b.state.AltDegraded?
    ensures RowCounters(b, ev, DegradedRow(b, ev, holds))
  {
  }

  lemma RelayCounters(b: Backend, ev: Event, holds: set<Guard>)
    requires b.state.RelayConnected?
    ensures RowCounters(b, ev, RelayRow(b, ev, holds))
  {
  }

  lemma AdvertisedCounters(b: Backend, ev: Event, holds: set<Guard>)
    requires b.state.CandidatesAdvertised?
    ensures RowCounters(b, ev, AdvertisedRow(b, ev, holds))
  {
  }

  lemma BackoffCounters(b: Backend, ev: Event, holds: set<Guard>)
    requires b.state.RelayBackoff?
    ensures RowCounters(b, ev, BackoffRow(b, ev))
  {
  }

  lemma PairingCounters(b: Backend, ev: Event, holds: set<Guard>)
    requires !OnAlt(b.state) && !b.state.RelayConnected? && !b.state.CandidatesAdvertised? && !b.state.RelayBackoff?
    ensures RowCounters(b, ev, PairingRow(b, ev, holds))
  {
  }

  lemma EventCounters(b: Backend, inp: Input)
    ensures OnEvent(b, inp).machine == b || CountersMove(b, inp.event, OnEvent(b, inp).machine)
  {
    if b.state.AltActive? { ActiveCounters(b, inp.event, inp.holds); }
    else if b.state.AltDegraded? { DegradedCounters(b, inp.event, inp.holds); }
    else if b.state.RelayConnected? { RelayCounters(b, inp.event, inp.holds); }
    else if b.state.CandidatesAdvertised? { AdvertisedCounters(b, inp.event, inp.holds); }
    else if b.state.RelayBackoff? { BackoffCounters(b, inp.event, inp.holds); }
    else { PairingCounters(b, inp.event, inp.holds); }
  }

  lemma PingStep(b: Backend, inp: Input, b': Backend, limit: int, cap: int)
    requires limit >= 2 && PingOk(b, limit) && TableStep(b, inp, b', limit, cap)
    ensures PingOk(b', limit)
  {
    EventCounters(b, inp);
  }

  lemma BackoffStep(b: Backend, inp: Input, b': Backend, limit: int, cap: int, entries: nat, entries': nat)
    requires cap >= 0 && BackoffOk(b, entries, cap) && TableStep(b, inp, b', limit, cap)
    requires entries' == if Resets(b, inp, b') then 0 else entries + if Enters(b, b') then 1 else 0
    ensures BackoffOk(b', entries', cap)
  {
    EventCounters(b, inp);
  }

  ghost predicate CountersOk(ms: seq<Backend>, ins: seq<Input>, limit: int, cap: int, k: nat)
    requires |ms| == |ins| + 1 && k < |ms|
  {
    PingOk(ms[k], limit) && BackoffOk(ms[k], Entries(ms, ins, k), cap)
  }

  lemma CountersStep(ms: seq<Backend>, ins: seq<Input>, limit: int, cap: int, k: nat)
    requires limit >= 2 && cap >= 0 && |ms| == |ins| + 1 && 0 < k < |ms|
    requires TableStep(ms[k - 1], ins[k - 1], ms[k], limit, cap)
    requires CountersOk(ms, ins, limit, cap, k - 1)
    ensures CountersOk(ms, ins, limit, cap, k)
  {
    PingStep(ms[k - 1], ins[k - 1], ms[k], limit, cap);
    BackoffStep(ms[k - 1], ins[k - 1], ms[k], limit, cap, Entries(ms, ins, k - 1), Entries(ms, ins, k));
  }

  lemma {:induction false} CountersRun(ms: seq<Backend>, ins: seq<Input>, limit: int, cap: int, k: nat)
    requires limit >= 2 && cap >= 0 && TableRun(ms, ins, limit, cap) && k < |ms|
    ensures CountersOk(ms, ins, limit, cap, k)
  {
    if k > 0 {
      CountersRun(ms, ins, limit, cap, k - 1);
      assert StepAt(ms, ins, limit, cap, k - 1);
      CountersStep(ms, ins, limit, cap, k);
    }
  }

  /**
   At every point of every table run: ping failures are zero outside AltDegraded and
   between 1 and limit - 1 inside it; the backoff level is the number of entries
   into RelayBackoff since the last reset, capped, and zero on the alternate path.
   */
  lemma Counters(ms: seq<Backend>, ins: seq<Input>, limit: int, cap: int, k: nat)
    requires limit >= 2 && cap >= 0 && TableRun(ms, ins, limit, cap) && k < |ms|
    ensures if ms[k].state.AltDegraded? then 1 <= ms[k].pingFailures <= limit - 1 else ms[k].pingFailures == 0
    ensures ms[k].backoffLevel == Min(cap, Entries(ms, ins, k)) <= cap
    ensures OnAlt(ms[k].state) ==> ms[k].backoffLevel == 0
  {
    CountersRun(ms, ins, limit, cap, k);
  }

  // ------------------------------------------------------------------
  // The fallback comes on the limit-th silent ping
  // ------------------------------------------------------------------

  /** Ping timeouts among inputs `lo..hi`. */
  ghost function Timeouts(ins: seq<Input>, lo: nat, hi: nat): nat
    requires lo <= hi <= |ins|
    decreases hi
  {
    if lo == hi then 0 else Timeouts(ins, lo, hi - 1) + if ins[hi - 1].event.PingTimeout? then 1 else 0
  }

  /** Nothing but pings and traffic happens: no pong, no stream error, no forced fallback, no failing fallback. */
  predicate Silent(inp: Input) {
    && !inp.event.RecvPathPong? && !inp.event.AltStreamError? && !inp.event.AppForceFallback?
    && FallbackToRelay !in inp.failing
  }

  lemma SilentActive(b: Backend, inp: Input, cap: int)
    requires b.state.AltActive? && Silent(inp)
    ensures inp.event.PingTimeout? ==>
              TableOn(b, inp, cap).state == AltDegraded && TableOn(b, inp, cap).pingFailures == 1
    ensures !inp.event.PingTimeout? ==> TableOn(b, inp, cap) == b
  {
  }

  lemma SilentDegraded(b: Backend, inp: Input, limit: int, cap: int)
    requires b.state.AltDegraded? && Silent(inp) && TableGuards(b, inp, limit)
    ensures inp.event.PingTimeout? && b.pingFailures + 1 < limit ==>
              TableOn(b, inp, cap) == b.(pingFailures := b.pingFailures + 1)
    ensures inp.event.PingTimeout? && b.pingFailures + 1 >= limit ==> TableOn(b, inp, cap).state == RelayBackoff
    ensures !inp.event.PingTimeout? ==> TableOn(b, inp, cap) == b
  {
  }

  /** `n` timeouts into a silent stretch. */
  predicate Counted(b: Backend, n: nat) { b.pingFailures == n && b.state == if n == 0 then AltActive else AltDegraded }

  lemma SilentStep(b: Backend, inp: Input, b': Backend, limit: int, cap: int, n: nat)
    requires Counted(b, n) && Silent(inp) && TableStep(b, inp, b', limit, cap)
    ensures !inp.event.PingTimeout? ==> Counted(b', n)
    ensures inp.event.PingTimeout? && n + 1 < limit ==> Counted(b', n + 1)
    ensures inp.event.PingTimeout? && limit >= 2 && n + 1 == limit ==> b'.state.RelayBackoff?
  {
    if n == 0 { SilentActive(b, inp, cap); } else { SilentDegraded(b, inp, limit, cap); }
  }

  lemma {:induction false} StillCounting(ms: seq<Backend>, ins: seq<Input>, limit: int, cap: int, lo: nat, hi: nat)
    requires limit >= 2 && TableRun(ms, ins, limit, cap) && lo <= hi <= |ins|
    requires Counted(ms[lo], 0)
    requires forall i :: lo <= i < hi ==> Silent(ins[i])
    requires Timeouts(ins, lo, hi) < limit
    ensures Counted(ms[hi], Timeouts(ins, lo, hi))
    decreases hi
  {
    if lo < hi {
      StillCounting(ms, ins, limit, cap, lo, hi - 1);
      assert StepAt(ms, ins, limit, cap, hi - 1);
      SilentStep(ms[hi - 1], ins[hi - 1], ms[hi], limit, cap, Timeouts(ins, lo, hi - 1));
    }
  }

  /**
   From AltActive, as long as no pong and no other fallback intervenes, the machine
   stays on the alternate path through limit - 1 ping timeouts, counting them, and
   the limit-th one takes it to RelayBackoff.
   */
  lemma FallsBackOnTheLimit(ms: seq<Backend>, ins: seq<Input>, limit: int, cap: int, lo: nat, hi: nat)
    requires limit >= 2 && cap >= 0 && TableRun(ms, ins, limit, cap) && lo <= hi <= |ins|
    requires ms[lo].state.AltActive?
    requires forall i :: lo <= i < hi ==> Silent(ins[i])
    ensures var n := Timeouts(ins, lo, hi);
            n < limit ==> ms[hi].pingFailures == n && ms[hi].state == if n == 0 then AltActive else AltDegraded
    ensures lo < hi && Timeouts(ins, lo, hi - 1) == limit - 1 && ins[hi - 1].event.PingTimeout? ==>
              ms[hi].state.RelayBackoff?
  {
    Counters(ms, ins, limit, cap, lo);
    if Timeouts(ins, lo, hi) < limit {
      StillCounting(ms, ins, limit, cap, lo, hi);
    } else if lo < hi && Timeouts(ins, lo, hi - 1) == limit - 1 {
      StillCounting(ms, ins, limit, cap, lo, hi - 1);
      assert StepAt(ms, ins, limit, cap, hi - 1);
      SilentStep(ms[hi - 1], ins[hi - 1], ms[hi], limit, cap, limit - 1);
    }
  }
}
