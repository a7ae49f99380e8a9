/**
 Every interleaving of AcceptStream, its cancellation, incoming delivery, park
 timers, drain and close. One step is one critical section of `streamMu`, one
 channel operation, one atomic load or store, or one stream reset; between any
 two of them every other goroutine may run.
 */
module Rendezvous {
  import opened Sequences
  import opened StreamTable

  /** Where an AcceptStream call stands. Its channel has room for one stream. */
  datatype AcceptPc =
    | Waiting                      // in the select on channel and contexts
    | Removing                     // a context won; about to run removePending
    | Storing                      // about to store done
    | Checking                     // about to poll its channel once
    | Abandoned(held: StreamId)    // polled a stream; about to reset it
    | Returned(got: StreamId)      // handed a stream to the caller
    | Cancelled                    // returned an error

  datatype Waiter = Waiter(name: Name, pc: AcceptPc, ch: seq<StreamId>, done: bool)

  /** Where the deliverIncomingStream call of one stream stands. */
  datatype DeliverPc =
    | Arrived
    | Rejecting
    | Sending(to: WaiterId)        // popped the waiter, lock released
    | Sent(to: WaiterId)           // about to load done
    | TakingBack(to: WaiterId)     // done was set; about to poll the channel
    | Leaked(held: StreamId)       // polled it back; about to reset it
    | Arming                       // parked; about to start the timer
    | Delivered

  datatype TimerPc = Unarmed | Armed | Expired | Stopped

  datatype Delivery = Delivery(name: Name, pc: DeliverPc, timer: TimerPc)

  /** A pass over the parked streams by drain or by close. */
  datatype Rejecter = NotStarted | Swapping | Resetting(todo: set<StreamId>)

  /** What each name's queues have seen, in order. */
  datatype History = History(
    queued: seq<WaiterId>, popped: seq<WaiterId>,
    parked: seq<StreamId>, handed: seq<StreamId>)

  datatype State = State(
    table: Table,
    waiters: map<WaiterId, Waiter>,
    streams: map<StreamId, Delivery>,
    drain: Rejecter,
    close: Rejecter,
    resets: seq<StreamId>,
    log: map<Name, History>)

  datatype Step =
    | Arrive(s: StreamId, n: Name) | Deliver(s: StreamId) | Reject(s: StreamId)
    | Send(s: StreamId) | LoadDone(s: StreamId) | TakeBack(s: StreamId) | ResetLeaked(s: StreamId)
    | Arm(s: StreamId) | Fire(s: StreamId) | ResetExpired(s: StreamId)
    | Accept(w: WaiterId, n: Name) | Receive(w: WaiterId) | Cancel(w: WaiterId) | Remove(w: WaiterId)
    | StoreDone(w: WaiterId) | Poll(w: WaiterId) | ResetAbandoned(w: WaiterId)
    | EnterDrain | DrainSwap | DrainReset(s: StreamId)
    | Close | CloseSwap | CloseReset(s: StreamId)

  function Log(st: State, n: Name): History {
    if n in st.log then st.log[n] else History([], [], [], [])
  }

  ghost predicate Init(st: State) {
    && st.table.pending == map[] && st.table.parked == map[] && !st.table.draining
    && st.waiters == map[] && st.streams == map[] && st.log == map[]
    && st.drain == NotStarted && st.close == NotStarted && st.resets == []
  }

  predicate DeliveryAt(st: State, s: StreamId, pc: DeliverPc) {
    s in st.streams && st.streams[s].pc == pc
  }

  predicate WaiterAt(st: State, w: WaiterId, pc: AcceptPc) {
    w in st.waiters && st.waiters[w].pc == pc
  }

  predicate Enabled(st: State, step: Step) {
    match step
    case Arrive(s, _) => s !in st.streams
    case Deliver(s) => DeliveryAt(st, s, Arrived)
    case Reject(s) => DeliveryAt(st, s, Rejecting)
    case Send(s) =>
      && s in st.streams && st.streams[s].pc.Sending?
      && var w := st.streams[s].pc.to; w in st.waiters && |st.waiters[w].ch| < 1
    case LoadDone(s) =>
      s in st.streams && st.streams[s].pc.Sent? && st.streams[s].pc.to in st.waiters
    case TakeBack(s) =>
      s in st.streams && st.streams[s].pc.TakingBack? && st.streams[s].pc.to in st.waiters
    case ResetLeaked(s) => s in st.streams && st.streams[s].pc.Leaked?
    case Arm(s) => DeliveryAt(st, s, Arming)
    case Fire(s) => s in st.streams && st.streams[s].timer == Armed
    case ResetExpired(s) => s in st.streams && st.streams[s].timer == Expired
    case Accept(w, n) => n != "" && w !in st.waiters
    case Receive(w) => WaiterAt(st, w, Waiting) && st.waiters[w].ch != []
    case Cancel(w) => WaiterAt(st, w, Waiting)
    case Remove(w) => WaiterAt(st, w, Removing)
    case StoreDone(w) => WaiterAt(st, w, Storing)
    case Poll(w) => WaiterAt(st, w, Checking)
    case ResetAbandoned(w) => w in st.waiters && st.waiters[w].pc.Abandoned?
    case EnterDrain => true
    case DrainSwap => st.drain == Swapping
    case DrainReset(s) => st.drain.Resetting? && s in st.drain.todo
    case Close => st.close == NotStarted
    case CloseSwap => st.close == Swapping
    case CloseReset(s) => st.close.Resetting? && s in st.close.todo
  }

  function Moved(st: State, s: StreamId, pc: DeliverPc): State
    requires s in st.streams
  {
    st.(streams := st.streams[s := st.streams[s].(pc := pc)])
  }

  function Timed(st: State, s: StreamId, timer: TimerPc): State
    requires s in st.streams
  {
    st.(streams := st.streams[s := st.streams[s].(timer := timer)])
  }

  function At(st: State, w: WaiterId, pc: AcceptPc): State
    requires w in st.waiters
  {
    st.(waiters := st.waiters[w := st.waiters[w].(pc := pc)])
  }

  function WithChannel(st: State, w: WaiterId, ch: seq<StreamId>): State
    requires w in st.waiters
  {
    st.(waiters := st.waiters[w := st.waiters[w].(ch := ch)])
  }

  function DidReset(st: State, s: StreamId): State {
    st.(resets := st.resets + [s])
  }

  /** The streams a map swap hands to the rejecting goroutine. */
  function AllParked(t: Table): (r: set<StreamId>) {
    set n, s | n in t.parked && s in t.parked[n] :: s
  }

  function DoDeliver(st: State, s: StreamId): State
    requires s in st.streams
  {
    var n := st.streams[s].name;
    var (t, v) := DeliverSection(st.table, n, s);
    var h := Log(st, n);
    match v
    case Refuse => Moved(st, s, Rejecting)
    case HandTo(w) => Moved(st.(table := t, log := st.log[n := h.(popped := h.popped + [w])]), s, Sending(w))
    case Park => Moved(st.(table := t, log := st.log[n := h.(parked := h.parked + [s])]), s, Arming)
  }

  function DoAccept(st: State, w: WaiterId, n: Name): State {
    var (t, r) := AcceptSection(st.table, n, w);
    var h := Log(st, n);
    match r
    case Took(s) =>
      st.(table := t, waiters := st.waiters[w := Waiter(n, Returned(s), [], false)],
          log := st.log[n := h.(handed := h.handed + [s])])
    case MustWait =>
      st.(table := t, waiters := st.waiters[w := Waiter(n, Waiting, [], false)],
          log := st.log[n := h.(queued := h.queued + [w])])
  }

  function Do(st: State, step: Step): State
    requires Enabled(st, step)
  {
    match step
    case Arrive(s, n) => st.(streams := st.streams[s := Delivery(n, Arrived, Unarmed)])
    case Deliver(s) => DoDeliver(st, s)
    case Reject(s) => DidReset(Moved(st, s, Delivered), s)
    case Send(s) =>
      var w := st.streams[s].pc.to;
      Moved(WithChannel(st, w, st.waiters[w].ch + [s]), s, Sent(w))
    case LoadDone(s) =>
      var w := st.streams[s].pc.to;
      Moved(st, s, if st.waiters[w].done then TakingBack(w) else Delivered)
    case TakeBack(s) =>
      var w := st.streams[s].pc.to;
      var ch := st.waiters[w].ch;
      if ch == [] then Moved(st, s, Delivered)
      else Moved(WithChannel(st, w, ch[1..]), s, Leaked(ch[0]))
    case ResetLeaked(s) => DidReset(Moved(st, s, Delivered), st.streams[s].pc.held)
    case Arm(s) => Timed(Moved(st, s, Delivered), s, Armed)
    case Fire(s) =>
      var (t, hit) := ExpireSection(st.table, st.streams[s].name, s);
      Timed(st.(table := t), s, if hit then Expired else Stopped)
    case ResetExpired(s) => DidReset(Timed(st, s, Stopped), s)
    case Accept(w, n) => DoAccept(st, w, n)
    case Receive(w) =>
      var ch := st.waiters[w].ch;
      At(WithChannel(st, w, ch[1..]), w, Returned(ch[0]))
    case Cancel(w) => At(st, w, Removing)
    case Remove(w) => At(st.(table := RemovePendingSection(st.table, st.waiters[w].name, w)), w, Storing)
    case StoreDone(w) => At(st.(waiters := st.waiters[w := st.waiters[w].(done := true)]), w, Checking)
    case Poll(w) =>
      var ch := st.waiters[w].ch;
      if ch == [] then At(st, w, Cancelled)
      else At(WithChannel(st, w, ch[1..]), w, Abandoned(ch[0]))
    case ResetAbandoned(w) => DidReset(At(st, w, Cancelled), st.waiters[w].pc.held)
    case EnterDrain =>
      if st.table.draining then st else st.(table := DrainSection(st.table), drain := Swapping)
    case DrainSwap => st.(table := SwapSection(st.table), drain := Resetting(AllParked(st.table)))
    case DrainReset(s) => DidReset(st.(drain := Resetting(st.drain.todo - {s})), s)
    case Close => st.(close := Swapping)
    case CloseSwap => st.(table := SwapSection(st.table), close := Resetting(AllParked(st.table)))
    case CloseReset(s) => DidReset(st.(close := Resetting(st.close.todo - {s})), s)
  }

  // ------------------------------------------------------------------
  // Holders
  // ------------------------------------------------------------------

  datatype Place =
    | InDelivery(d: StreamId) | InTimer(d: StreamId) | InPark(n: Name) | InChannel(w: WaiterId)
    | WithAbandoner(w: WaiterId) | WithCaller(w: WaiterId) | InDrain | InClose | WasReset

  predicate PcHolds(pc: DeliverPc, d: StreamId, s: StreamId) {
    match pc
    case Arrived => s == d
    case Rejecting => s == d
    case Sending(_) => s == d
    case Leaked(x) => s == x
    case _ => false
  }

  /** Stream `s` is in the hands of `p`: a local of a goroutine, a queue, a channel, or the reset log. */
  ghost predicate Holds(st: State, p: Place, s: StreamId) {
    match p
    case InDelivery(d) => d in st.streams && PcHolds(st.streams[d].pc, d, s)
    case InTimer(d) => d in st.streams && st.streams[d].timer == Expired && s == d
    case InPark(n) => s in Queue(st.table.parked, n)
    case InChannel(w) => w in st.waiters && s in st.waiters[w].ch
    case WithAbandoner(w) => WaiterAt(st, w, Abandoned(s))
    case WithCaller(w) => WaiterAt(st, w, Returned(s))
    case InDrain => st.drain.Resetting? && s in st.drain.todo
    case InClose => st.close.Resetting? && s in st.close.todo
    case WasReset => s in st.resets
  }

  ghost predicate Held(st: State, s: StreamId) { exists p :: Holds(st, p, s) }

  /** No place can count a stream twice. */
  ghost predicate Tidy(st: State) {
    && NoDup(st.resets)
    && (forall n :: NoDup(Queue(st.table.parked, n)))
  }

  ghost predicate OneHolder(st: State) {
    && (forall s, p, q :: Holds(st, p, s) && Holds(st, q, s) ==> p == q)
    && (forall s :: Held(st, s) <==> s in st.streams)
  }

  // ------------------------------------------------------------------
  // The waiter protocol: pop, send, done, take-back
  // ------------------------------------------------------------------

  function Target(pc: DeliverPc): set<WaiterId> {
    match pc
    case Sending(w) => {w}
    case Sent(w) => {w}
    case TakingBack(w) => {w}
    case _ => {}
  }

  predicate Targets(st: State, d: StreamId, w: WaiterId) {
    d in st.streams && w in Target(st.streams[d].pc)
  }

  predicate Open(pc: AcceptPc) {
    pc.Waiting? || pc.Removing? || pc.Storing? || pc.Checking?
  }

  predicate Opened(st: State, s: StreamId, n: Name) {
    s in st.streams && st.streams[s].name == n
  }

  /** A queued waiter is still in its select or has just left it, and has been sent nothing. */
  predicate QueuedOk(st: State, n: Name, w: WaiterId) {
    && w in st.waiters && st.waiters[w].name == n
    && (st.waiters[w].pc.Waiting? || st.waiters[w].pc.Removing?)
    && st.waiters[w].ch == []
  }

  /** A delivery that popped a waiter is the only sender that waiter's channel ever has. */
  predicate AimOk(st: State, d: StreamId, w: WaiterId)
    requires d in st.streams
  {
    && w in st.waiters && st.waiters[w].name == st.streams[d].name
    && w !in Queue(st.table.pending, st.streams[d].name)
    && (st.waiters[w].ch == [] || st.waiters[w].ch == [d])
    && (st.streams[d].pc.Sending? ==>
          st.waiters[w].ch == [] && (Open(st.waiters[w].pc) || st.waiters[w].pc.Cancelled?))
  }

  /** A channel that holds a stream has someone who will still empty it. */
  predicate WaiterOk(st: State, w: WaiterId)
    requires w in st.waiters
  {
    var x := st.waiters[w];
    && |x.ch| <= 1
    && (x.ch != [] ==>
          && Opened(st, x.ch[0], x.name)
          && (Open(x.pc) || (x.pc.Cancelled? && Targets(st, x.ch[0], w))))
    && (x.pc.Checking? || x.pc.Cancelled? || x.pc.Abandoned? ==> x.done)
    && (x.pc.Returned? ==> Opened(st, x.pc.got, x.name))
  }

  ghost predicate QueuedWaiters(st: State) {
    && (forall n :: NoDup(Queue(st.table.pending, n)))
    && (forall n, w :: w in Queue(st.table.pending, n) ==> QueuedOk(st, n, w))
  }

  ghost predicate Targeting(st: State) {
    && (forall d, w :: Targets(st, d, w) ==> AimOk(st, d, w))
    && (forall d, e, w :: Targets(st, d, w) && Targets(st, e, w) ==> d == e)
  }

  ghost predicate Channels(st: State) {
    forall w :: w in st.waiters ==> WaiterOk(st, w)
  }

  // ------------------------------------------------------------------
  // The park
  // ------------------------------------------------------------------

  /** A parked stream has a timer, or its delivery is about to start one. */
  predicate ParkedOk(st: State, n: Name, s: StreamId) {
    Opened(st, s, n) && (st.streams[s].pc == Arming || st.streams[s].timer == Armed)
  }

  predicate QueuesOk(t: Table, n: Name) {
    && |Queue(t.parked, n)| <= BufferedCap(t)
    && (Queue(t.pending, n) == [] || Queue(t.parked, n) == [])
  }

  ghost predicate Parks(st: State) {
    && (forall n, s :: s in Queue(st.table.parked, n) ==> ParkedOk(st, n, s))
    && (forall n :: QueuesOk(st.table, n))
    && (forall s :: s in st.streams && st.streams[s].timer != Unarmed ==> st.streams[s].pc == Delivered)
  }

  ghost predicate Drains(st: State) {
    && (st.table.draining <==> st.drain != NotStarted)
    && (st.drain.Resetting? ==> forall n :: !Reserved(n) ==> Queue(st.table.parked, n) == [])
  }

  /** Everything that left a queue by its head, followed by what is still in it, kept its arrival order. */
  ghost predicate OrderOk(h: History, pending: seq<WaiterId>, parked: seq<StreamId>) {
    Subseq(h.popped + pending, h.queued) && Subseq(h.handed + parked, h.parked)
  }

  ghost predicate Ordered(st: State, n: Name) {
    OrderOk(Log(st, n), Queue(st.table.pending, n), Queue(st.table.parked, n))
  }

  ghost predicate InOrder(st: State) {
    forall n :: Ordered(st, n)
  }

  ghost predicate Inv(st: State) {
    && Tidy(st) && OneHolder(st) && QueuedWaiters(st) && Targeting(st)
    && Channels(st) && Parks(st) && Drains(st) && InOrder(st)
  }
}
