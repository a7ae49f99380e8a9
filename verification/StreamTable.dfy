/**
 The state a session guards with `streamMu`, and the critical sections that
 change it. `Table` is the value of that state; each section is a function on
 it, and `Session` is the object whose methods run the sections in place.
 */
module StreamTable {
  import opened Sequences

  type Name = string
  type StreamId = int
  type WaiterId = int

  const DISCOVERY_STREAM: Name := "\0pigeon.enumerate"
  const LAN_CONTROL_STREAM: Name := "\0pigeon.lan"
  const GO_AWAY_STREAM: Name := "\0pigeon.goaway"
  const DEFAULT_MAX_BUFFERED_STREAMS := 1

  predicate Reserved(n: Name) {
    n == DISCOVERY_STREAM || n == LAN_CONTROL_STREAM || n == GO_AWAY_STREAM
  }

  datatype Allowlist = AnyName | Only(names: set<Name>)

  datatype Table = Table(
    pending: map<Name, seq<WaiterId>>,
    parked: map<Name, seq<StreamId>>,
    allowed: Allowlist,
    maxBufferedPerName: int,
    draining: bool)

  /** A Go map lookup: a missing key reads as the empty slice. */
  function Queue<T>(m: map<Name, seq<T>>, n: Name): seq<T> {
    if n in m then m[n] else []
  }

  function BufferedCap(t: Table): (c: int)
    ensures c >= 1
  {
    if t.maxBufferedPerName <= 0 then DEFAULT_MAX_BUFFERED_STREAMS else t.maxBufferedPerName
  }

  predicate NameAllowed(allowed: Allowlist, n: Name) {
    Reserved(n) || allowed.AnyName? || n in allowed.names
  }

  predicate Refuses(t: Table, n: Name) {
    (t.draining || (t.allowed.Only? && !NameAllowed(t.allowed, n))) && !Reserved(n)
  }

  /** Store a queue, dropping the key when the queue is empty. */
  function SetParked(t: Table, n: Name, q: seq<StreamId>): Table {
    t.(parked := if q == [] then t.parked - {n} else t.parked[n := q])
  }

  datatype Accepted = Took(stream: StreamId) | MustWait

  function AcceptSection(t: Table, n: Name, w: WaiterId): (Table, Accepted) {
    var q := Queue(t.parked, n);
    if |q| > 0 then (SetParked(t, n, q[1..]), Took(q[0]))
    else (t.(pending := t.pending[n := Queue(t.pending, n) + [w]]), MustWait)
  }

  function RemovePendingSection(t: Table, n: Name, w: WaiterId): Table {
    var q := Queue(t.pending, n);
    if w in q then t.(pending := t.pending[n := RemoveFirst(q, w)]) else t
  }

  datatype Verdict = Refuse | HandTo(waiter: WaiterId) | Park

  function DeliverSection(t: Table, n: Name, s: StreamId): (Table, Verdict) {
    var q := Queue(t.pending, n);
    if Refuses(t, n) then (t, Refuse)
    else if |q| > 0 then (t.(pending := t.pending[n := q[1..]]), HandTo(q[0]))
    else if |Queue(t.parked, n)| >= BufferedCap(t) then (t, Refuse)
    else (t.(parked := t.parked[n := Queue(t.parked, n) + [s]]), Park)
  }

  function ExpireSection(t: Table, n: Name, s: StreamId): (Table, bool) {
    var q := Queue(t.parked, n);
    if s in q then (SetParked(t, n, RemoveFirst(q, s)), true) else (t, false)
  }

  function SwapSection(t: Table): Table { t.(parked := map[]) }

  function DrainSection(t: Table): Table { t.(draining := true) }

  class Session {
    var pendingOpens: map<Name, seq<WaiterId>>
    var bufferedStreams: map<Name, seq<StreamId>>
    var allowedStreams: Allowlist
    var maxBufferedPerName: int
    var draining: bool

    function View(): Table
      reads this
    {
      Table(pendingOpens, bufferedStreams, allowedStreams, maxBufferedPerName, draining)
    }

    constructor ()
      ensures View() == Table(map[], map[], AnyName, DEFAULT_MAX_BUFFERED_STREAMS, false)
    {
      pendingOpens, bufferedStreams := map[], map[];
      allowedStreams, maxBufferedPerName, draining := AnyName, DEFAULT_MAX_BUFFERED_STREAMS, false;
    }

    /** An empty list means no policy; otherwise every non-empty listed name is declared. */
    method ApplyStreamPolicy(names: seq<Name>)
      modifies this`allowedStreams
      ensures names == [] ==> allowedStreams == old(allowedStreams)
      ensures names != [] ==> allowedStreams == Only(set n | n in names && n != "")
    {
      if |names| == 0 { return; }
      var allowed: set<Name> := {};
      for i := 0 to |names|
        invariant allowed == set n | n in names[..i] && n != ""
      {
        assert names[..i + 1] == names[..i] + [names[i]];
        if names[i] != "" { allowed := allowed + {names[i]}; }
      }
      assert names[..|names|] == names;
      allowedStreams := Only(allowed);
    }

    method AcceptLocked(name: Name, w: WaiterId) returns (r: Accepted)
      modifies this`pendingOpens, this`bufferedStreams
      ensures (View(), r) == AcceptSection(old(View()), name, w)
    {
      var buf := Queue(bufferedStreams, name);
      if |buf| > 0 {
        r := Took(buf[0]);
        bufferedStreams := bufferedStreams[name := buf[1..]];
        if |bufferedStreams[name]| == 0 {
          bufferedStreams := bufferedStreams - {name};
          assert bufferedStreams == old(bufferedStreams) - {name};
        }
      } else {
        pendingOpens := pendingOpens[name := Queue(pendingOpens, name) + [w]];
        r := MustWait;
      }
    }

    method RemovePending(name: Name, w: WaiterId)
      modifies this`pendingOpens
      ensures View() == RemovePendingSection(old(View()), name, w)
    {
      var q := Queue(pendingOpens, name);
      for i := 0 to |q|
        invariant w !in q[..i]
        invariant pendingOpens == old(pendingOpens)
      {
        if q[i] == w {
          RemoveFirstAt(q, w, i);
          pendingOpens := pendingOpens[name := q[..i] + q[i + 1..]];
          return;
        }
        assert q[..i + 1] == q[..i] + [q[i]];
      }
      assert q[..|q|] == q;
    }

    method DeliverLocked(name: Name, rwc: StreamId) returns (v: Verdict)
      modifies this`pendingOpens, this`bufferedStreams
      ensures (View(), v) == DeliverSection(old(View()), name, rwc)
    {
      if (draining || (allowedStreams.Only? && !NameAllowed(allowedStreams, name))) && !Reserved(name) {
        return Refuse;
      }
      var q := Queue(pendingOpens, name);
      if |q| > 0 {
        pendingOpens := pendingOpens[name := q[1..]];
        return HandTo(q[0]);
      }
      if |Queue(bufferedStreams, name)| >= BufferedCap(View()) {
        return Refuse;
      }
      bufferedStreams := bufferedStreams[name := Queue(bufferedStreams, name) + [rwc]];
      v := Park;
    }

    method ExpireBufferedLocked(name: Name, rwc: StreamId) returns (expired: bool)
      modifies this`bufferedStreams
      ensures (View(), expired) == ExpireSection(old(View()), name, rwc)
    {
      var q := Queue(bufferedStreams, name);
      for i := 0 to |q|
        invariant rwc !in q[..i]
        invariant bufferedStreams == old(bufferedStreams)
      {
        if q[i] == rwc {
          RemoveFirstAt(q, rwc, i);
          bufferedStreams := bufferedStreams[name := q[..i] + q[i + 1..]];
          if |bufferedStreams[name]| == 0 {
            bufferedStreams := bufferedStreams - {name};
            assert bufferedStreams == old(bufferedStreams) - {name};
          }
          return true;
        }
        assert q[..i + 1] == q[..i] + [q[i]];
      }
      assert q[..|q|] == q;
      expired := false;
    }

    method SwapParkedLocked() returns (buf: map<Name, seq<StreamId>>)
      modifies this`bufferedStreams
      ensures buf == old(bufferedStreams) && View() == SwapSection(old(View()))
    {
      buf := bufferedStreams;
      bufferedStreams := map[];
    }

    method EnterDrainLocked() returns (first: bool)
      modifies this`draining
      ensures first == !old(draining) && View() == DrainSection(old(View()))
    {
      if draining { return false; }
      draining := true;
      first := true;
    }
  }
}
