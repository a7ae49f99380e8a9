/**
 The runtime interpreter: a state plus two indexes from state and trigger to
 candidate rows. It changes the state only; variable updates and commands of a
 row belong to generated machines.
 */
module Interpreter {
  import opened StateForest
  import opened TransitionTable

  type Index = map<(StateName, string), seq<Transition>>

  function Lookup(index: Index, key: (StateName, string)): seq<Transition> {
    if key in index then index[key] else []
  }

  function Append(index: Index, key: (StateName, string), t: Transition): Index {
    index[key := Lookup(index, key) + [t]]
  }

  function KeyTrigger(recv: bool, name: string): Trigger { if recv then Recv(name) else Internal(name) }

  /** The index holds, for each state and name, the table's rows for it in order. */
  ghost predicate Indexes(index: Index, recv: bool, table: seq<Transition>) {
    forall s, n :: Lookup(index, (s, n)) == RowsFor(table, s, KeyTrigger(recv, n))
  }

  /** All internal rows leaving a state, in no particular order. */
  ghost predicate InternalRows(rows: seq<Transition>, table: seq<Transition>, state: StateName) {
    forall t :: t in rows <==> t in table && t.from == state && t.on.Internal?
  }

  lemma IndexSnoc(index: Index, recv: bool, table: seq<Transition>, t: Transition, key: string)
    requires Indexes(index, recv, table)
    requires t.on == KeyTrigger(recv, key)
    ensures Indexes(Append(index, (t.from, key), t), recv, table + [t])
  {
    forall s, n
      ensures Lookup(Append(index, (t.from, key), t), (s, n)) == RowsFor(table + [t], s, KeyTrigger(recv, n))
    {
      RowsForSnoc(table, t, s, KeyTrigger(recv, n));
      assert Lookup(index, (s, n)) == RowsFor(table, s, KeyTrigger(recv, n));
    }
  }

  lemma IndexSkip(index: Index, recv: bool, table: seq<Transition>, t: Transition)
    requires Indexes(index, recv, table)
    requires t.on.Recv? != recv
    ensures Indexes(index, recv, table + [t])
  {
    forall s, n
      ensures Lookup(index, (s, n)) == RowsFor(table + [t], s, KeyTrigger(recv, n))
    {
      RowsForSnoc(table, t, s, KeyTrigger(recv, n));
    }
  }

  class Machine {
    ghost var table: seq<Transition>
    var state: StateName
    var recvIndex: Index
    var internalIndex: Index

    ghost predicate Valid() reads this {
      Indexes(recvIndex, true, table) && Indexes(internalIndex, false, table)
    }

    constructor (a: Actor)
      ensures Valid() && table == Flat(a)
      ensures state == if a.machines != [] then a.machines[0].initial else a.initial
    {
      state := if |a.machines| > 0 then a.machines[0].initial else a.initial;
      recvIndex, internalIndex := map[], map[];
      table := Flat(a);
      new;
      var rows := FlattenedTransitions(a);
      for i := 0 to |rows|
        invariant Indexes(recvIndex, true, rows[..i]) && Indexes(internalIndex, false, rows[..i])
        invariant table == Flat(a)
        invariant state == if a.machines != [] then a.machines[0].initial else a.initial
      {
        var t := rows[i];
        assert rows[..i + 1] == rows[..i] + [t];
        match t.on {
          case Recv(msg) =>
            IndexSnoc(recvIndex, true, rows[..i], t, msg);
            IndexSkip(internalIndex, false, rows[..i], t);
            recvIndex := Append(recvIndex, (t.from, msg), t);
          case Internal(desc) =>
            IndexSnoc(internalIndex, false, rows[..i], t, desc);
            IndexSkip(recvIndex, true, rows[..i], t);
            internalIndex := Append(internalIndex, (t.from, desc), t);
        }
      }
      assert rows[..|rows|] == rows;
    }

    method TryTransitions(rows: seq<Transition>, env: Env) returns (o: Outcome)
      modifies `state
      ensures o == Try(rows, env)
      ensures state == if o.Fired? then o.row.to else old(state)
    {
      for i := 0 to |rows|
        invariant state == old(state)
        invariant Try(rows, env) == Try(rows[i..], env)
      {
        var t := rows[i];
        if t.guard != "" {
          if t.guard !in env.guards { return Unregistered(t.guard); }
          if !env.guards[t.guard] { continue; }
        }
        if t.action != "" {
          if t.action !in env.actions { return Unregistered(t.action); }
          if !env.actions[t.action] { return ActionFailed(t.action); }
        }
        state := t.to;
        return Fired(t);
      }
      return Rejected;
    }

    /**
     A message that is answered at all takes the first enabled row of the table;
     nothing but that changes the state.
     */
    method HandleMessage(msg: string, env: Env) returns (o: Outcome)
      requires Valid()
      modifies `state
      ensures Valid()
      ensures state == if o.Fired? then o.row.to else old(state)
      ensures !o.Unregistered? ==> o == Scan(table, old(state), Recv(msg), env)
      ensures o.Unregistered? <==> exists i: nat :: Stuck(RowsFor(table, old(state), Recv(msg)), i, env)
      ensures AllRegistered(table, env) ==> !o.Unregistered?
    {
      var rows := Lookup(recvIndex, (state, msg));
      TryAgainstScan(table, state, KeyTrigger(true, msg), env);
      RowsForMembers(table, state, KeyTrigger(true, msg));
      if |rows| == 0 { return Rejected; }
      o := TryTransitions(rows, env);
    }

    /** Every internal row leaving the current state; the order of a map's keys is arbitrary. */
    method CollectInternal() returns (all: seq<Transition>)
      requires Valid()
      ensures InternalRows(all, table, state)
    {
      all := [];
      var keys := internalIndex.Keys;
      forall t | t in table && t.from == state && t.on.Internal? ensures (state, t.on.desc) in keys {
        RowsForMembers(table, state, KeyTrigger(false, t.on.desc));
        assert t in Lookup(internalIndex, (state, t.on.desc));
      }
      while keys != {}
        invariant keys <= internalIndex.Keys
        invariant forall t :: t in all ==> t in table && t.from == state && t.on.Internal?
        invariant forall t :: t in table && t.from == state && t.on.Internal? && (state, t.on.desc) !in keys ==> t in all
        decreases keys
      {
        var key :| key in keys;
        keys := keys - {key};
        RowsForMembers(table, key.0, Internal(key.1));
        assert internalIndex[key] == Lookup(internalIndex, (key.0, key.1)) == RowsFor(table, key.0, KeyTrigger(false, key.1));
        if key.0 == state { all := all + internalIndex[key]; }
      }
    }

    /**
     A named event behaves like a message. Without a name any enabled internal row
     may fire, and with all callbacks registered the step is refused only when
     no internal row is enabled.
     */
    method Step(event: string, env: Env) returns (o: Outcome)
      requires Valid()
      modifies `state
      ensures Valid()
      ensures state == if o.Fired? then o.row.to else old(state)
      ensures event != "" && !o.Unregistered? ==> o == Scan(table, old(state), Internal(event), env)
      ensures event != "" ==> (o.Unregistered? <==> exists i: nat :: Stuck(RowsFor(table, old(state), Internal(event)), i, env))
      ensures event == "" && o.Fired? ==>
                o.row in table && o.row.on.Internal? && RowEnabled(o.row, old(state), o.row.on, env)
      ensures event == "" && AllRegistered(table, env) ==>
                !o.Unregistered? &&
                (o == Rejected <==> forall t :: t in table && t.on.Internal? ==> !RowEnabled(t, old(state), t.on, env))
    {
      if event != "" {
        var rows := Lookup(internalIndex, (state, event));
        TryAgainstScan(table, state, KeyTrigger(false, event), env);
        if |rows| == 0 { return Rejected; }
        o := TryTransitions(rows, env);
        return;
      }
      var all := CollectInternal();
      TryMeaning(all, env);
      if |all| == 0 { return Rejected; }
      o := TryTransitions(all, env);
    }
  }

  lemma {:induction false} TryMeaning(rows: seq<Transition>, env: Env)
    ensures Try(rows, env).Fired? ==> Try(rows, env).row in rows && GuardHolds(Try(rows, env).row, env)
    ensures AllRegistered(rows, env) ==>
              !Try(rows, env).Unregistered? && (Try(rows, env) == Rejected <==> forall t :: t in rows ==> !GuardHolds(t, env))
  {
    if rows != [] { TryMeaning(rows[1..], env); assert rows[0] in rows; }
  }
}
