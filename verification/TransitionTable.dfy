/**
 What a transition table means, and the two ways it is executed: the
 interpreter that looks rows up in indexes, and generated case lists that are
 tried from the top.
 */
module TransitionTable {
  import opened Options
  import opened Sequences
  import opened StateForest

  /**
   What the callbacks would answer during one call: for each registered guard
   its verdict, and for each registered action whether it succeeds.
   */
  datatype Env = Env(guards: map<string, bool>, actions: map<string, bool>)

  datatype Outcome =
    | Fired(row: Transition)
    | ActionFailed(action: string)
    | Rejected
    | Unregistered(name: string)

  // ------------------------------------------------------------------
  // The reference meaning: the first enabled row of the table
  // ------------------------------------------------------------------

  predicate GuardHolds(t: Transition, env: Env) {
    t.guard == "" || (t.guard in env.guards && env.guards[t.guard])
  }

  predicate RowEnabled(t: Transition, state: StateName, on: Trigger, env: Env) {
    t.from == state && t.on == on && GuardHolds(t, env)
  }

  predicate ActionBreaks(t: Transition, env: Env) {
    t.action != "" && t.action in env.actions && !env.actions[t.action]
  }

  function Take(t: Transition, env: Env): Outcome {
    if ActionBreaks(t, env) then ActionFailed(t.action) else Fired(t)
  }

  function Scan(table: seq<Transition>, state: StateName, on: Trigger, env: Env): Outcome {
    if table == [] then Rejected
    else if RowEnabled(table[0], state, on, env) then Take(table[0], env)
    else Scan(table[1..], state, on, env)
  }

  ghost predicate IsFirstEnabled(table: seq<Transition>, i: nat, state: StateName, on: Trigger, env: Env) {
    && i < |table| && RowEnabled(table[i], state, on, env)
    && forall j :: 0 <= j < i ==> !RowEnabled(table[j], state, on, env)
  }

  /** `Scan` takes the row of least index among the enabled ones, and rejects when there is none. */
  lemma {:induction false} ScanTakesTheFirst(table: seq<Transition>, state: StateName, on: Trigger, env: Env)
    ensures Scan(table, state, on, env) == Rejected
            <==> forall t :: t in table ==> !RowEnabled(t, state, on, env)
    ensures forall i: nat :: IsFirstEnabled(table, i, state, on, env)
              ==> Scan(table, state, on, env) == Take(table[i], env)
  {
    if table != [] {
      ScanTakesTheFirst(table[1..], state, on, env);
      forall i: nat | IsFirstEnabled(table, i, state, on, env)
        ensures Scan(table, state, on, env) == Take(table[i], env)
      {
        if i > 0 {
          assert !RowEnabled(table[0], state, on, env);
          assert forall j :: 0 <= j < i - 1 ==> table[1..][j] == table[j + 1];
          assert IsFirstEnabled(table[1..], i - 1, state, on, env);
        }
      }
    }
  }

  /** Only the rows leaving the current state matter. */
  lemma {:induction false} ScanFrom(table: seq<Transition>, state: StateName, on: Trigger, env: Env)
    ensures Scan(table, state, on, env) == Scan(From(table, state), state, on, env)
  {
    if table != [] {
      ScanFrom(table[1..], state, on, env);
      if table[0].from == state { assert ([table[0]] + From(table[1..], state))[1..] == From(table[1..], state); }
    }
  }

  /**
   In a leaf the explicit rows are tried before the inherited ones, and an outer
   superstate before the ones inside it.
   */
  lemma LeafPriority(a: Actor, l: StateName, on: Trigger, env: Env)
    requires a.machines == [] && a.indexed && NoDup(LeavesOf(a.roots))
    ensures Scan(Flat(a), l, on, env)
         == Scan(From(a.transitions, l) + Inherited(AboveIn(a.roots, l), l), l, on, env)
  {
    ScanFrom(Flat(a), l, on, env);
    RowsOfALeaf(a, l);
  }

  // ------------------------------------------------------------------
  // The interpreter
  // ------------------------------------------------------------------

  /** The rows an index holds for one state and trigger, in table order. */
  function RowsFor(table: seq<Transition>, state: StateName, on: Trigger): seq<Transition> {
    if table == [] then []
    else if table[0].from == state && table[0].on == on then [table[0]] + RowsFor(table[1..], state, on)
    else RowsFor(table[1..], state, on)
  }

  predicate GuardMissing(t: Transition, env: Env) { t.guard != "" && t.guard !in env.guards }

  predicate ActionMissing(t: Transition, env: Env) { t.action != "" && t.action !in env.actions }

  /** Trying rows in order: an unregistered name stops the attempt. */
  function Try(rows: seq<Transition>, env: Env): Outcome {
    if rows == [] then Rejected
    else if GuardMissing(rows[0], env) then Unregistered(rows[0].guard)
    else if !GuardHolds(rows[0], env) then Try(rows[1..], env)
    else if ActionMissing(rows[0], env) then Unregistered(rows[0].action)
    else Take(rows[0], env)
  }

  /** Row `i` is reached and needs a callback nobody registered. */
  ghost predicate Stuck(rows: seq<Transition>, i: nat, env: Env) {
    && i < |rows|
    && (GuardMissing(rows[i], env) || (GuardHolds(rows[i], env) && ActionMissing(rows[i], env)))
    && forall j :: 0 <= j < i ==> !GuardMissing(rows[j], env) && !GuardHolds(rows[j], env)
  }

  /**
   The interpreter stops on an unregistered name exactly when a row it reaches
   needs one; otherwise it does what the linear scan does.
   */
  lemma {:induction false} TryAgainstScan(table: seq<Transition>, state: StateName, on: Trigger, env: Env)
    ensures Try(RowsFor(table, state, on), env).Unregistered?
            <==> exists i: nat :: Stuck(RowsFor(table, state, on), i, env)
    ensures Try(RowsFor(table, state, on), env).Unregistered?
            <==> Try(RowsFor(table, state, on), env) != Scan(table, state, on, env)
  {
    StuckIffUnregistered(RowsFor(table, state, on), env);
    ScanNeverUnregistered(table, state, on, env);
    if !Try(RowsFor(table, state, on), env).Unregistered? { TryIsScan(table, state, on, env); }
  }

  lemma {:induction false} ScanNeverUnregistered(table: seq<Transition>, state: StateName, on: Trigger, env: Env)
    ensures !Scan(table, state, on, env).Unregistered?
  {
    if table != [] { ScanNeverUnregistered(table[1..], state, on, env); }
  }

  lemma {:induction false} StuckIffUnregistered(rows: seq<Transition>, env: Env)
    ensures Try(rows, env).Unregistered? <==> exists i: nat :: Stuck(rows, i, env)
  {
    if rows != [] {
      StuckIffUnregistered(rows[1..], env);
      if Stuck(rows, 0, env) {
      } else if !GuardMissing(rows[0], env) && !GuardHolds(rows[0], env) {
        if i: nat :| Stuck(rows[1..], i, env) {
          assert rows[i + 1] == rows[1..][i];
          assert forall j :: 0 < j < i + 1 ==> rows[j] == rows[1..][j - 1];
          assert Stuck(rows, i + 1, env);
        }
        if i: nat :| Stuck(rows, i, env) {
          assert i > 0;
          assert forall j :: 0 <= j < i ==> rows[1..][j] == rows[j + 1];
          assert Stuck(rows[1..], i - 1, env);
        }
      }
    }
  }

  lemma {:induction false} TryIsScan(table: seq<Transition>, state: StateName, on: Trigger, env: Env)
    requires !Try(RowsFor(table, state, on), env).Unregistered?
    ensures Try(RowsFor(table, state, on), env) == Scan(table, state, on, env)
  {
    if table != [] {
      if table[0].from == state && table[0].on == on {
        assert RowsFor(table, state, on)[1..] == RowsFor(table[1..], state, on);
        if !GuardHolds(table[0], env) { TryIsScan(table[1..], state, on, env); }
      } else {
        TryIsScan(table[1..], state, on, env);
      }
    }
  }

  /** Every name the table uses has a callback. */
  predicate AllRegistered(table: seq<Transition>, env: Env) {
    forall t :: t in table ==> !GuardMissing(t, env) && !ActionMissing(t, env)
  }

  lemma {:induction false} RowsForMembers(table: seq<Transition>, state: StateName, on: Trigger)
    ensures forall t :: t in RowsFor(table, state, on) <==> t in table && t.from == state && t.on == on
  {
    if table != [] { RowsForMembers(table[1..], state, on); }
  }

  /** With every callback registered the interpreter is the linear scan. */
  lemma {:induction false} InterpreterIsScan(table: seq<Transition>, state: StateName, on: Trigger, env: Env)
    requires AllRegistered(table, env)
    ensures Try(RowsFor(table, state, on), env) == Scan(table, state, on, env)
  {
    TryAgainstScan(table, state, on, env);
    RowsForMembers(table, state, on);
  }

  lemma {:induction false} RowsForSnoc(table: seq<Transition>, t: Transition, state: StateName, on: Trigger)
    ensures RowsFor(table + [t], state, on)
         == RowsFor(table, state, on) + (if t.from == state && t.on == on then [t] else [])
  {
    if table == [] {
      assert table + [t] == [t] && [t][1..] == [];
    } else {
      assert (table + [t])[1..] == table[1..] + [t];
      RowsForSnoc(table[1..], t, state, on);
    }
  }

  // ------------------------------------------------------------------
  // Generated case lists
  // ------------------------------------------------------------------

  /** One case of a generated switch; `emits` is empty where the case returns no commands. */
  datatype Case = Case(
    state: StateName, key: string, guard: string, action: string,
    updates: seq<Update>, to: StateName, emits: seq<string>)

  /** The fields of a generated machine. */
  datatype Fields = Fields(state: StateName, vars: map<string, int>)

  datatype Reply = Handled(cmds: seq<string>) | Erred(action: string) | Ignored

  function EventName(on: Trigger): string {
    match on
    case Recv(msg) => "recv_" + msg
    case Internal(desc) => desc
  }

  function CaseOf(t: Transition, key: string, emits: seq<string>): Case {
    Case(t.from, key, t.guard, t.action, t.updates, t.to, emits)
  }

  function MessageCases(table: seq<Transition>): seq<Case> {
    if table == [] then []
    else if table[0].on.Recv? then [CaseOf(table[0], table[0].on.msg, [])] + MessageCases(table[1..])
    else MessageCases(table[1..])
  }

  function StepCases(table: seq<Transition>): seq<Case> {
    if table == [] then []
    else if table[0].on.Internal? then [CaseOf(table[0], table[0].on.desc, [])] + StepCases(table[1..])
    else StepCases(table[1..])
  }

  function EventCases(table: seq<Transition>): seq<Case> {
    if table == [] then []
    else [CaseOf(table[0], EventName(table[0].on), table[0].emits)] + EventCases(table[1..])
  }

  /** Literal and self-increment updates are assignments; any other is left to the action. */
  function Assign(vars: map<string, int>, u: Update): map<string, int> {
    match u.expr
    case Literal(v) => vars[u.variable := v]
    case SelfPlus(n) => vars[u.variable := (if u.variable in vars then vars[u.variable] else 0) + n]
    case Complex(_) => vars
  }

  function AssignAll(vars: map<string, int>, us: seq<Update>): map<string, int>
    decreases us
  {
    if us == [] then vars else AssignAll(Assign(vars, us[0]), us[1..])
  }

  /** The sum of the increments of `v`. */
  function Increments(us: seq<Update>, v: string): int {
    if us == [] then 0
    else Increments(us[1..], v) + if us[0].variable == v && us[0].expr.SelfPlus? then us[0].expr.n else 0
  }

  predicate SetsLiteral(u: Update, v: string) { u.variable == v && u.expr.Literal? }

  /** No update assigns `v`: whatever names it is left to the action. */
  predicate Untouched(us: seq<Update>, v: string) {
    forall i :: 0 <= i < |us| && us[i].variable == v ==> us[i].expr.Complex?
  }

  predicate NoLiteral(us: seq<Update>, v: string) { forall i :: 0 <= i < |us| ==> !SetsLiteral(us[i], v) }

  function Value(vars: map<string, int>, v: string): int { if v in vars then vars[v] else 0 }

  lemma {:induction false} UntouchedKeeps(vars: map<string, int>, us: seq<Update>, v: string)
    requires Untouched(us, v)
    ensures v in AssignAll(vars, us) <==> v in vars
    ensures v in vars ==> AssignAll(vars, us)[v] == vars[v]
    decreases us
  {
    if us != [] { UntouchedKeeps(Assign(vars, us[0]), us[1..], v); }
  }

  lemma {:induction false} IncrementsAdd(vars: map<string, int>, us: seq<Update>, v: string)
    requires NoLiteral(us, v)
    ensures Value(AssignAll(vars, us), v) == Value(vars, v) + Increments(us, v)
    ensures v in vars ==> v in AssignAll(vars, us)
    decreases us
  {
    if us != [] {
      assert !SetsLiteral(us[0], v);
      forall i | 0 <= i < |us[1..]| ensures !SetsLiteral(us[1..][i], v) { assert us[1..][i] == us[i + 1]; }
      IncrementsAdd(Assign(vars, us[0]), us[1..], v);
    }
  }

  lemma {:induction false} AssignConcat(vars: map<string, int>, us: seq<Update>, ws: seq<Update>)
    ensures AssignAll(vars, us + ws) == AssignAll(AssignAll(vars, us), ws)
    decreases us
  {
    if us == [] {
      assert us + ws == ws;
    } else {
      assert (us + ws)[1..] == us[1..] + ws;
      AssignConcat(Assign(vars, us[0]), us[1..], ws);
    }
  }

  /**
   What a variable holds after a list of updates: the last literal assigned to it, or
   its old value if there is none, plus the increments after that. Updates left to
   the action count for nothing.
   */
  lemma VariableAfter(vars: map<string, int>, us: seq<Update>, v: string)
    ensures Untouched(us, v) ==> (v in AssignAll(vars, us) <==> v in vars) && (v in vars ==> AssignAll(vars, us)[v] == vars[v])
    ensures NoLiteral(us, v) ==> Value(AssignAll(vars, us), v) == Value(vars, v) + Increments(us, v)
    ensures forall i :: 0 <= i < |us| && SetsLiteral(us[i], v) && NoLiteral(us[i + 1..], v) ==>
              && v in AssignAll(vars, us)
              && AssignAll(vars, us)[v] == us[i].expr.v + Increments(us[i + 1..], v)
  {
    if Untouched(us, v) { UntouchedKeeps(vars, us, v); }
    if NoLiteral(us, v) { IncrementsAdd(vars, us, v); }
    forall i | 0 <= i < |us| && SetsLiteral(us[i], v) && NoLiteral(us[i + 1..], v)
      ensures v in AssignAll(vars, us) && AssignAll(vars, us)[v] == us[i].expr.v + Increments(us[i + 1..], v)
    {
      LiteralThenIncrements(vars, us, v, i);
    }
  }

  lemma LiteralThenIncrements(vars: map<string, int>, us: seq<Update>, v: string, i: nat)
    requires i < |us| && SetsLiteral(us[i], v) && NoLiteral(us[i + 1..], v)
    ensures v in AssignAll(vars, us) && AssignAll(vars, us)[v] == us[i].expr.v + Increments(us[i + 1..], v)
  {
    assert us == us[..i] + us[i..];
    AssignConcat(vars, us[..i], us[i..]);
    var before := AssignAll(vars, us[..i]);
    assert us[i..][0] == us[i] && us[i..][1..] == us[i + 1..];
    IncrementsAdd(Assign(before, us[i]), us[i + 1..], v);
  }

  predicate CaseMatches(c: Case, key: string, f: Fields, env: Env) {
    f.state == c.state && key == c.key && (c.guard == "" || (c.guard in env.guards && env.guards[c.guard]))
  }

  function Switch(cases: seq<Case>, key: string, f: Fields, env: Env): (Fields, Reply) {
    if cases == [] then (f, Ignored)
    else if !CaseMatches(cases[0], key, f, env) then Switch(cases[1..], key, f, env)
    else if cases[0].action != "" && cases[0].action in env.actions && !env.actions[cases[0].action] then
      (f, Erred(cases[0].action))
    else (Fields(cases[0].to, AssignAll(f.vars, cases[0].updates)), Handled(cases[0].emits))
  }

  /** What a machine with fields `f` does when the table yields outcome `o`. */
  function Effect(f: Fields, o: Outcome, withCmds: bool): (Fields, Reply) {
    match o
    case Fired(t) => (Fields(t.to, AssignAll(f.vars, t.updates)), Handled(if withCmds then t.emits else []))
    case ActionFailed(a) => (f, Erred(a))
    case Rejected => (f, Ignored)
    case Unregistered(_) => (f, Ignored)
  }

  /**
   A handled call moved to the case's target with its commands, and every variable is
   what its updates make of it.
   */
  lemma {:induction false} HandledEffect(cases: seq<Case>, key: string, f: Fields, env: Env, v: string) returns (c: Case)
    requires Switch(cases, key, f, env).1.Handled?
    ensures c in cases && CaseMatches(c, key, f, env)
    ensures var (after, reply) := Switch(cases, key, f, env);
            && after.state == c.to && reply == Handled(c.emits)
            && (Untouched(c.updates, v) ==> (v in after.vars <==> v in f.vars) && Value(after.vars, v) == Value(f.vars, v))
            && (NoLiteral(c.updates, v) ==> Value(after.vars, v) == Value(f.vars, v) + Increments(c.updates, v))
            && (forall i :: 0 <= i < |c.updates| && SetsLiteral(c.updates[i], v) && NoLiteral(c.updates[i + 1..], v) ==>
                  Value(after.vars, v) == c.updates[i].expr.v + Increments(c.updates[i + 1..], v))
  {
    if CaseMatches(cases[0], key, f, env) {
      c := cases[0];
      VariableAfter(f.vars, c.updates, v);
    } else {
      c := HandledEffect(cases[1..], key, f, env, v);
    }
  }

  /** The generated `HandleMessage` is the linear scan of the table. */
  lemma {:induction false} GeneratedMessages(table: seq<Transition>, msg: string, f: Fields, env: Env)
    ensures Switch(MessageCases(table), msg, f, env)
         == Effect(f, Scan(table, f.state, Recv(msg), env), false)
  {
    if table != [] {
      GeneratedMessages(table[1..], msg, f, env);
      if table[0].on.Recv? {
        assert MessageCases(table)[0] == CaseOf(table[0], table[0].on.msg, []);
        assert MessageCases(table)[1..] == MessageCases(table[1..]);
      }
    }
  }

  /** The generated `Step` is the linear scan of the table. */
  lemma {:induction false} GeneratedSteps(table: seq<Transition>, event: string, f: Fields, env: Env)
    ensures Switch(StepCases(table), event, f, env)
         == Effect(f, Scan(table, f.state, Internal(event), env), false)
  {
    if table != [] {
      GeneratedSteps(table[1..], event, f, env);
      if table[0].on.Internal? {
        assert StepCases(table)[0] == CaseOf(table[0], table[0].on.desc, []);
        assert StepCases(table)[1..] == StepCases(table[1..]);
      }
    }
  }

  /** A row `HandleEvent` would try on the event of `on`: it compares names, not triggers. */
  predicate NameEnabled(t: Transition, state: StateName, on: Trigger, env: Env) {
    t.from == state && EventName(t.on) == EventName(on) && GuardHolds(t, env)
  }

  /** The first row enabled by name, whatever its action does. */
  function PickByName(table: seq<Transition>, state: StateName, on: Trigger, env: Env): Option<Transition> {
    if table == [] then None
    else if NameEnabled(table[0], state, on, env) then Some(table[0])
    else PickByName(table[1..], state, on, env)
  }

  function ScanByName(table: seq<Transition>, state: StateName, on: Trigger, env: Env): Outcome {
    var row := PickByName(table, state, on, env);
    if row == None then Rejected else Take(row.value, env)
  }

  /** The generated `HandleEvent` is the scan by event names, for every table and environment. */
  lemma {:induction false} GeneratedEventsByName(table: seq<Transition>, on: Trigger, f: Fields, env: Env)
    ensures Switch(EventCases(table), EventName(on), f, env)
         == Effect(f, ScanByName(table, f.state, on, env), true)
  {
    if table != [] {
      GeneratedEventsByName(table[1..], on, f, env);
      assert EventCases(table)[0] == CaseOf(table[0], EventName(table[0].on), table[0].emits);
      assert EventCases(table)[1..] == EventCases(table[1..]);
    }
  }

  /**
   Row `i` answers to the event of `on` under another trigger, and no earlier row
   of `on` is sure to be taken whenever row `i` could be.
   */
  predicate Exposed(table: seq<Transition>, i: nat, state: StateName, on: Trigger) {
    && i < |table| && table[i].from == state && table[i].on != on && EventName(table[i].on) == EventName(on)
    && forall j :: 0 <= j < i && table[j].from == state && table[j].on == on ==>
         table[j].guard != "" && table[j].guard != table[i].guard
  }

  ghost predicate Shielded(table: seq<Transition>, state: StateName, on: Trigger) {
    forall i: nat :: !Exposed(table, i, state, on)
  }

  /** The picked row's place: enabled there, and nothing enabled before it. */
  lemma {:induction false} PickAt(table: seq<Transition>, state: StateName, on: Trigger, env: Env) returns (i: nat)
    requires PickByName(table, state, on, env).Some?
    ensures i < |table| && table[i] == PickByName(table, state, on, env).value
    ensures NameEnabled(table[i], state, on, env)
    ensures forall j :: 0 <= j < i ==> !NameEnabled(table[j], state, on, env)
  {
    if NameEnabled(table[0], state, on, env) {
      i := 0;
    } else {
      var k := PickAt(table[1..], state, on, env);
      i := k + 1;
      forall j | 0 <= j < i ensures !NameEnabled(table[j], state, on, env) {
        if j > 0 { assert table[j] == table[1..][j - 1]; }
      }
    }
  }

  lemma {:induction false} PickExists(table: seq<Transition>, i: nat, state: StateName, on: Trigger, env: Env)
    requires i < |table| && NameEnabled(table[i], state, on, env)
    ensures PickByName(table, state, on, env).Some?
  {
    if !NameEnabled(table[0], state, on, env) { PickExists(table[1..], i - 1, state, on, env); }
  }

  predicate PicksOwn(table: seq<Transition>, state: StateName, on: Trigger, env: Env) {
    var row := PickByName(table, state, on, env);
    row == None || row.value.on == on
  }

  lemma ShieldedPicksOwn(table: seq<Transition>, state: StateName, on: Trigger, env: Env)
    requires Shielded(table, state, on)
    ensures PicksOwn(table, state, on, env)
  {
    if PickByName(table, state, on, env).Some? {
      var i := PickAt(table, state, on, env);
      assert !Exposed(table, i, state, on);
    }
  }

  /** The environment in which only the guard of an exposed row holds. */
  lemma ExposedIsPicked(table: seq<Transition>, i: nat, state: StateName, on: Trigger) returns (env: Env)
    requires Exposed(table, i, state, on)
    ensures !PicksOwn(table, state, on, env)
  {
    env := Env(map[table[i].guard := true], map[]);
    PickExists(table, i, state, on, env);
    var k := PickAt(table, state, on, env);
    assert k <= i;
  }

  /**
   In every environment the row `HandleEvent` picks has the trigger it was called for,
   exactly when no row of the state is exposed: something to read off the table.
   */
  lemma OwnRowIffShielded(table: seq<Transition>, state: StateName, on: Trigger)
    ensures (forall env :: PicksOwn(table, state, on, env)) <==> Shielded(table, state, on)
  {
    if Shielded(table, state, on) {
      forall env ensures PicksOwn(table, state, on, env) { ShieldedPicksOwn(table, state, on, env); }
    } else {
      var i: nat :| Exposed(table, i, state, on);
      var env := ExposedIsPicked(table, i, state, on);
    }
  }

  lemma {:induction false} OwnRowIsScan(table: seq<Transition>, state: StateName, on: Trigger, env: Env)
    requires PicksOwn(table, state, on, env)
    ensures ScanByName(table, state, on, env) == Scan(table, state, on, env)
  {
    if table != [] && !NameEnabled(table[0], state, on, env) { OwnRowIsScan(table[1..], state, on, env); }
  }

  /** The generated `HandleEvent` is the linear scan for a trigger that is shielded in the current state. */
  lemma GeneratedEvents(table: seq<Transition>, on: Trigger, f: Fields, env: Env)
    requires Shielded(table, f.state, on)
    ensures Switch(EventCases(table), EventName(on), f, env)
         == Effect(f, Scan(table, f.state, on, env), true)
  {
    GeneratedEventsByName(table, on, f, env);
    ShieldedPicksOwn(table, f.state, on, env);
    OwnRowIsScan(table, f.state, on, env);
  }

  /** Without internal events named like receive events every trigger is shielded in every state. */
  lemma ClashesNeedReceiveNames(table: seq<Transition>, state: StateName, on: Trigger)
    requires forall t, m :: t in table && t.on.Internal? ==> t.on.desc != EventName(Recv(m))
    requires on.Internal? ==> forall m :: on.desc != EventName(Recv(m))
    ensures Shielded(table, state, on)
  {
    forall i: nat ensures !Exposed(table, i, state, on) {
      if i < |table| {
        var t := table[i];
        assert t in table;
        assert on.Recv? ==> EventName(on) == EventName(Recv(on.msg)) && EventName(on)[5..] == on.msg;
        assert t.on.Recv? ==> EventName(t.on) == EventName(Recv(t.on.msg)) && EventName(t.on)[5..] == t.on.msg;
      }
    }
  }

  /** With such an event the generated entry points really differ. */
  lemma ClashExample(f: Fields)
    ensures var on := Recv("x");
            var table := [Transition(f.state, "A", Internal("recv_x"), "", "", [], []),
                          Transition(f.state, "B", on, "", "", [], [])];
            var env := Env(map[], map[]);
            && !Shielded(table, f.state, on)
            && Switch(EventCases(table), EventName(on), f, env).0.state == "A"
            && Switch(MessageCases(table), "x", f, env).0.state == "B"
  {
    var table := [Transition(f.state, "A", Internal("recv_x"), "", "", [], []),
                  Transition(f.state, "B", Recv("x"), "", "", [], [])];
    assert Exposed(table, 0, f.state, Recv("x"));
  }

  /**
   Where no unregistered callback is reached and the trigger is shielded, the
   interpreter, the generated `HandleMessage` and the generated `HandleEvent` take the
   same row on a message, and the interpreter, `Step` and `HandleEvent` do on an internal
   event. Whenever no row fires, every field keeps its value.
   */
  lemma {:induction false} AllExecutorsAgree(a: Actor, on: Trigger, f: Fields, env: Env)
    requires forall i: nat :: !Stuck(RowsFor(Flat(a), f.state, on), i, env)
    requires Shielded(Flat(a), f.state, on)
    ensures var o := Scan(Flat(a), f.state, on, env);
            && Try(RowsFor(Flat(a), f.state, on), env) == o
            && (on.Recv? ==> Switch(MessageCases(Flat(a)), on.msg, f, env) == Effect(f, o, false))
            && (on.Internal? ==> Switch(StepCases(Flat(a)), on.desc, f, env) == Effect(f, o, false))
            && Switch(EventCases(Flat(a)), EventName(on), f, env) == Effect(f, o, true)
            && (!o.Fired? ==> Effect(f, o, true).0 == f)
            && (o.Fired? ==> RowEnabled(o.row, f.state, on, env) && o.row in Flat(a))
  {
    TryAgainstScan(Flat(a), f.state, on, env);
    if on.Recv? { GeneratedMessages(Flat(a), on.msg, f, env); } else { GeneratedSteps(Flat(a), on.desc, f, env); }
    GeneratedEvents(Flat(a), on, f, env);
    FiredIsEnabled(Flat(a), f.state, on, env);
  }

  lemma {:induction false} FiredIsEnabled(table: seq<Transition>, state: StateName, on: Trigger, env: Env)
    ensures var o := Scan(table, state, on, env);
            o.Fired? ==> o.row in table && RowEnabled(o.row, state, on, env)
  {
    if table != [] { FiredIsEnabled(table[1..], state, on, env); }
  }

  // ------------------------------------------------------------------
  // The loops that write the cases
  // ------------------------------------------------------------------

  lemma {:induction false} MessageCasesSnoc(table: seq<Transition>, t: Transition)
    ensures MessageCases(table + [t]) == MessageCases(table) + MessageCases([t])
  {
    if table == [] {
      assert table + [t] == [t];
    } else {
      assert (table + [t])[1..] == table[1..] + [t];
      MessageCasesSnoc(table[1..], t);
    }
  }

  lemma {:induction false} StepCasesSnoc(table: seq<Transition>, t: Transition)
    ensures StepCases(table + [t]) == StepCases(table) + StepCases([t])
  {
    if table == [] {
      assert table + [t] == [t];
    } else {
      assert (table + [t])[1..] == table[1..] + [t];
      StepCasesSnoc(table[1..], t);
    }
  }

  lemma {:induction false} EventCasesSnoc(table: seq<Transition>, t: Transition)
    ensures EventCases(table + [t]) == EventCases(table) + EventCases([t])
  {
    if table == [] {
      assert table + [t] == [t];
    } else {
      assert (table + [t])[1..] == table[1..] + [t];
      EventCasesSnoc(table[1..], t);
    }
  }

  method WriteMessageCases(a: Actor) returns (cases: seq<Case>)
    ensures cases == MessageCases(Flat(a))
  {
    var table := FlattenedTransitions(a);
    cases := [];
    for i := 0 to |table|
      invariant cases == MessageCases(table[..i])
    {
      var t := table[i];
      MessageCasesSnoc(table[..i], t);
      assert table[..i + 1] == table[..i] + [t];
      if !t.on.Recv? { continue; }
      cases := cases + [CaseOf(t, t.on.msg, [])];
    }
    assert table[..|table|] == table;
  }

  method WriteStepCases(a: Actor) returns (cases: seq<Case>)
    ensures cases == StepCases(Flat(a))
  {
    var table := FlattenedTransitions(a);
    cases := [];
    for i := 0 to |table|
      invariant cases == StepCases(table[..i])
    {
      var t := table[i];
      StepCasesSnoc(table[..i], t);
      assert table[..i + 1] == table[..i] + [t];
      if !t.on.Internal? { continue; }
      cases := cases + [CaseOf(t, t.on.desc, [])];
    }
    assert table[..|table|] == table;
  }

  method WriteEventCases(a: Actor) returns (cases: seq<Case>)
    ensures cases == EventCases(Flat(a))
  {
    var table := FlattenedTransitions(a);
    cases := [];
    for i := 0 to |table|
      invariant cases == EventCases(table[..i])
    {
      var t := table[i];
      EventCasesSnoc(table[..i], t);
      assert table[..i + 1] == table[..i] + [t];
      var key := if t.on.Recv? then "recv_" + t.on.msg else t.on.desc;
      cases := cases + [CaseOf(t, key, t.emits)];
    }
    assert table[..|table|] == table;
  }
}
