/**
 Hierarchical actors and their flattening to a transition table: every
 superstate row is copied to each leaf below it as a self-loop.
 */
module StateForest {
  import opened Sequences

  type StateName = string

  datatype Trigger = Recv(msg: string) | Internal(desc: string)

  /** A right-hand side of a variable update, by what the generators can do with it. */
  datatype Expr = Literal(v: int) | SelfPlus(n: int) | Complex(text: string)

  datatype Update = Update(variable: string, expr: Expr)

  /** One edge. An empty guard or action means there is none. */
  datatype Transition = Transition(
    from: StateName, to: StateName, on: Trigger, guard: string, action: string,
    updates: seq<Update>, emits: seq<string>)

  datatype Node = Node(name: StateName, children: seq<Node>, transitions: seq<Transition>)

  datatype SubMachine = SubMachine(initial: StateName, transitions: seq<Transition>, indexed: bool, roots: seq<Node>)

  /** `indexed` is whether the actor declares a state hierarchy at all. */
  datatype Actor = Actor(
    initial: StateName, transitions: seq<Transition>, indexed: bool, roots: seq<Node>, machines: seq<SubMachine>)

  predicate IsLeaf(n: Node) { n.children == [] }

  function LeafStates(n: Node): seq<StateName>
    decreases n, 1
  {
    if IsLeaf(n) then [n.name] else LeavesOf(n.children)
  }

  function LeavesOf(ns: seq<Node>): seq<StateName>
    decreases ns, 0
  {
    if ns == [] then [] else LeafStates(ns[0]) + LeavesOf(ns[1..])
  }

  function SelfLoop(t: Transition, l: StateName): Transition { t.(from := l, to := l) }

  /** One superstate row, copied to each leaf in turn. */
  function Copies(t: Transition, leaves: seq<StateName>): seq<Transition> {
    seq(|leaves|, i requires 0 <= i < |leaves| => SelfLoop(t, leaves[i]))
  }

  function CopiesOf(ts: seq<Transition>, leaves: seq<StateName>): seq<Transition> {
    if ts == [] then [] else Copies(ts[0], leaves) + CopiesOf(ts[1..], leaves)
  }

  function Expansion(n: Node): seq<Transition>
    decreases n, 1
  {
    if IsLeaf(n) then [] else CopiesOf(n.transitions, LeafStates(n)) + ExpansionOf(n.children)
  }

  function ExpansionOf(ns: seq<Node>): seq<Transition>
    decreases ns, 0
  {
    if ns == [] then [] else Expansion(ns[0]) + ExpansionOf(ns[1..])
  }

  function FlatMachine(m: SubMachine): seq<Transition> {
    if !m.indexed then m.transitions else m.transitions + ExpansionOf(m.roots)
  }

  function FlatMachines(ms: seq<SubMachine>): seq<Transition> {
    if ms == [] then [] else FlatMachine(ms[0]) + FlatMachines(ms[1..])
  }

  function Flat(a: Actor): seq<Transition> {
    if a.machines != [] then FlatMachines(a.machines)
    else if !a.indexed then a.transitions
    else a.transitions + ExpansionOf(a.roots)
  }

  // ------------------------------------------------------------------
  // The loops of the source
  // ------------------------------------------------------------------

  lemma {:induction false} CopiesOfSnoc(ts: seq<Transition>, t: Transition, leaves: seq<StateName>)
    ensures CopiesOf(ts + [t], leaves) == CopiesOf(ts, leaves) + Copies(t, leaves)
  {
    if ts == [] {
      assert ts + [t] == [t];
      assert CopiesOf([t][1..], leaves) == [];
    } else {
      assert (ts + [t])[1..] == ts[1..] + [t];
      CopiesOfSnoc(ts[1..], t, leaves);
    }
  }

  lemma {:induction false} ExpansionOfSnoc(ns: seq<Node>, n: Node)
    ensures ExpansionOf(ns + [n]) == ExpansionOf(ns) + Expansion(n)
  {
    if ns == [] {
      assert ns + [n] == [n] && [n][1..] == [];
    } else {
      assert (ns + [n])[1..] == ns[1..] + [n];
      ExpansionOfSnoc(ns[1..], n);
    }
  }

  lemma {:induction false} FlatMachinesSnoc(ms: seq<SubMachine>, m: SubMachine)
    ensures FlatMachines(ms + [m]) == FlatMachines(ms) + FlatMachine(m)
  {
    if ms == [] {
      assert ms + [m] == [m] && [m][1..] == [];
    } else {
      assert (ms + [m])[1..] == ms[1..] + [m];
      FlatMachinesSnoc(ms[1..], m);
    }
  }

  method ExpandNode(node: Node, acc: seq<Transition>) returns (result: seq<Transition>)
    ensures result == acc + Expansion(node)
    decreases node
  {
    result := acc;
    if !IsLeaf(node) {
      var leaves := LeafStates(node);
      for i := 0 to |node.transitions|
        invariant result == acc + CopiesOf(node.transitions[..i], leaves)
      {
        var t := node.transitions[i];
        ghost var before := result;
        for j := 0 to |leaves|
          invariant result == before + Copies(t, leaves[..j])
        {
          assert Copies(t, leaves[..j + 1]) == Copies(t, leaves[..j]) + [SelfLoop(t, leaves[j])];
          result := result + [t.(from := leaves[j], to := leaves[j])];
        }
        assert leaves[..|leaves|] == leaves;
        CopiesOfSnoc(node.transitions[..i], t, leaves);
        assert node.transitions[..i + 1] == node.transitions[..i] + [t];
      }
      assert node.transitions[..|node.transitions|] == node.transitions;
      ghost var before := result;
      for i := 0 to |node.children|
        invariant result == before + ExpansionOf(node.children[..i])
      {
        result := ExpandNode(node.children[i], result);
        ExpansionOfSnoc(node.children[..i], node.children[i]);
        assert node.children[..i + 1] == node.children[..i] + [node.children[i]];
      }
      assert node.children[..|node.children|] == node.children;
    }
  }

  method ExpandRoots(transitions: seq<Transition>, roots: seq<Node>) returns (result: seq<Transition>)
    ensures result == transitions + ExpansionOf(roots)
  {
    result := transitions;
    for i := 0 to |roots|
      invariant result == transitions + ExpansionOf(roots[..i])
    {
      result := ExpandNode(roots[i], result);
      ExpansionOfSnoc(roots[..i], roots[i]);
      assert roots[..i + 1] == roots[..i] + [roots[i]];
    }
    assert roots[..|roots|] == roots;
  }

  method FlattenedTransitions(a: Actor) returns (result: seq<Transition>)
    ensures result == Flat(a)
  {
    if |a.machines| > 0 {
      result := [];
      for i := 0 to |a.machines|
        invariant result == FlatMachines(a.machines[..i])
      {
        var m := a.machines[i];
        var one := m.transitions;
        if m.indexed { one := ExpandRoots(m.transitions, m.roots); }
        result := result + one;
        FlatMachinesSnoc(a.machines[..i], m);
        assert a.machines[..i + 1] == a.machines[..i] + [m];
      }
      assert a.machines[..|a.machines|] == a.machines;
    } else if !a.indexed {
      result := a.transitions;
    } else {
      result := ExpandRoots(a.transitions, a.roots);
    }
  }

  // ------------------------------------------------------------------
  // What a leaf inherits
  // ------------------------------------------------------------------

  /** The rows that leave state `l`, in order. */
  function From(ts: seq<Transition>, l: StateName): seq<Transition> {
    if ts == [] then []
    else if ts[0].from == l then [ts[0]] + From(ts[1..], l)
    else From(ts[1..], l)
  }

  /** The superstates above leaf `l`, outermost first. */
  function Above(n: Node, l: StateName): seq<Node>
    decreases n, 1
  {
    if IsLeaf(n) || l !in LeafStates(n) then [] else [n] + AboveIn(n.children, l)
  }

  function AboveIn(ns: seq<Node>, l: StateName): seq<Node>
    decreases ns, 0
  {
    if ns == [] then [] else Above(ns[0], l) + AboveIn(ns[1..], l)
  }

  function LoopsAt(ts: seq<Transition>, l: StateName): seq<Transition> {
    if ts == [] then [] else [SelfLoop(ts[0], l)] + LoopsAt(ts[1..], l)
  }

  function Inherited(chain: seq<Node>, l: StateName): seq<Transition> {
    if chain == [] then [] else LoopsAt(chain[0].transitions, l) + Inherited(chain[1..], l)
  }

  lemma {:induction false} FromConcat(a: seq<Transition>, b: seq<Transition>, l: StateName)
    ensures From(a + b, l) == From(a, l) + From(b, l)
  {
    if a == [] {
      assert a + b == b;
    } else {
      assert (a + b)[1..] == a[1..] + b;
      FromConcat(a[1..], b, l);
    }
  }

  lemma {:induction false} InheritedConcat(a: seq<Node>, b: seq<Node>, l: StateName)
    ensures Inherited(a + b, l) == Inherited(a, l) + Inherited(b, l)
  {
    if a == [] {
      assert a + b == b;
    } else {
      assert (a + b)[1..] == a[1..] + b;
      InheritedConcat(a[1..], b, l);
    }
  }

  lemma {:induction false} FromCopies(t: Transition, leaves: seq<StateName>, l: StateName)
    requires NoDup(leaves)
    ensures From(Copies(t, leaves), l) == if l in leaves then [SelfLoop(t, l)] else []
  {
    if leaves != [] {
      assert Copies(t, leaves)[1..] == Copies(t, leaves[1..]);
      FromCopies(t, leaves[1..], l);
    }
  }

  lemma {:induction false} FromCopiesOf(ts: seq<Transition>, leaves: seq<StateName>, l: StateName)
    requires NoDup(leaves)
    ensures From(CopiesOf(ts, leaves), l) == if l in leaves then LoopsAt(ts, l) else []
  {
    if ts != [] {
      FromCopies(ts[0], leaves, l);
      FromCopiesOf(ts[1..], leaves, l);
      FromConcat(Copies(ts[0], leaves), CopiesOf(ts[1..], leaves), l);
    }
  }

  lemma NoDupParts<T(!new)>(a: seq<T>, b: seq<T>)
    requires NoDup(a + b)
    ensures NoDup(a) && NoDup(b)
  {
    assert forall i :: 0 <= i < |a| ==> (a + b)[i] == a[i];
    assert forall i :: 0 <= i < |b| ==> (a + b)[|a| + i] == b[i];
  }

  lemma {:induction false} FromExpansion(n: Node, l: StateName)
    requires NoDup(LeafStates(n))
    ensures From(Expansion(n), l) == Inherited(Above(n, l), l)
    decreases n, 1
  {
    if !IsLeaf(n) {
      FromCopiesOf(n.transitions, LeafStates(n), l);
      FromExpansionOf(n.children, l);
      FromConcat(CopiesOf(n.transitions, LeafStates(n)), ExpansionOf(n.children), l);
      if l in LeafStates(n) {
        assert ([n] + AboveIn(n.children, l))[1..] == AboveIn(n.children, l);
      } else {
        NothingAbove(n.children, l);
      }
    }
  }

  lemma {:induction false} FromExpansionOf(ns: seq<Node>, l: StateName)
    requires NoDup(LeavesOf(ns))
    ensures From(ExpansionOf(ns), l) == Inherited(AboveIn(ns, l), l)
    decreases ns, 0
  {
    if ns != [] {
      NoDupParts(LeafStates(ns[0]), LeavesOf(ns[1..]));
      FromExpansion(ns[0], l);
      FromExpansionOf(ns[1..], l);
      FromConcat(Expansion(ns[0]), ExpansionOf(ns[1..]), l);
      InheritedConcat(Above(ns[0], l), AboveIn(ns[1..], l), l);
    }
  }

  lemma {:induction false} NothingAbove(ns: seq<Node>, l: StateName)
    requires l !in LeavesOf(ns)
    ensures AboveIn(ns, l) == []
    decreases |ns|
  {
    if ns != [] { NothingAbove(ns[1..], l); }
  }

  /**
   The rows leaving a state are its explicit ones in order, then those of its
   superstates, outermost first, each turned into a self-loop. Holds for every
   state name; a name that is no leaf inherits nothing.
   */
  lemma RowsOfALeaf(a: Actor, l: StateName)
    requires a.machines == [] && a.indexed && NoDup(LeavesOf(a.roots))
    ensures From(Flat(a), l) == From(a.transitions, l) + Inherited(AboveIn(a.roots, l), l)
    ensures l !in LeavesOf(a.roots) ==> From(Flat(a), l) == From(a.transitions, l)
  {
    FromConcat(a.transitions, ExpansionOf(a.roots), l);
    FromExpansionOf(a.roots, l);
    if l !in LeavesOf(a.roots) { NothingAbove(a.roots, l); }
  }

  ghost predicate DistinctLeaves(m: SubMachine) { NoDup(LeavesOf(m.roots)) }

  /** What one sub-machine contributes to a state. */
  function RowsIn(m: SubMachine, l: StateName): seq<Transition> {
    From(m.transitions, l) + if m.indexed then Inherited(AboveIn(m.roots, l), l) else []
  }

  function RowsInAll(ms: seq<SubMachine>, l: StateName): seq<Transition> {
    if ms == [] then [] else RowsIn(ms[0], l) + RowsInAll(ms[1..], l)
  }

  lemma {:induction false} RowsOfMachines(ms: seq<SubMachine>, l: StateName)
    requires forall i :: 0 <= i < |ms| ==> DistinctLeaves(ms[i])
    ensures From(FlatMachines(ms), l) == RowsInAll(ms, l)
  {
    if ms != [] {
      var m := ms[0];
      assert DistinctLeaves(m);
      FromConcat(FlatMachine(m), FlatMachines(ms[1..]), l);
      if m.indexed {
        FromConcat(m.transitions, ExpansionOf(m.roots), l);
        FromExpansionOf(m.roots, l);
      }
      RowsOfMachines(ms[1..], l);
    }
  }

  /** A composed actor's state gets the rows of each sub-machine in turn. */
  lemma RowsOfAComposedActor(a: Actor, l: StateName)
    requires a.machines != [] && forall i :: 0 <= i < |a.machines| ==> DistinctLeaves(a.machines[i])
    ensures From(Flat(a), l) == RowsInAll(a.machines, l)
  {
    RowsOfMachines(a.machines, l);
  }

  /** Every inherited row is its superstate's row in all but its ends, and those are both the leaf. */
  lemma {:induction false} LoopsKeepTheRow(ts: seq<Transition>, l: StateName)
    ensures |LoopsAt(ts, l)| == |ts|
    ensures forall i :: 0 <= i < |ts| ==>
              LoopsAt(ts, l)[i] == Transition(l, l, ts[i].on, ts[i].guard, ts[i].action, ts[i].updates, ts[i].emits)
  {
    if ts != [] { LoopsKeepTheRow(ts[1..], l); }
  }

  /** An actor without a hierarchy has exactly its own rows, in their order. */
  lemma TableOfAFlatActor(a: Actor)
    requires a.machines == [] && !a.indexed
    ensures |Flat(a)| == |a.transitions|
    ensures forall i :: 0 <= i < |a.transitions| ==> Flat(a)[i] == a.transitions[i]
    ensures forall l :: From(Flat(a), l) == From(a.transitions, l)
  {
  }

  lemma {:induction false} MachineRowsKept(ms: seq<SubMachine>, k: nat, t: Transition)
    requires k < |ms| && t in ms[k].transitions
    ensures t in FlatMachines(ms)
  {
    if k > 0 { MachineRowsKept(ms[1..], k - 1, t); }
  }

  /**
   No actor loses an explicit row: a plain one starts its table with them in order, a
   composed one has every row of every sub-machine.
   */
  lemma ExplicitRowsKept(a: Actor)
    ensures a.machines == [] ==> a.transitions <= Flat(a)
    ensures forall k, t :: 0 <= k < |a.machines| && t in a.machines[k].transitions ==> t in Flat(a)
  {
    forall k, t | 0 <= k < |a.machines| && t in a.machines[k].transitions ensures t in Flat(a) {
      MachineRowsKept(a.machines, k, t);
    }
  }

  /** Leaves are listed from left to right. */
  lemma {:induction false} LeavesInOrder(ns: seq<Node>, ms: seq<Node>)
    ensures LeavesOf(ns + ms) == LeavesOf(ns) + LeavesOf(ms)
    decreases |ns|
  {
    if ns == [] {
      assert ns + ms == ms;
    } else {
      assert (ns + ms)[1..] == ns[1..] + ms;
      LeavesInOrder(ns[1..], ms);
    }
  }

  /** A childless node named `l` somewhere at or below `n`. */
  ghost predicate HasLeaf(n: Node, l: StateName)
    decreases n
  {
    if n.children == [] then n.name == l else exists c :: c in n.children && HasLeaf(c, l)
  }

  /** The leaf states are the names of the childless nodes, and nothing else. */
  lemma {:induction false} LeavesAreChildless(n: Node, l: StateName)
    ensures l in LeafStates(n) <==> HasLeaf(n, l)
    decreases n, 1
  {
    if n.children != [] { LeavesOfAre(n.children, l); }
  }

  lemma {:induction false} LeavesOfAre(ns: seq<Node>, l: StateName)
    ensures l in LeavesOf(ns) <==> exists c :: c in ns && HasLeaf(c, l)
    decreases ns, 0
  {
    if ns != [] {
      LeavesAreChildless(ns[0], l);
      LeavesOfAre(ns[1..], l);
      if c :| c in ns && HasLeaf(c, l) { assert c == ns[0] || c in ns[1..]; }
    }
  }

  // ------------------------------------------------------------------
  // How many rows there are
  // ------------------------------------------------------------------

  function SuperRows(n: Node): nat
    decreases n, 1
  {
    if IsLeaf(n) then 0 else |n.transitions| * |LeafStates(n)| + SuperRowsOf(n.children)
  }

  function SuperRowsOf(ns: seq<Node>): nat
    decreases ns, 0
  {
    if ns == [] then 0 else SuperRows(ns[0]) + SuperRowsOf(ns[1..])
  }

  lemma {:induction false} CopiesCount(ts: seq<Transition>, leaves: seq<StateName>)
    ensures |CopiesOf(ts, leaves)| == |ts| * |leaves|
  {
    if ts != [] {
      CopiesCount(ts[1..], leaves);
      assert |ts| * |leaves| == |leaves| + (|ts| - 1) * |leaves|;
    }
  }

  lemma {:induction false} ExpansionCount(n: Node)
    ensures |Expansion(n)| == SuperRows(n)
    decreases n, 1
  {
    if !IsLeaf(n) {
      CopiesCount(n.transitions, LeafStates(n));
      ExpansionOfCount(n.children);
    }
  }

  lemma {:induction false} ExpansionOfCount(ns: seq<Node>)
    ensures |ExpansionOf(ns)| == SuperRowsOf(ns)
    decreases ns, 0
  {
    if ns != [] { ExpansionCount(ns[0]); ExpansionOfCount(ns[1..]); }
  }

  /** The table has one row per explicit transition, and one per superstate transition and leaf below it. */
  lemma TableSize(a: Actor)
    requires a.machines == [] && a.indexed
    ensures |Flat(a)| == |a.transitions| + SuperRowsOf(a.roots)
  {
    ExpansionOfCount(a.roots);
  }
}
