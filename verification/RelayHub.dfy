/**
 The relay's table of registered backend instances. Registration and
 the removal part of unregistration run under one lock; the cancellation that
 follows a removal, and the death of a control connection, do not.
 */
module RelayHub {
  type Id = string
  type InstId = int

  /** Where an instance is in its handler: `Removed` lies between the delete and the cancel. */
  datatype Phase = Fresh | Refused | Registered | Removed | Gone

  datatype Inst = Inst(id: Id, phase: Phase, cancelled: bool)

  datatype Hub = Hub(slots: map<Id, InstId>, insts: map<InstId, Inst>)

  datatype Step =
    | Create(i: InstId, id: Id)
    | Register(i: InstId)
    | Die(i: InstId)
    | Remove(i: InstId)
    | Cancel(i: InstId)

  const EMPTY := Hub(map[], map[])

  /** Claiming a slot: a live holder keeps it. */
  function Claim<T>(slots: map<Id, T>, id: Id, x: T, held: bool): map<Id, T> {
    if held then slots else slots[id := x]
  }

  /** Giving a slot up: only its current holder can. */
  function Release<T(==)>(slots: map<Id, T>, id: Id, x: T): map<Id, T> {
    if id in slots && slots[id] == x then slots - {id} else slots
  }

  /** The slot is held by an instance whose context is not cancelled. */
  predicate Occupied(h: Hub, id: Id) {
    id in h.slots && h.slots[id] in h.insts && !h.insts[h.slots[id]].cancelled
  }

  predicate Owns(h: Hub, i: InstId) {
    i in h.insts && h.insts[i].id in h.slots && h.slots[h.insts[i].id] == i
  }

  predicate Enabled(h: Hub, s: Step) {
    match s
    case Create(i, _) => i !in h.insts
    case Register(i) => i in h.insts && h.insts[i].phase == Fresh
    case Die(i) => i in h.insts
    case Remove(i) => i in h.insts && h.insts[i].phase == Registered
    case Cancel(i) => i in h.insts && h.insts[i].phase == Removed
  }

  function Do(h: Hub, s: Step): Hub
    requires Enabled(h, s)
  {
    match s
    case Create(i, id) => h.(insts := h.insts[i := Inst(id, Fresh, false)])
    case Register(i) =>
      var inst := h.insts[i];
      var held := Occupied(h, inst.id);
      Hub(Claim(h.slots, inst.id, i, held), h.insts[i := inst.(phase := if held then Refused else Registered)])
    case Die(i) => h.(insts := h.insts[i := h.insts[i].(cancelled := true)])
    case Remove(i) =>
      var inst := h.insts[i];
      Hub(Release(h.slots, inst.id, i), h.insts[i := inst.(phase := if Owns(h, i) then Removed else Gone)])
    case Cancel(i) => h.(insts := h.insts[i := h.insts[i].(phase := Gone, cancelled := true)])
  }

  predicate SlotOk(h: Hub, id: Id)
    requires id in h.slots
  {
    h.slots[id] in h.insts && h.insts[h.slots[id]].id == id && h.insts[h.slots[id]].phase == Registered
  }

  predicate InstOk(h: Hub, i: InstId)
    requires i in h.insts
  {
    && (h.insts[i].phase == Registered && !h.insts[i].cancelled ==> Owns(h, i))
    && (h.insts[i].phase == Gone ==> h.insts[i].cancelled)
  }

  predicate Inv(h: Hub) {
    && (forall id :: id in h.slots ==> SlotOk(h, id))
    && (forall i :: i in h.insts ==> InstOk(h, i))
  }

  lemma InvStep(h: Hub, s: Step)
    requires Inv(h) && Enabled(h, s)
    ensures Inv(Do(h, s))
  {
    var h' := Do(h, s);
    forall id | id in h'.slots ensures SlotOk(h', id) { if id in h.slots { assert SlotOk(h, id); } }
    forall i | i in h'.insts ensures InstOk(h', i) {
      if i in h.insts { assert InstOk(h, i); }
      if s.Register? && h.insts[s.i].id in h.slots { assert SlotOk(h, h.insts[s.i].id); }
    }
  }

  ghost predicate Run(hs: seq<Hub>, steps: seq<Step>) {
    && |hs| == |steps| + 1 && hs[0] == EMPTY
    && forall k :: 0 <= k < |steps| ==> Enabled(hs[k], steps[k]) && hs[k + 1] == Do(hs[k], steps[k])
  }

  lemma {:induction false} RunInv(hs: seq<Hub>, steps: seq<Step>, k: nat)
    requires Run(hs, steps) && k < |hs|
    ensures Inv(hs[k])
  {
    if k > 0 { RunInv(hs, steps, k - 1); InvStep(hs[k - 1], steps[k - 1]); }
  }

  /** Registered and not torn down: its own connection lives and its handler has not reached unregister. */
  predicate Serving(h: Hub, i: InstId) {
    i in h.insts && h.insts[i].phase == Registered && !h.insts[i].cancelled
  }

  /**
   An instance that registered keeps its slot, under the ID it registered with, until
   its own connection dies or its own unregister runs, whatever others do meanwhile.
   */
  lemma {:induction false} KeepsItsSlot(hs: seq<Hub>, steps: seq<Step>, i: InstId, j: nat, k: nat)
    requires Run(hs, steps) && j <= k < |hs|
    requires Serving(hs[j], i)
    requires forall n :: j <= n < k ==> steps[n] != Die(i) && steps[n] != Remove(i)
    ensures Serving(hs[k], i) && Owns(hs[k], i)
    ensures hs[k].insts[i].id == hs[j].insts[i].id
    decreases k
  {
    RunInv(hs, steps, k);
    if j < k {
      KeepsItsSlot(hs, steps, i, j, k - 1);
    }
    assert InstOk(hs[k], i);
  }

  /** Unregistering an instance that lost its slot changes no slot and cancels nothing, so no other instance notices. */
  lemma StaleUnregister(h: Hub, i: InstId)
    requires Inv(h) && Enabled(h, Remove(i)) && !Owns(h, i)
    ensures Do(h, Remove(i)).slots == h.slots
    ensures h.insts[i].cancelled
    ensures forall n :: n in h.insts && n != i ==> Do(h, Remove(i)).insts[n] == h.insts[n]
    ensures !Enabled(Do(h, Remove(i)), Cancel(i))
  {
  }

  /** An unregister never disturbs another instance's slot. */
  lemma RemoveIsLocal(h: Hub, i: InstId, n: InstId)
    requires Inv(h) && Enabled(h, Remove(i)) && n != i
    ensures Owns(Do(h, Remove(i)), n) <==> Owns(h, n)
  {
  }

  /**
   Two live instances that registered under one ID: at least one of them has left
   its slot and is about to cancel itself. No other overlap is possible.
   */
  lemma LiveInstancesShareNoId(hs: seq<Hub>, steps: seq<Step>, k: nat, a: InstId, b: InstId)
    requires Run(hs, steps) && k < |hs| && a != b
    requires a in hs[k].insts && b in hs[k].insts && hs[k].insts[a].id == hs[k].insts[b].id
    requires hs[k].insts[a].phase in {Registered, Removed, Gone} && !hs[k].insts[a].cancelled
    requires hs[k].insts[b].phase in {Registered, Removed, Gone} && !hs[k].insts[b].cancelled
    ensures hs[k].insts[a].phase == Removed || hs[k].insts[b].phase == Removed
  {
    RunInv(hs, steps, k);
    assert InstOk(hs[k], a) && InstOk(hs[k], b);
  }

  /** A registration succeeds exactly when no live instance holds the slot. */
  lemma RegistrationSucceedsIff(hs: seq<Hub>, steps: seq<Step>, k: nat, i: InstId)
    requires Run(hs, steps) && k < |steps| && steps[k] == Register(i)
    ensures i in hs[k].insts && i in hs[k + 1].insts
    ensures hs[k + 1].insts[i].phase == Registered
            <==> forall n :: Serving(hs[k], n) ==> hs[k].insts[n].id != hs[k].insts[i].id
    ensures hs[k + 1].insts[i].phase == Registered ==> Owns(hs[k + 1], i)
  {
    var h := hs[k];
    RunInv(hs, steps, k);
    assert Enabled(h, steps[k]);
    var id := h.insts[i].id;
    if id in h.slots { assert SlotOk(h, id); }
    if Occupied(h, id) {
      assert Serving(h, h.slots[id]);
    } else {
      forall n | Serving(h, n) ensures h.insts[n].id != id { assert InstOk(h, n); }
    }
  }

  // ------------------------------------------------------------------
  // The table in place
  // ------------------------------------------------------------------

  class Instance {
    const id: Id
    var cancelled: bool

    constructor (id: Id)
      ensures this.id == id && !cancelled
    {
      this.id := id;
      cancelled := false;
    }
  }

  class Table {
    var instances: map<Id, Instance>

    constructor ()
      ensures instances == map[]
    {
      instances := map[];
    }

    method Register(inst: Instance) returns (ok: bool)
      modifies this
      ensures ok <==> !(inst.id in old(instances) && !old(instances)[inst.id].cancelled)
      ensures instances == Claim(old(instances), inst.id, inst, !ok)
    {
      if inst.id in instances && !instances[inst.id].cancelled { return false; }
      instances := instances[inst.id := inst];
      return true;
    }

    /** The locked part of unregister: says whether the caller must cancel. */
    method RemoveLocked(inst: Instance) returns (owns: bool)
      modifies this
      ensures owns <==> inst.id in old(instances) && old(instances)[inst.id] == inst
      ensures instances == Release(old(instances), inst.id, inst)
    {
      owns := inst.id in instances && instances[inst.id] == inst;
      if owns { instances := instances - {inst.id}; }
    }

    /** Removal, then cancellation outside the lock. */
    method Unregister(inst: Instance)
      modifies this, inst`cancelled
      ensures instances == Release(old(instances), inst.id, inst)
      ensures inst.cancelled == (old(inst.cancelled) || (inst.id in old(instances) && old(instances)[inst.id] == inst))
    {
      var owns := RemoveLocked(inst);
      if owns { inst.cancelled := true; }
    }
  }
}
