/** The generated client machine: fields updated in place by the row its switch selects. */
module ClientMachine {
  import opened SessionCommands
  import opened ClientPath

  class Machine {
    var state: State
    var activePath: Carrier
    var dispatcherPath: Carrier
    var altSignal: Signal

    function View(): Client reads this { Client(state, activePath, dispatcherPath, altSignal) }

    constructor ()
      ensures View() == INITIAL && FieldsAgree(View()) && RunningAgrees(View(), ALL_OFF)
    {
      state, activePath, dispatcherPath, altSignal := Idle, Relay, Relay, Pending;
    }

    /**
     One event. With readers and signal in step with the machine before, they are so again
     once the returned commands are obeyed; an error leaves everything as it was.
     */
    method HandleEvent(inp: Input) returns (cmds: seq<Cmd>, err: bool)
      modifies this
      ensures Reply(View(), cmds, err) == OnEvent(old(View()), inp)
      ensures err ==> View() == old(View()) && cmds == []
      ensures forall r :: old(FieldsAgree(View()) && RunningAgrees(View(), r)) ==>
                FieldsAgree(View()) && RunningAgrees(View(), ObeyAll(r, cmds))
    {
      ghost var before := View();
      forall r | FieldsAgree(before) && RunningAgrees(before, r)
        ensures var reply := OnEvent(before, inp);
                FieldsAgree(reply.machine) && RunningAgrees(reply.machine, ObeyAll(r, reply.cmds))
      {
        StepKeeps(before, r, inp);
      }
      match RowFor(View(), inp.event, inp.holds) {
        case NoRow => return [], false;
        case Row(action, after, emits) =>
          if action != NoAction && action in inp.failing { return [], true; }
          activePath, dispatcherPath, altSignal := after.activePath, after.dispatcherPath, after.altSignal;
          state := after.state;
          return emits, false;
      }
    }
  }
}
