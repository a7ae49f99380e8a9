/** The generated backend machine: fields updated in place by the row its switch selects. */
module BackendMachine {
  import opened SessionCommands
  import opened BackendPath

  class Machine {
    var state: State
    var pingFailures: int
    var backoffLevel: int
    var activePath: Carrier
    var dispatcherPath: Carrier
    var monitorTarget: Target
    var altSignal: Signal

    function View(): Backend reads this {
      Backend(state, pingFailures, backoffLevel, activePath, dispatcherPath, monitorTarget, altSignal)
    }

    constructor ()
      ensures View() == INITIAL && FieldsAgree(View()) && RunningAgrees(View(), ALL_OFF)
    {
      state, pingFailures, backoffLevel := Idle, 0, 0;
      activePath, dispatcherPath, monitorTarget, altSignal := Relay, Relay, NoTarget, Pending;
    }

    /**
     One event. Whatever was running in step with the state is so again once the returned
     commands are obeyed, the path fields keep agreeing with the state, and an error
     leaves everything as it was.
     */
    method HandleEvent(inp: Input) returns (cmds: seq<Cmd>, err: bool)
      modifies this
      ensures Reply(View(), cmds, err) == OnEvent(old(View()), inp)
      ensures err ==> View() == old(View()) && cmds == []
      ensures old(FieldsAgree(View())) ==> FieldsAgree(View())
      ensures forall r :: old(RunningAgrees(View(), r)) ==> RunningAgrees(View(), ObeyAll(r, cmds))
    {
      ghost var before := View();
      if FieldsAgree(before) { FieldsKept(before, inp); }
      forall r | RunningAgrees(before, r)
        ensures RunningAgrees(OnEvent(before, inp).machine, ObeyAll(r, OnEvent(before, inp).cmds))
      {
        RunningKept(before, r, inp);
      }
      match RowFor(View(), inp.event, inp.holds) {
        case NoRow => return [], false;
        case Row(action, after, emits) =>
          if action != NoAction && action in inp.failing { return [], true; }
          pingFailures, backoffLevel := after.pingFailures, after.backoffLevel;
          activePath, dispatcherPath := after.activePath, after.dispatcherPath;
          monitorTarget, altSignal := after.monitorTarget, after.altSignal;
          state := after.state;
          return emits, false;
      }
    }
  }
}
