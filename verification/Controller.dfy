/** The external client of a managed resource: the guarded, effectful steps of
    pkg/controller/container/cluster.go and nodepool.go, over the state the transition
    system describes. */
module Controller {
  import opened Pointers
  import opened Reconcile

  class External<S(==, !new), C(!new), U(!new)> {
    const driver: Driver<S, C, U>
    var state: State<S, C, U>

    constructor (driver: Driver<S, C, U>, state: State<S, C, U>)
      ensures this.driver == driver && this.state == state
    {
      this.driver, this.state := driver, state;
    }

    /** Reads the object, late-initialises the spec to `late`, and writes the spec back if
        that changed it; `replied` is the status left by the reply to that write. */
    method Observe(late: S, replied: string)
      requires state.phase.Idle?
      modifies this
      ensures var held := if late == old(state).spec then old(state).shown else replied;
              Enabled(driver, old(state), Step.Observe(late, held)) &&
              state == Apply(driver, old(state), Step.Observe(late, held))
      ensures old(state).cloud.None? ==> state == old(state).(phase := Observed(false, false))
      ensures var was := old(state);
              was.cloud.Some? ==>
                state.spec == late && state.held == (if late == was.spec then was.shown else replied) &&
                state.phase == Observed(true, driver.next(late, was.cloud.value).None?) &&
                state.cloud == was.cloud && state.shown == was.shown && state.op == was.op
    {
      if state.cloud.None? {
        state := state.(phase := Observed(false, false));
        return;
      }
      state := state.(held := state.shown);
      if late != state.spec {
        state := state.(spec := late, held := replied);
      }
      var update := driver.next(state.spec, state.cloud.value);
      state := state.(phase := Observed(true, update.None?));
    }

    method Create(reply: Option<string>)
      requires Enabled(driver, state, Step.Create(reply))
      modifies this
      ensures state == Apply(driver, old(state), Step.Create(reply))
      ensures state == old(state).(phase := Idle) || state.cloud == Some(driver.create(old(state).spec))
      ensures state.op == Some(Creating) <==>
              old(state).op == Some(Creating) || (old(state).held != "PROVISIONING" && reply.Some?)
    {
      state := state.(phase := Idle);
      if state.held == PROVISIONING {
        return;
      }
      if reply.Some? {
        state := state.(cloud := Some(driver.create(state.spec)), op := Some(Creating), shown := reply.value);
      }
    }

    /** Sends at most one request, and with a fresh status none while another is in flight. */
    method Update(reply: Option<string>) returns (sent: Option<U>)
      requires Enabled(driver, state, Step.Update(reply))
      modifies this
      ensures sent == Sent(driver, old(state))
      ensures state == Apply(driver, old(state), Step.Update(reply))
      ensures Safe(old(state)) && sent.Some? ==> old(state).op.None?
      ensures old(state).cloud.Some? && old(state).held != "RECONCILING" && old(state).held != "PROVISIONING" ==>
              sent == driver.next(old(state).spec, old(state).cloud.value)
      ensures sent.Some? && reply.Some? ==> state.op == Some(Updating(sent.value))
      ensures state.cloud == old(state).cloud && state.spec == old(state).spec && state.held == old(state).held
    {
      state := state.(phase := Idle);
      if state.held == RECONCILING || state.held == PROVISIONING {
        return None;
      }
      if state.cloud.None? {
        return None;
      }
      sent := driver.next(state.spec, state.cloud.value);
      if sent.None? {
        return;
      }
      if reply.Some? {
        state := state.(op := Some(Updating(sent.value)), shown := reply.value);
      }
    }

    /** One reconcile as the runtime makes it: Observe, and then Create or Update where the
        observation asks for one. It is a run of the transition system, and overlaps nothing
        if the status it ends up holding is a busy one whenever an operation is in flight. */
    method Reconcile(late: S, replied: string, reply: Option<string>) returns (ghost steps: seq<Step<S>>)
      requires state.phase.Idle? && (reply.Some? ==> Busy(reply.value))
      modifies this
      ensures state.phase.Idle?
      ensures Run(driver, old(state), steps) && state == End(driver, old(state), steps)
      ensures Safe(old(state)) && (late == old(state).spec || old(state).op.None? || Busy(replied)) ==>
              Safe(state) && NeverOverlaps(driver, old(state), steps)
    {
      ghost var s := state;
      ghost var held := if late == s.spec then s.shown else replied;
      Observe(late, replied);
      ghost var last;
      if !state.phase.found {
        last := Step.Create(reply);
        Create(reply);
      } else if !state.phase.upToDate {
        last := Step.Update(reply);
        var _ := Update(reply);
      } else {
        last := Skip;
        state := state.(phase := Idle);
      }
      steps := [Step.Observe(late, held), last];
      TwoSteps(driver, s, steps[0], steps[1]);
      if Safe(s) && (late == s.spec || s.op.None? || Busy(replied)) {
        assert steps[1..] == [last] && steps[1..][1..] == [];
        GuardedRunsNeverOverlap(driver, s, steps);
      }
    }

    /** Asks for the object to be deleted, unless it is already stopping. */
    method Delete() returns (sent: bool)
      requires Enabled(driver, state, Step.Delete)
      modifies this
      ensures sent <==> old(state).held != STOPPING
      ensures state == Apply(driver, old(state), Step.Delete)
    {
      state := state.(phase := Idle);
      sent := state.held != STOPPING;
    }
  }
}
