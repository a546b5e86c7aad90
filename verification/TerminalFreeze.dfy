/** Exactly which terminal targets are frozen for good: those no admission is still creating. */
module TerminalFreeze {
  import opened RunModel
  import opened Records
  import opened StateDirectory
  import opened Chooser
  import opened Scheduler
  import opened Protocol
  import opened ProtocolCore
  import opened ResultSafety
  import opened AdmissionOps
  import opened AdmissionSteps
  import opened Traces

  /** Over every run, record and result stay as they are. */
  ghost predicate Frozen(cfg: Inventory, s: System, id: RunId) {
    forall actions :: Same(s.env, Run(cfg, s, actions).env, id)
  }

  lemma {:induction false} InputsRegister(cfg: Inventory, s: System, xs: seq<AdmitInput>)
    ensures Run(cfg, s, Inputs(xs)).env.reg == Admits(s.env.reg, xs)
    decreases |xs|
  {
    hide AdmitStep;
    if xs != [] {
      assert Inputs(xs)[1..] == Inputs(xs[1..]);
      InputsRegister(cfg, Step(cfg, s, Admit(xs[0])), xs[1..]);
    }
  }

  /** The admission that is creating a run can still fail, and its rollback then removes the run. */
  lemma RollbackRemoves(cfg: Inventory, s: System, id: RunId) returns (actions: seq<Action>)
    requires InFlight(s.env.reg, id)
    ensures id !in Run(cfg, s, actions).env.reg.records
  {
    var g := s.env.reg;
    var pid, created := g.admission.value.parentId, g.admission.value.created;
    var failed := g.(admission := Some(RollingBack(pid, created)));
    var undo := UndoAll(failed, pid, created, {});
    assert id in Ids(created);
    if g.admission.value.RollingBack? {
      assert failed == g;
      InputsRegister(cfg, s, undo);
      actions := Inputs(undo);
    } else {
      assert AdmitStep(g, AFail) == failed;
      var xs := [AFail] + undo;
      assert xs[1..] == undo;
      InputsRegister(cfg, s, xs);
      actions := Inputs(xs);
    }
  }

  /** In every reachable state a terminal target is frozen for good if and only if it is not being created by an
    * admission that is still open. */
  lemma FrozenExactly(cfg: Inventory, before: seq<Action>, id: RunId)
    requires var g := Run(cfg, INITIAL, before).env.reg; OnRecord(g, id) && IsTerminal(g.records[id].state)
    ensures var s := Run(cfg, INITIAL, before); Frozen(cfg, s, id) <==> !InFlight(s.env.reg, id)
  {
    hide Step, Core;
    InitialResults();
    RunResults(cfg, INITIAL, before);
    var s := Run(cfg, INITIAL, before);
    if InFlight(s.env.reg, id) {
      var actions := RollbackRemoves(cfg, s, id);
      assert !Same(s.env, Run(cfg, s, actions).env, id);
    } else {
      forall actions ensures Same(s.env, Run(cfg, s, actions).env, id) {
        TerminalTargetIsFrozen(cfg, s, actions, id);
      }
    }
  }

  // ---------------------------------------------------------------- a run that removes a terminal target

  /** The target of the admission still open, in `state`, with caller 5 at `pc`. */
  function Aborting(state: RunState, pc: AbortPc): System {
    Idle(CREATING.(records := map[1 := Target(state, 0)])).(aborts := map[5 := pc])
  }

  /** A reachable state in which an abort has made a target terminal whose request is not saved yet, so that the abort
    * found no request to go to; and a continuation, the failed save's rollback, that removes its record. */
  lemma AbortedTargetRolledBack() returns (actions: seq<Action>, rollback: seq<Action>)
    ensures var s := Run(CFG, INITIAL, actions);
            && OnRecord(s.env.reg, 1) && s.env.reg.records[1].state.Aborted? && InFlight(s.env.reg, 1)
            && 1 !in Run(CFG, s, rollback).env.reg.records
  {
    actions := Created();
    var e, e' := Aborting(Queued, BEnd).env, Aborting(Aborted, BEnd).env;
    actions := Extend(actions, Idle(CREATING), StartAbort(5, 1), Aborting(Queued, BLoad(1)));
    actions := AbortStepped(actions, Aborting(Queued, BLoad(1)), e, BUp(1, 0, Queued));
    actions := AbortStepped(actions, Aborting(Queued, BUp(1, 0, Queued)), e, BSolo(1, Queued));
    assert e.reg.records[1 := Target(Aborted, 0)] == e'.reg.records;
    actions := AbortStepped(actions, Aborting(Queued, BSolo(1, Queued)), e', BFree(1));
    rollback := RollbackRemoves(CFG, Aborting(Aborted, BFree(1)), 1);
  }
}
