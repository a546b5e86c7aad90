/** The stale save of a submission can bring an aborted build request back: a run that does it. */
module LateSave {
  import opened RunModel
  import opened Records
  import opened StateDirectory
  import opened Chooser
  import opened Scheduler
  import opened Protocol
  import opened Traces
  import opened ProtocolCore
  import opened ParentSafety

  /** The abort of run 0 by caller 5, with the submission's copy still to be saved. */
  function Aborting(target: RunState, request: RunState, pc: AbortPc): System {
    var g := Admitted(true).(records := map[0 := Request(request, ""), 1 := Target(target, 0)]);
    System(Env(g, map[], map[], map[]), map[], map[], map[5 := pc])
  }

  const KIDS := [Kid(1, Queued)]

  /** Listing and cancelling the one target. */
  lemma Cancelled() returns (t: seq<Action>)
    ensures Reaches(t, Aborting(Aborted, Queued, BEach(0, KIDS, 1)))
  {
    t := Admitting(true);
    var e, e' := Aborting(Queued, Queued, BEnd).env, Aborting(Aborted, Queued, BEnd).env;
    assert Idle(Admitted(true)).env == e;
    t := Extend(t, Idle(Admitted(true)), StartAbort(5, 0), Aborting(Queued, Queued, BLoad(0)));
    t := AbortStepped(t, Aborting(Queued, Queued, BLoad(0)), e, BList(0, 0, []));
    assert [] + KIDS == KIDS;
    t := AbortStepped(t, Aborting(Queued, Queued, BList(0, 0, [])), e, BList(0, 1, KIDS));
    t := AbortStepped(t, Aborting(Queued, Queued, BList(0, 1, KIDS)), e, BEach(0, KIDS, 0));
    t := AbortStepped(t, Aborting(Queued, Queued, BEach(0, KIDS, 0)), e', BDrop(0, KIDS, 0));
    var none: ClaimMap := map[];
    assert Released(none, "m", 1) == none;
    t := AbortStepped(t, Aborting(Aborted, Queued, BDrop(0, KIDS, 0)), e', BEach(0, KIDS, 1));
  }

  /** The abort completes and the request is recorded aborted. */
  lemma AbortDone() returns (t: seq<Action>)
    ensures Reaches(t, Aborting(Aborted, Aborted, BDone(0)))
  {
    t := Cancelled();
    var e, e' := Aborting(Aborted, Queued, BEnd).env, Aborting(Aborted, Aborted, BEnd).env;
    t := AbortStepped(t, Aborting(Aborted, Queued, BEach(0, KIDS, 1)), e, BParent(0));
    assert e.reg.records[0 := Request(Aborted, "")] == e'.reg.records;
    t := AbortStepped(t, Aborting(Aborted, Queued, BParent(0)), e', BDone(0));
  }

  /** A reachable state in which an abort is done and its request finished as aborted, and the next step,
    * the submission's save of the copy it made before, puts it back to queued. */
  lemma AbortedRequestRevived() returns (actions: seq<Action>, save: Action)
    ensures var s := Run(CFG, INITIAL, actions);
            && 5 in s.aborts && s.aborts[5] == BDone(0)
            && Finished(s.env.reg, 0) && s.env.reg.records[0].state.Aborted? && LateRewrite(s, save, 0)
            && var s' := Step(CFG, s, save); 0 in s'.env.reg.records && s'.env.reg.records[0].state.Queued?
  {
    actions := AbortDone();
    save := Rewrite(0, "reconstructed");
  }
}
