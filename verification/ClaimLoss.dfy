/** "A running run has a claim" does not hold: exactly which steps take a live run's claim, and a run that does. */
module ClaimLoss {
  import opened RunModel
  import opened Records
  import opened StateDirectory
  import opened Chooser
  import opened Scheduler
  import opened Protocol
  import opened ProtocolCore
  import opened LeaseSafety
  import opened Traces
  import opened StagingRace

  /** The step releases the run's slot: a worker of it on its way out, also one that lost the race for the lease; an
    * abort of it; a reaper that found it queued; or a dispatcher whose launch failed. */
  predicate Frees(s: System, a: Action, id: RunId) {
    && !Locked(s.env)
    && match a
       case DropSlot(i) => i == id
       case Work(w, _) => w in s.workers && s.workers[w].pc.WReleaseSlot? && s.workers[w].run == id
       case Reap(r, _) => r in s.reapers && s.reapers[r].pc == RDrop(id)
       case StepAbort(b) => b in s.aborts && AbortFrees(s.aborts[b], id)
       case _ => false
  }

  predicate AbortFrees(pc: AbortPc, id: RunId) {
    match pc
    case BDrop(_, kids, i) => i < |kids| && kids[i].id == id
    case BFree(i) => i == id
    case _ => false
  }

  ghost predicate HoldsClaim(e: Env, id: RunId) {
    id in e.reg.records && !IsTerminal(e.reg.records[id].state) && SlotOf(e, id) in e.claims
  }

  lemma WorkerFrees(e: Env, w: WorkerId, me: Worker, x: WorkerInput, id: RunId)
    requires SlotOf(e, id) in e.claims
    ensures SlotOf(e, id) !in WorkerStep(e, w, me, x).env.claims <==> !Locked(e) && me.pc.WReleaseSlot? && me.run == id
  {
    hide Transitioned, Judged, CancelSeen, Published, LeaseClaimed, LeaseReleased;
  }

  lemma ReaperFrees(e: Env, me: Reaper, choice: ReaperInput, id: RunId)
    requires HoldsClaim(e, id)
    ensures SlotOf(e, id) !in ReaperStep(e, me, choice).env.claims <==> !Locked(e) && me.pc == RDrop(id)
  {
    hide Transitioned, Aggregate, AggregateWritten;
  }

  lemma AbortStepFrees(e: Env, pc: AbortPc, id: RunId)
    requires SlotOf(e, id) in e.claims
    ensures SlotOf(e, id) !in AbortStep(e, pc).env.claims <==> !Locked(e) && AbortFrees(pc, id)
  {
    hide Transitioned, AbortSingle;
  }

  /** A step takes the claim of a run that is not terminal if and only if it is one of those releases. */
  lemma ClaimLostExactly(cfg: Inventory, s: System, a: Action, id: RunId)
    requires HoldsClaim(s.env, id)
    ensures SlotOf(s.env, id) !in Step(cfg, s, a).env.claims <==> Frees(s, a, id)
  {
    hide WorkerStep, ReaperStep, AbortStep, AdmitStep, RewriteParent, RenewStep;
    match a {
      case Work(w, x) => if w in s.workers { WorkerFrees(s.env, w, s.workers[w], x, id); }
      case Renew(w) => if w in s.workers { RenewLeavesClaims(s.env, w, s.workers[w]); }
      case Reap(r, choice) => if r in s.reapers { ReaperFrees(s.env, s.reapers[r], choice, id); }
      case StepAbort(b) => if b in s.aborts { AbortStepFrees(s.env, s.aborts[b], id); }
      case _ =>
    }
  }

  lemma RenewLeavesClaims(e: Env, w: WorkerId, me: Worker)
    ensures RenewStep(e, w, me).env.claims == e.claims
  {
  }

  // ---------------------------------------------------------------- a run that takes it

  /** The state of the staging race, with run 1 running under a good lease, and an abort of the build at `pc`. */
  function Aborting(target: RunRecord, claims: ClaimMap, pc: AbortPc): System {
    Sys(Reg(60, target), map[1 := Lease(7, 1860)], claims, map[7 := Worker(1, WExec, true, false, 1860, 0)],
        map[0 := Reaper(60, RMark(1, Staging))]).(aborts := map[5 := pc])
  }

  const KIDS := [Kid(1, Running)]
  const RUNNING: RunRecord := Target(Running, 60)
  const CANCELLED: RunRecord := Target(Running, 60).(cancelAt := Some(60))

  lemma Listed() returns (t: seq<Action>)
    ensures Reaches(t, Aborting(RUNNING, CLAIMED, BEach(0, KIDS, 0)))
  {
    t := Started();
    var started := Aborting(RUNNING, CLAIMED, BEnd).(aborts := map[]);
    var e := started.env;
    t := Extend(t, started, StartAbort(5, 0), Aborting(RUNNING, CLAIMED, BLoad(0)));
    t := AbortStepped(t, Aborting(RUNNING, CLAIMED, BLoad(0)), e, BList(0, 0, []));
    assert [] + KIDS == KIDS;
    t := AbortStepped(t, Aborting(RUNNING, CLAIMED, BList(0, 0, [])), e, BList(0, 1, KIDS));
    t := AbortStepped(t, Aborting(RUNNING, CLAIMED, BList(0, 1, KIDS)), e, BEach(0, KIDS, 0));
  }

  lemma Cancelling() returns (t: seq<Action>)
    ensures Reaches(t, Aborting(CANCELLED, CLAIMED, BDrop(0, KIDS, 0)))
  {
    t := Listed();
    var e, e' := Aborting(RUNNING, CLAIMED, BEnd).env, Aborting(CANCELLED, CLAIMED, BEnd).env;
    assert e.reg.records[1 := CANCELLED] == e'.reg.records;
    t := AbortStepped(t, Aborting(RUNNING, CLAIMED, BEach(0, KIDS, 0)), e', BDrop(0, KIDS, 0));
  }

  /** A reachable state in which a worker runs the command under a good lease and the run has no claim. */
  lemma RunningWithoutClaim() returns (actions: seq<Action>)
    ensures var s := Run(CFG, INITIAL, actions);
            && StartedLive(s, 7, 1) && s.workers[7].pc.WExec? && 1 in s.env.reg.records
            && s.env.reg.records[1].state.Running? && SlotOf(s.env, 1) !in s.env.claims
  {
    actions := Cancelling();
    assert Released(CLAIMED, "m", 1) == map[];
    var e' := Aborting(CANCELLED, map[], BEnd).env;
    actions := AbortStepped(actions, Aborting(CANCELLED, CLAIMED, BDrop(0, KIDS, 0)), e', BEach(0, KIDS, 1));
  }
}
