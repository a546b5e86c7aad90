/** Why the reaper's guarantee is about runs it loaded as running or committing: a run it loaded as
  * staging may have started, under a good lease, by the time it is marked lost. */
module StagingRace {
  import opened RunModel
  import opened Records
  import opened StateDirectory
  import opened Chooser
  import opened Scheduler
  import opened Protocol
  import opened LeaseSafety
  import opened Traces

  const PROCEED := WorkerInput(true, false, false, Outcome(0, false, false))

  function Reg(clock: Time, target: RunRecord): Registry {
    Registry(clock, map[0 := Request(Queued, ""), 1 := target], MINTED, None, map[])
  }

  function Sys(g: Registry, leases: LeaseMap, claims: ClaimMap, workers: map<WorkerId, Worker>,
               reapers: map<nat, Reaper>): System
  {
    System(Env(g, leases, map[], claims), workers, reapers, map[])
  }

  const CLAIMED: ClaimMap := map[Slot("m", 1) := 0]

  function At(pc: WorkerPc): map<WorkerId, Worker> { map[7 := Worker(1, pc, false, false, 0, 0)] }

  /** Reserved and launched at time 0, the worker has promoted its run and not claimed the lease yet. */
  lemma Promoted() returns (t: seq<Action>)
    ensures Reaches(t, Sys(Reg(0, Target(Staging, 0)), map[], CLAIMED, At(WClaim), map[]))
  {
    t := Admitting(false);
    var g := Reg(0, Target(Queued, 0));
    var queued := Sys(g, map[], map[], map[], map[]);
    assert queued == Idle(Admitted(false));
    SlotFree(g.records);
    hide Reserved;
    t := Extend(t, queued, ReserveSlot(1, 0), Sys(g, map[], CLAIMED, map[], map[]));
    t := Extend(t, Sys(g, map[], CLAIMED, map[], map[]), Launch(7, 1), Sys(g, map[], CLAIMED, At(WLoad), map[]));
    var e := Env(g, map[], map[], CLAIMED);
    t := Worked(t, e, At(WLoad)[7], map[], e, At(WSlot(Queued))[7]);
    t := Worked(t, e, At(WSlot(Queued))[7], map[], e, At(WPromote)[7]);
    t := Worked(t, e, At(WPromote)[7], map[], e.(reg := Reg(0, Target(Staging, 0))), At(WClaim)[7]);
  }

  lemma SlotFree(rs: RecordMap)
    ensures Reserved(CFG, map[], rs, "m", 1, 0).0 == CLAIMED
  {
  }

  lemma Worked(t: seq<Action>, e: Env, me: Worker, reapers: map<nat, Reaper>, e': Env, me': Worker)
    returns (longer: seq<Action>)
    requires Reaches(t, System(e, map[7 := me], reapers, map[]))
    requires WorkerStep(e, 7, me, PROCEED) == Acted(e', me')
    ensures Reaches(longer, System(e', map[7 := me'], reapers, map[]))
  {
    hide WorkerStep;
    var s := System(e, map[7 := me], reapers, map[]);
    assert s.workers[7 := me'] == map[7 := me'];
    longer := Extend(t, s, Work(7, PROCEED), System(e', map[7 := me'], reapers, map[]));
  }

  lemma ReaperMoved(t: seq<Action>, e: Env, workers: map<WorkerId, Worker>, me: Reaper, choice: ReaperInput,
                    pc: ReaperPc)
    returns (longer: seq<Action>)
    requires Reaches(t, System(e, workers, map[0 := me], map[]))
    requires ReaperStep(e, me, choice) == Acted(e, me.(pc := pc))
    ensures Reaches(longer, System(e, workers, map[0 := me.(pc := pc)], map[]))
  {
    hide ReaperStep;
    var s := System(e, workers, map[0 := me], map[]);
    assert s.reapers[0 := me.(pc := pc)] == map[0 := me.(pc := pc)];
    longer := Extend(t, s, Reap(0, choice), System(e, workers, map[0 := me.(pc := pc)], map[]));
  }

  /** A minute later a reaper finds no lease and an old reservation, and settles on marking the run lost. */
  lemma Decided() returns (t: seq<Action>)
    ensures Reaches(t, Sys(Reg(60, Target(Staging, 0)), map[], CLAIMED, At(WClaim),
                           map[0 := Reaper(60, RMark(1, Staging))]))
  {
    t := Promoted();
    var g := Reg(60, Target(Staging, 0));
    var e := Env(g, map[], map[], CLAIMED);
    t := Extend(t, Sys(Reg(0, Target(Staging, 0)), map[], CLAIMED, At(WClaim), map[]), Tick(60),
                System(e, At(WClaim), map[], map[]));
    t := Extend(t, System(e, At(WClaim), map[], map[]), StartReaper(0),
                System(e, At(WClaim), map[0 := Reaper(60, RIdle)], map[]));
    t := ReaperMoved(t, e, At(WClaim), Reaper(60, RIdle), RScan(1), RLease(1, Staging));
    t := ReaperMoved(t, e, At(WClaim), Reaper(60, RLease(1, Staging)), RSweep, RReservation(1));
    t := ReaperMoved(t, e, At(WClaim), Reaper(60, RReservation(1)), RSweep, RMark(1, Staging));
  }

  function Leased(pc: WorkerPc): Worker { Worker(1, pc, false, false, 1860, 0) }

  /** The worker then claims its lease and starts the command before the reaper's next step. */
  lemma Started() returns (t: seq<Action>)
    ensures Reaches(t, Sys(Reg(60, Target(Running, 60)), map[1 := Lease(7, 1860)], CLAIMED,
                           map[7 := Worker(1, WExec, true, false, 1860, 0)], map[0 := Reaper(60, RMark(1, Staging))]))
  {
    t := Decided();
    var reapers := map[0 := Reaper(60, RMark(1, Staging))];
    var e := Env(Reg(60, Target(Staging, 0)), map[1 := Lease(7, 1860)], map[], CLAIMED);
    t := Worked(t, e.(leases := map[]), At(WClaim)[7], reapers, e, Leased(WRecheck));
    t := Worked(t, e, Leased(WRecheck), reapers, e, Leased(WPreCancel));
    t := Worked(t, e, Leased(WPreCancel), reapers, e, Leased(WPopulate));
    t := Worked(t, e, Leased(WPopulate), reapers, e, Leased(WPostCancel));
    t := Worked(t, e, Leased(WPostCancel), reapers, e, Leased(WStart));
    t := Worked(t, e, Leased(WStart), reapers, e.(reg := Reg(60, Target(Running, 60))),
                Worker(1, WExec, true, false, 1860, 0));
  }

  /** A reachable state in which a worker runs its command under a good lease and the reaper's next step,
    * decided when the run was staging, records the run as lost. */
  lemma LiveWorkerMarkedLost() returns (actions: seq<Action>)
    ensures var s := Run(CFG, INITIAL, actions);
            && 0 in s.reapers && s.reapers[0].pc == RMark(1, Staging)
            && StartedLive(s, 7, 1) && LeaseGood(s.env, 1)
            && var s' := Step(CFG, s, Reap(0, RSweep));
               StartedLive(s', 7, 1) && 1 in s'.env.reg.records && s'.env.reg.records[1].state.Lost?
  {
    actions := Started();
  }
}
