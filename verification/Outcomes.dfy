/** What a worker makes of its command: in every state a success means exit code zero, and a worker left alone takes
  * its run from the reservation to the verdict its command earned. */
module Outcomes {
  import opened RunModel
  import opened Records
  import opened StateDirectory
  import opened Chooser
  import opened Scheduler
  import opened Protocol
  import opened ProtocolCore
  import opened ResultSafety
  import ParentSafety

  // ---------------------------------------------------------------- success means exit code zero

  predicate Honest(r: BuildResult) { r.state.Succeeded? ==> r.exitCode == 0 }

  ghost predicate WorkerHonest(g: Registry, me: Worker) {
    && (me.pc.WCommit? || me.pc.WPublish? || me.pc.WFinish? ==> Honest(me.pc.res))
    && (me.pc.WPublish? || me.pc.WFinish? ==> AtLeast(g, me.run, 3))
  }

  /** Results are honest and only of runs that have reached their commit. */
  ghost predicate ResultsHonest(e: Env) {
    forall id :: id in e.results ==> Honest(e.results[id]) && AtLeast(e.reg, id, 3)
  }

  ghost predicate OutcomeInv(s: System) {
    && ResultInv(s) && ResultsHonest(s.env)
    && forall w :: w in s.workers ==> WorkerHonest(s.env.reg, s.workers[w])
  }

  lemma HonestStays(g: Registry, g': Registry, me: Worker)
    requires Keeps(g, g') && WorkerHonest(g, me)
    ensures WorkerHonest(g', me)
  {
  }

  lemma ResultsStayHonest(e: Env, e': Env)
    requires Keeps(e.reg, e'.reg) && ResultsHonest(e) && e'.results == e.results
    ensures ResultsHonest(e')
  {
  }

  lemma JudgedHonest(o: Outcome, cancelled: bool)
    ensures Honest(Judged(o, cancelled))
  {
  }

  lemma WorkerStepHonest(e: Env, w: WorkerId, me: Worker, x: WorkerInput)
    requires RegistryOk(e.reg) && WorkerOk(e.reg, me) && WorkerHonest(e.reg, me)
    ensures var t := WorkerStep(e, w, me, x); WorkerHonest(t.env.reg, t.me)
  {
    hide RegistryOk, Keeps, Judged, Published, Released, LeaseClaimed, LeaseReleased, CancelSeen;
    WorkerRegistry(e, w, me, x);
    match me.pc {
      case WJudge(o) => JudgedHonest(o, x.cancelled || CancelSeen(e, me.run));
      case WCommit(_) =>
        KeepsSettled(e.reg, WorkerStep(e, w, me, x).env.reg, me.run);
      case WPublish(_) =>
        KeepsSettled(e.reg, WorkerStep(e, w, me, x).env.reg, me.run);
      case _ =>
    }
  }

  lemma StepOutcomes(cfg: Inventory, s: System, a: Action)
    requires OutcomeInv(s)
    ensures OutcomeInv(Step(cfg, s, a))
  {
    hide Core, Keeps, ReportsOk, ResultsSettled, FinisherOk, WorkerStep, WorkerHonest, ResultsHonest;
    var s' := Step(cfg, s, a);
    StepKeeps(cfg, s, a);
    StepResults(cfg, s, a);
    forall w | w in s.workers ensures WorkerHonest(s'.env.reg, s.workers[w]) {
      HonestStays(s.env.reg, s'.env.reg, s.workers[w]);
    }
    if a.Work? {
      if a.w in s.workers { WorkOutcomes(s, a.w, a.x); }
    } else {
      StepReports(cfg, s, a);
      ResultsStayHonest(s.env, s'.env);
      OthersHonest(cfg, s, a);
    }
  }

  lemma WorkOutcomes(s: System, w: WorkerId, x: WorkerInput)
    requires OutcomeInv(s) && w in s.workers
    ensures var t := WorkerStep(s.env, w, s.workers[w], x); ResultsHonest(t.env) && WorkerHonest(t.env.reg, t.me)
  {
    hide RegistryOk, Keeps, WorkerStep;
    var me := s.workers[w];
    WorkerStepHonest(s.env, w, me, x);
    WorkerReports(s.env, w, me, x);
    WorkerKeeps(s.env, w, me, x);
    var t := WorkerStep(s.env, w, me, x);
    if t.env.results == s.env.results { ResultsStayHonest(s.env, t.env); }
  }

  lemma OthersHonest(cfg: Inventory, s: System, a: Action)
    requires !a.Work? && forall w :: w in s.workers ==> WorkerHonest(Step(cfg, s, a).env.reg, s.workers[w])
    ensures var s' := Step(cfg, s, a); forall w :: w in s'.workers ==> WorkerHonest(s'.env.reg, s'.workers[w])
  {
    hide AdmitEnv, ReaperStep, AbortStep, RewriteParent, Reserved, Released;
  }

  lemma {:induction false} RunOutcomes(cfg: Inventory, s: System, actions: seq<Action>)
    requires OutcomeInv(s)
    ensures OutcomeInv(Run(cfg, s, actions))
    decreases |actions|
  {
    hide OutcomeInv, Step;
    if actions != [] {
      StepOutcomes(cfg, s, actions[0]);
      RunOutcomes(cfg, Step(cfg, s, actions[0]), actions[1..]);
    }
  }

  lemma InitialOutcomes()
    ensures OutcomeInv(INITIAL)
  {
    InitialResults();
  }

  /** In every reachable state a result that says succeeded has exit code zero, and a target recorded succeeded has
    * such a result. */
  lemma SuccessMeansZero(cfg: Inventory, actions: seq<Action>, id: RunId)
    ensures var e := Run(cfg, INITIAL, actions).env;
            && (id in e.results && e.results[id].state.Succeeded? ==> e.results[id].exitCode == 0)
            && (OnRecord(e.reg, id) && e.reg.records[id].state.Succeeded? ==>
                  id in e.results && e.results[id].state.Succeeded? && e.results[id].exitCode == 0)
  {
    hide Core, Step;
    InitialOutcomes();
    RunOutcomes(cfg, INITIAL, actions);
  }

  /** In every reachable state a succeeded build request has every target unavailable or succeeded with exit code
    * zero, and a failed one has no live target and one that failed, was lost or was aborted. */
  lemma GreenBuild(cfg: Inventory, actions: seq<Action>, p: RunId)
    requires var g := Run(cfg, INITIAL, actions).env.reg; IsParent(g, p)
    ensures var e := Run(cfg, INITIAL, actions).env;
            var kids := e.reg.records[p].children;
            && (e.reg.records[p].state.Succeeded? || e.reg.records[p].state.Failed? ==>
                  forall c :: c in kids ==> c in e.reg.records && IsTerminal(e.reg.records[c].state))
            && (e.reg.records[p].state.Succeeded? ==>
                  forall c :: c in kids && !e.reg.records[c].state.Unavailable? ==>
                    c in e.results && e.results[c].state.Succeeded? && e.results[c].exitCode == 0)
            && (e.reg.records[p].state.Failed? ==>
                  exists c :: c in kids && var st := e.reg.records[c].state; st.Failed? || st.Lost? || st.Aborted?)
  {
    hide Core, Step, Run, Aggregate;
    var e := Run(cfg, INITIAL, actions).env;
    var kids, state := e.reg.records[p].children, e.reg.records[p].state;
    if state.Succeeded? || state.Failed? {
      ParentSafety.RecordedVerdictIsTheAggregate(cfg, actions, p);
      var states := ParentSafety.States(e.reg, kids);
      AggregateMeans(states);
      forall c | c in kids && state.Succeeded? && !e.reg.records[c].state.Unavailable?
        ensures c in e.results && e.results[c].state.Succeeded? && e.results[c].exitCode == 0
      {
        var j :| 0 <= j < |kids| && kids[j] == c;
        assert states[j] in states;
        SuccessMeansZero(cfg, actions, c);
      }
      if state.Failed? {
        var st :| st in states && (st.Failed? || st.Lost? || st.Aborted?);
        var j :| 0 <= j < |kids| && states[j] == st;
        assert kids[j] in kids;
      }
    }
  }

  // ---------------------------------------------------------------- a worker left alone

  function Works(e: Env, w: WorkerId, me: Worker, x: WorkerInput, n: nat): Acted<Worker>
    decreases n
  {
    if n == 0 then Acted(e, me)
    else
      var t := WorkerStep(e, w, me, x);
      Works(t.env, w, t.me, x, n - 1)
  }

  lemma {:induction false} WorksAdd(e: Env, w: WorkerId, me: Worker, x: WorkerInput, m: nat, n: nat)
    ensures var t := Works(e, w, me, x, m); Works(e, w, me, x, m + n) == Works(t.env, w, t.me, x, n)
    decreases m
  {
    hide WorkerStep;
    if m > 0 {
      var t := WorkerStep(e, w, me, x);
      WorksAdd(t.env, w, t.me, x, m - 1, n);
    }
  }

  function Alone(w: WorkerId, x: WorkerInput, n: nat): seq<Action> { seq(n, _ => Work(w, x)) }

  lemma {:induction false} AloneWorks(cfg: Inventory, s: System, w: WorkerId, x: WorkerInput, n: nat)
    requires w in s.workers
    ensures var t := Works(s.env, w, s.workers[w], x, n);
            Run(cfg, s, Alone(w, x, n)) == s.(env := t.env, workers := s.workers[w := t.me])
    decreases n
  {
    hide WorkerStep;
    if n == 0 {
      assert s.workers[w := s.workers[w]] == s.workers;
    } else {
      var t := WorkerStep(s.env, w, s.workers[w], x);
      var s' := s.(env := t.env, workers := s.workers[w := t.me]);
      assert Alone(w, x, n)[1..] == Alone(w, x, n - 1);
      AloneWorks(cfg, s', w, x, n - 1);
      var me := Works(t.env, w, t.me, x, n - 1).me;
      assert s'.workers[w := me] == s.workers[w := me];
    }
  }

  /** What a run earns: aborted if it was cancelled, unavailable or failed by the error of its execution, else
    * succeeded with exit code zero and failed with any other. */
  predicate Earned(o: Outcome, cancelled: bool, v: RunState) {
    && (v.Aborted? <==> cancelled)
    && (v.Unavailable? <==> !cancelled && o.execError && o.unavailable)
    && (v.Succeeded? <==> !cancelled && !o.execError && o.exitCode == 0)
    && (v.Failed? <==> !cancelled && (if o.execError then !o.unavailable else o.exitCode != 0))
  }

  /** The run's record moved to `v` now. */
  function Moved(e: Env, id: RunId, v: RunState): Env
    requires id in e.reg.records
  {
    e.(reg := e.reg.(records := e.reg.records[id := e.reg.records[id].(state := v, updatedAt := e.reg.clock)]))
  }

  /** The lease is gone if it was the worker's, and the run's slot is free. */
  function LeftBy(e: Env, w: WorkerId, id: RunId): Env {
    e.(leases := if id in e.leases && e.leases[id].owner == w then e.leases - {id} else e.leases,
       claims := e.claims - {SlotOf(e, id)})
  }

  /** From the end of the command: verdict, commit, result, record, lease and slot. */
  lemma Finishes(e: Env, w: WorkerId, me: Worker, x: WorkerInput) returns (v: RunState)
    requires me.pc.WExec? && !me.lost && x.ok && !Locked(e)
    requires me.run in e.reg.records && e.reg.records[me.run].state.Running? && me.run !in e.results
    ensures Earned(x.outcome, x.cancelled || e.reg.records[me.run].cancelAt.Some?, v)
    ensures var id, now := me.run, e.reg.clock;
            var done := Moved(e, id, v).(results := e.results[id := BuildResult(v, x.outcome.exitCode)]);
            Works(e, w, me, x, 7) == Acted(LeftBy(done, w, id), me.(pc := WDone, endedAt := now))
  {
    var id, now, r := me.run, e.reg.clock, e.reg.records[me.run];
    var res := Judged(x.outcome, x.cancelled || CancelSeen(e, id));
    v := res.state;
    var e1 := Moved(e, id, Committing);
    var e2 := e1.(results := e.results[id := res]);
    var e3 := Moved(e, id, v).(results := e.results[id := res]);
    assert WorkerStep(e, w, me, x) == Acted(e, me.(pc := WJudge(x.outcome)));
    assert WorkerStep(e, w, me.(pc := WJudge(x.outcome)), x) == Acted(e, me.(pc := WCommit(res)));
    assert WorkerStep(e, w, me.(pc := WCommit(res)), x) == Acted(e1, me.(pc := WPublish(res)));
    assert WorkerStep(e1, w, me.(pc := WPublish(res)), x) == Acted(e2, me.(pc := WFinish(res)));
    assert e1.reg.records[id := r.(state := v, updatedAt := now)] == e3.reg.records;
    assert WorkerStep(e2, w, me.(pc := WFinish(res)), x) == Acted(e3, me.(pc := WReleaseLease));
    Leaves(e3, w, me.(pc := WReleaseLease), x);
    hide WorkerStep, Judged, LeftBy;
    Chain(e, w, me, x, me.(pc := WJudge(x.outcome)), e, 6);
    Chain(e, w, me.(pc := WJudge(x.outcome)), x, me.(pc := WCommit(res)), e, 5);
    Chain(e, w, me.(pc := WCommit(res)), x, me.(pc := WPublish(res)), e1, 4);
    Chain(e1, w, me.(pc := WPublish(res)), x, me.(pc := WFinish(res)), e2, 3);
    Chain(e2, w, me.(pc := WFinish(res)), x, me.(pc := WReleaseLease), e3, 2);
  }

  lemma Chain(e: Env, w: WorkerId, me: Worker, x: WorkerInput, me': Worker, e': Env, n: nat)
    requires WorkerStep(e, w, me, x) == Acted(e', me')
    ensures Works(e, w, me, x, n + 1) == Works(e', w, me', x, n)
  {
  }

  /** On the way out a worker gives up its lease, if it still is its own, and the run's slot. */
  lemma Leaves(e: Env, w: WorkerId, me: Worker, x: WorkerInput)
    requires me.pc.WReleaseLease? && !Locked(e)
    ensures Works(e, w, me, x, 2) == Acted(LeftBy(e, w, me.run), me.(pc := WDone, endedAt := e.reg.clock))
  {
    var t := WorkerStep(e, w, me, x);
    var u := WorkerStep(t.env, w, t.me, x);
    assert Works(e, w, me, x, 2) == Works(t.env, w, t.me, x, 1) == Works(u.env, w, u.me, x, 0);
  }

  /** A worker whose lease renewal failed records nothing and leaves. */
  lemma LostLeaves(e: Env, w: WorkerId, me: Worker, x: WorkerInput)
    requires me.pc.WExec? && me.lost && !Locked(e)
    ensures Works(e, w, me, x, 3) == Acted(LeftBy(e, w, me.run), me.(pc := WDone, endedAt := e.reg.clock))
  {
    Leaves(e, w, me.(pc := WReleaseLease), x);
    Chain(e, w, me, x, me.(pc := WReleaseLease), e, 2);
  }

  /** Before the command a run ends as aborted or lost, without a result, and the worker leaves. */
  lemma EndsEarly(e: Env, w: WorkerId, me: Worker, x: WorkerInput, v: RunState)
    requires me.pc == (if v.Aborted? then WAbortOut else WLostOut) && (v.Aborted? || v.Lost?) && !Locked(e)
    requires me.run in e.reg.records && e.reg.records[me.run].state.Staging?
    ensures Works(e, w, me, x, 3) ==
              Acted(LeftBy(Moved(e, me.run, v), w, me.run), me.(pc := WDone, endedAt := e.reg.clock))
  {
    var done, leaving := Moved(e, me.run, v), me.(pc := WReleaseLease);
    Leaves(done, w, leaving, x);
    assert WorkerStep(e, w, me, x) == Acted(done, leaving);
    hide *;
    Chain(e, w, me, x, leaving, done, 2);
  }

  /** A worker that finds its run cancelled before the command ends it as aborted, without a result, and leaves. */
  lemma StopsBeforeStart(e: Env, w: WorkerId, me: Worker, x: WorkerInput)
    requires (me.pc.WPreCancel? || me.pc.WPostCancel?) && !Locked(e)
    requires me.run in e.reg.records && e.reg.records[me.run].state.Staging? && e.reg.records[me.run].cancelAt.Some?
    ensures var id, now := me.run, e.reg.clock;
            Works(e, w, me, x, 4) == Acted(LeftBy(Moved(e, id, Aborted), w, id), me.(pc := WDone, endedAt := now))
  {
    Chain(e, w, me, x, me.(pc := WAbortOut), e, 3);
    hide Works, WorkerStep;
    EndsEarly(e, w, me.(pc := WAbortOut), x, Aborted);
  }

  /** A work directory that cannot be filled ends the run as lost, or as aborted when it was cancelled meanwhile and
    * the failure was not the final rename. */
  lemma FailsToPopulate(e: Env, w: WorkerId, me: Worker, x: WorkerInput)
    requires me.pc.WPopulate? && !x.ok && !Locked(e)
    requires me.run in e.reg.records && e.reg.records[me.run].state.Staging?
    ensures var id, now, n := me.run, e.reg.clock, if x.renameFailed then 4 else 5;
            var v := if e.reg.records[id].cancelAt.Some? && !x.renameFailed then Aborted else Lost;
            Works(e, w, me, x, n) == Acted(LeftBy(Moved(e, id, v), w, id), me.(pc := WDone, endedAt := now))
  {
    var v := if e.reg.records[me.run].cancelAt.Some? && !x.renameFailed then Aborted else Lost;
    var failed, out := me.(pc := WPopulateFailed), me.(pc := if v.Aborted? then WAbortOut else WLostOut);
    assert WorkerStep(e, w, me, x) == Acted(e, if x.renameFailed then out else failed);
    assert !x.renameFailed ==> WorkerStep(e, w, failed, x) == Acted(e, out);
    hide Works, WorkerStep, LeftBy, Moved;
    EndsEarly(e, w, out, x, v);
    if x.renameFailed {
      Chain(e, w, me, x, out, e, 3);
    } else {
      Chain(e, w, me, x, failed, e, 4);
      Chain(e, w, failed, x, out, e, 3);
    }
  }

  /** A new worker touches nothing when its run is gone, aborted, holds no slot or has got beyond staging. */
  lemma TurnedAway(e: Env, w: WorkerId, me: Worker, x: WorkerInput)
    requires me.pc.WLoad? && !Locked(e)
    requires me.run in e.reg.records && e.reg.records[me.run].parent.Some? ==>
               || SlotOf(e, me.run) !in e.claims
               || !(e.reg.records[me.run].state.Queued? || e.reg.records[me.run].state.Staging?)
    ensures Works(e, w, me, x, 2) == Acted(e, me.(pc := WDone))
  {
    var t := WorkerStep(e, w, me, x);
    Chain(e, w, me, x, t.me, t.env, 1);
    Chain(t.env, w, t.me, x, me.(pc := WDone), e, 0);
  }

  /** A worker that finds its staging run under another worker's unexpired lease leaves the record and that lease, and
    * frees the slot. */
  lemma FindsItLeased(e: Env, w: WorkerId, me: Worker, x: WorkerInput)
    requires me.pc.WLoad? && !Locked(e)
    requires me.run in e.reg.records && IsTarget(e.reg.records[me.run]) && e.reg.records[me.run].state.Staging?
    requires SlotOf(e, me.run) in e.claims && me.run in e.leases && e.leases[me.run].expiresAt > e.reg.clock
    ensures Works(e, w, me, x, 4) == Acted(e.(claims := e.claims - {SlotOf(e, me.run)}), me.(pc := WDone))
  {
    Chain(e, w, me, x, me.(pc := WSlot(Staging)), e, 3);
    Chain(e, w, me.(pc := WSlot(Staging)), x, me.(pc := WClaim), e, 2);
    Chain(e, w, me.(pc := WClaim), x, me.(pc := WReleaseSlot), e, 1);
    Chain(e, w, me.(pc := WReleaseSlot), x, me.(pc := WDone), e.(claims := e.claims - {SlotOf(e, me.run)}), 0);
  }

  /** A reserved, queued target that nobody has cancelled or leased. */
  predicate Ready(e: Env, id: RunId) {
    && id in e.reg.records && IsTarget(e.reg.records[id]) && e.reg.records[id].state.Queued?
    && e.reg.records[id].cancelAt.None? && SlotOf(e, id) in e.claims
    && (id in e.leases ==> e.leases[id].expiresAt <= e.reg.clock)
  }

  /** The run is running under the worker's fresh lease of thirty minutes. */
  function StartedEnv(e: Env, w: WorkerId, id: RunId): Env
    requires id in e.reg.records
  {
    Moved(e, id, Running).(leases := e.leases[id := Lease(w, e.reg.clock + 1800)])
  }

  lemma MovedTwice(e: Env, w: WorkerId, id: RunId)
    requires id in e.reg.records
    ensures var leased := Moved(e, id, Staging).(leases := e.leases[id := Lease(w, e.reg.clock + 1800)]);
            Moved(leased, id, Running) == StartedEnv(e, w, id)
  {
    var r := e.reg.records;
    assert r[id := r[id].(state := Staging, updatedAt := e.reg.clock)][
      id := r[id].(state := Running, updatedAt := e.reg.clock)] ==
        r[id := r[id].(state := Running, updatedAt := e.reg.clock)];
  }

  /** From the load to the start of the command. */
  lemma Starts(e: Env, w: WorkerId, me: Worker, x: WorkerInput)
    requires me.pc.WLoad? && x.ok && !Locked(e) && Ready(e, me.run)
    ensures Works(e, w, me, x, 9) ==
              Acted(StartedEnv(e, w, me.run), me.(pc := WExec, started := true, leaseUntil := e.reg.clock + 1800))
  {
    var id, now := me.run, e.reg.clock;
    var leased := Moved(e, id, Staging).(leases := e.leases[id := Lease(w, now + 1800)]);
    var held := me.(pc := WRecheck, leaseUntil := now + 1800);
    Promotes(e, w, me, x);
    assert leased.reg.records[id].state.Staging? && leased.reg.records[id].cancelAt.None?;
    assert Moved(leased, id, Running) == StartedEnv(e, w, id) by { MovedTwice(e, w, id); }
    hide *;
    StartsHeld(leased, w, held, x);
    WorksAdd(e, w, me, x, 4, 5);
  }

  /** From the load to the lease. */
  lemma Promotes(e: Env, w: WorkerId, me: Worker, x: WorkerInput)
    requires me.pc.WLoad? && !Locked(e) && Ready(e, me.run)
    ensures var id, until := me.run, e.reg.clock + 1800;
            Works(e, w, me, x, 4) ==
              Acted(Moved(e, id, Staging).(leases := e.leases[id := Lease(w, until)]),
                    me.(pc := WRecheck, leaseUntil := until))
  {
    var id, now := me.run, e.reg.clock;
    var staged := Moved(e, id, Staging);
    var leased, held := staged.(leases := e.leases[id := Lease(w, now + 1800)]), me.(leaseUntil := now + 1800);
    Chain(e, w, me, x, me.(pc := WSlot(Queued)), e, 3);
    Chain(e, w, me.(pc := WSlot(Queued)), x, me.(pc := WPromote), e, 2);
    Chain(e, w, me.(pc := WPromote), x, me.(pc := WClaim), staged, 1);
    Chain(staged, w, me.(pc := WClaim), x, held.(pc := WRecheck), leased, 0);
  }

  lemma StartsHeld(e: Env, w: WorkerId, me: Worker, x: WorkerInput)
    requires me.pc.WRecheck? && x.ok && me.run in e.reg.records
    requires e.reg.records[me.run].state.Staging? && e.reg.records[me.run].cancelAt.None?
    ensures Works(e, w, me, x, 5) == Acted(Moved(e, me.run, Running), me.(pc := WExec, started := true))
  {
    Chain(e, w, me, x, me.(pc := WPreCancel), e, 4);
    Chain(e, w, me.(pc := WPreCancel), x, me.(pc := WPopulate), e, 3);
    Chain(e, w, me.(pc := WPopulate), x, me.(pc := WPostCancel), e, 2);
    Chain(e, w, me.(pc := WPostCancel), x, me.(pc := WStart), e, 1);
    Chain(e, w, me.(pc := WStart), x, me.(pc := WExec, started := true), Moved(e, me.run, Running), 0);
  }

  /** The record, the result, the lease and the slot of `id` once worker `w` has finished it with `v`. */
  ghost predicate FinishedWith(e: Env, e': Env, w: WorkerId, id: RunId, v: RunState, exitCode: int)
    requires id in e.reg.records
  {
    && e'.reg == Moved(e, id, v).reg
    && e'.results == e.results[id := BuildResult(v, exitCode)]
    && (id in e'.leases ==> e'.leases[id].owner != w) && e'.leases - {id} == e.leases - {id}
    && SlotOf(e, id) !in e'.claims && e'.claims == e.claims - {SlotOf(e, id)}
  }

  /** Finishing a run just started leaves what finishing it from before the start would. */
  lemma FinishedFromStart(e: Env, w: WorkerId, id: RunId, v: RunState, exitCode: int)
    requires id in e.reg.records
    ensures var started := StartedEnv(e, w, id);
            var done := Moved(started, id, v).(results := e.results[id := BuildResult(v, exitCode)]);
            FinishedWith(e, LeftBy(done, w, id), w, id, v, exitCode)
  {
    assert Moved(StartedEnv(e, w, id), id, v).reg == Moved(e, id, v).reg;
  }

  /** In every reachable state a worker whose command has ended, on a run recorded as running, left alone records
    * exactly what the command earned, publishes it, and gives up lease and slot. */
  lemma WorkerFinishes(cfg: Inventory, before: seq<Action>, w: WorkerId, x: WorkerInput) returns (v: RunState)
    requires var s := Run(cfg, INITIAL, before);
             && w in s.workers && s.workers[w].pc.WExec? && !s.workers[w].lost && x.ok && !Locked(s.env)
             && s.workers[w].run in s.env.reg.records && s.env.reg.records[s.workers[w].run].state.Running?
    ensures var s := Run(cfg, INITIAL, before);
            var s', id := Run(cfg, s, Alone(w, x, 7)), s.workers[w].run;
            && Earned(x.outcome, x.cancelled || s.env.reg.records[id].cancelAt.Some?, v)
            && w in s'.workers && s'.workers[w].pc.WDone?
            && FinishedWith(s.env, s'.env, w, id, v, x.outcome.exitCode)
  {
    hide Core, Step, Earned;
    InitialOutcomes();
    RunOutcomes(cfg, INITIAL, before);
    var s := Run(cfg, INITIAL, before);
    v := Finishes(s.env, w, s.workers[w], x);
    AloneWorks(cfg, s, w, x, 7);
  }

  /** In every reachable state a new worker on a reserved target that nobody has cancelled or leased, left alone,
    * takes it through the command to exactly what the command earned. */
  lemma WorkerRunsThrough(cfg: Inventory, before: seq<Action>, w: WorkerId, x: WorkerInput) returns (v: RunState)
    requires var s := Run(cfg, INITIAL, before);
             && w in s.workers && s.workers[w].pc.WLoad? && !s.workers[w].lost && x.ok && !Locked(s.env)
             && Ready(s.env, s.workers[w].run)
    ensures var s := Run(cfg, INITIAL, before);
            var started, s', id := Run(cfg, s, Alone(w, x, 9)), Run(cfg, s, Alone(w, x, 16)), s.workers[w].run;
            && started.env == StartedEnv(s.env, w, id) && w in started.workers && started.workers[w].pc.WExec?
            && Earned(x.outcome, x.cancelled, v)
            && w in s'.workers && s'.workers[w].pc.WDone?
            && FinishedWith(s.env, s'.env, w, id, v, x.outcome.exitCode)
  {
    hide Core, Step, Earned;
    InitialOutcomes();
    RunOutcomes(cfg, INITIAL, before);
    var s := Run(cfg, INITIAL, before);
    v := RunsThrough(s.env, w, s.workers[w], x);
    hide Works, FinishedWith, Ready, StartedEnv;
    AloneWorks(cfg, s, w, x, 9);
    AloneWorks(cfg, s, w, x, 16);
  }

  lemma RunsThrough(e: Env, w: WorkerId, me: Worker, x: WorkerInput) returns (v: RunState)
    requires me.pc.WLoad? && !me.lost && x.ok && !Locked(e) && Ready(e, me.run) && me.run !in e.results
    ensures Earned(x.outcome, x.cancelled, v)
    ensures var started, done := Works(e, w, me, x, 9), Works(e, w, me, x, 16);
            && started.env == StartedEnv(e, w, me.run) && started.me.pc.WExec?
            && done.me.pc.WDone? && FinishedWith(e, done.env, w, me.run, v, x.outcome.exitCode)
  {
    var id, started := me.run, StartedEnv(e, w, me.run);
    var running := me.(pc := WExec, started := true, leaseUntil := e.reg.clock + 1800);
    Starts(e, w, me, x);
    assert started.reg.records[id].state.Running? && started.reg.records[id].cancelAt.None?;
    hide *;
    v := Finishes(started, w, running, x);
    WorksAdd(e, w, me, x, 9, 7);
    FinishedFromStart(e, w, id, v, x.outcome.exitCode);
  }
}
