/** Abort: once it is done, every target is finished or will be, and no late success slips through. */
module AbortSafety {
  import opened RunModel
  import opened Records
  import opened StateDirectory
  import opened Chooser
  import opened Scheduler
  import opened Protocol
  import opened ProtocolCore
  import opened ResultSafety

  ghost predicate StoppedRun(g: Registry, id: RunId) { Settled(g, id) && Stopped(g.records[id]) }

  // ---------------------------------------------------------------- invariant

  ghost predicate KidsMatch(kids: seq<Kid>, ids: seq<RunId>) {
    |kids| == |ids| && forall j :: 0 <= j < |ids| ==> kids[j].id == ids[j] && !kids[j].loaded.Aggregating?
  }

  ghost predicate FirstStopped(g: Registry, kids: seq<Kid>, n: nat) {
    forall j :: 0 <= j < n && j < |kids| ==> StoppedRun(g, kids[j].id)
  }

  ghost predicate AllStopped(g: Registry, p: RunId) {
    IsParent(g, p) && forall c :: c in g.records[p].children ==> StoppedRun(g, c)
  }

  ghost predicate ProgressOk(g: Registry, pc: AbortPc) {
    match pc
    case BList(p, i, kids) =>
      IsParent(g, p) && i <= |g.records[p].children| && KidsMatch(kids, g.records[p].children[..i])
    case BEach(p, kids, i) => IsParent(g, p) && KidsMatch(kids, g.records[p].children) && FirstStopped(g, kids, i)
    case BDrop(p, kids, i) => IsParent(g, p) && KidsMatch(kids, g.records[p].children) && FirstStopped(g, kids, i + 1)
    case BParent(p) => AllStopped(g, p)
    case BDone(p) => AllStopped(g, p)
    case _ => true
  }

  ghost predicate AbortInv(s: System) {
    ResultInv(s) && forall b :: b in s.aborts ==> ProgressOk(s.env.reg, s.aborts[b])
  }

  // ---------------------------------------------------------------- preservation

  lemma ProgressStays(g: Registry, g': Registry, pc: AbortPc)
    requires Endures(g, g') && ProgressOk(g, pc)
    ensures ProgressOk(g', pc)
  {
  }

  /** Whatever the target became since it was loaded, cancelling it leaves it stopped. */
  lemma CancellingStops(e: Env, k: Kid)
    requires RegistryOk(e.reg) && AtLeast(e.reg, k.id, Rank(k.loaded)) && !k.loaded.Aggregating?
    ensures StoppedRun(Save(e, AbortSingle(e, k.id, k.loaded)).reg, k.id)
  {
  }

  lemma EachProgress(e: Env, p: RunId, kids: seq<Kid>, i: nat)
    requires RegistryOk(e.reg) && AbortOk(e.reg, BEach(p, kids, i)) && ProgressOk(e.reg, BEach(p, kids, i))
    ensures var t := AbortStep(e, BEach(p, kids, i)); ProgressOk(t.env.reg, t.me)
  {
    hide RegistryOk, Endures, AbortSingle;
    var t := AbortStep(e, BEach(p, kids, i));
    AbortKeeps(e, BEach(p, kids, i));
    ProgressStays(e.reg, t.env.reg, BEach(p, kids, i));
    if i < |kids| {
      CancellingStops(e, kids[i]);
      StopsNext(t.env.reg, kids, i);
    } else {
      AllKidsStopped(e.reg, p, kids);
    }
  }

  lemma StopsNext(g: Registry, kids: seq<Kid>, i: nat)
    requires i < |kids| && FirstStopped(g, kids, i) && StoppedRun(g, kids[i].id)
    ensures FirstStopped(g, kids, i + 1)
  {
  }

  lemma AllKidsStopped(g: Registry, p: RunId, kids: seq<Kid>)
    requires IsParent(g, p) && KidsMatch(kids, g.records[p].children) && FirstStopped(g, kids, |kids|)
    ensures AllStopped(g, p)
  {
  }

  lemma ListProgress(e: Env, p: RunId, i: nat, kids: seq<Kid>)
    requires RegistryOk(e.reg) && ProgressOk(e.reg, BList(p, i, kids))
    ensures var t := AbortStep(e, BList(p, i, kids)); t.env == e && ProgressOk(e.reg, t.me)
  {
    hide RegistryOk, StoppedRun;
    RecordIn(e.reg, p);
    var ids := e.reg.records[p].children;
    if i < |ids| {
      assert ids[i] in ids;
      RecordIn(e.reg, ids[i]);
      assert ids[..i+1] == ids[..i] + [ids[i]];
    } else {
      assert ids[..i] == ids;
    }
  }

  lemma AbortProgress(e: Env, pc: AbortPc)
    requires RegistryOk(e.reg) && AbortOk(e.reg, pc) && ProgressOk(e.reg, pc)
    ensures var t := AbortStep(e, pc); ProgressOk(t.env.reg, t.me)
  {
    hide RegistryOk, Keeps, Endures, AbortSingle, Transitioned, StoppedRun, Released;
    var t := AbortStep(e, pc);
    match pc {
      case BLoad(id) => if id in e.reg.records { RecordIn(e.reg, id); }
      case BUp(_, p, _) => if p in e.reg.records { RecordIn(e.reg, p); }
      case BList(p, i, kids) => ListProgress(e, p, i, kids);
      case BEach(p, kids, i) => EachProgress(e, p, kids, i);
      case BParent(p) =>
        AbortKeeps(e, pc);
        KeepsEndures(e.reg, t.env.reg);
        ProgressStays(e.reg, t.env.reg, BDone(p));
      case _ =>
    }
  }

  lemma KeepsEndures(g: Registry, g': Registry)
    requires Keeps(g, g')
    ensures Endures(g, g')
  {
  }

  lemma StepAborts(cfg: Inventory, s: System, a: Action)
    requires AbortInv(s)
    ensures AbortInv(Step(cfg, s, a))
  {
    hide Core, Endures, ReportsOk, ResultsSettled, FinisherOk, ProgressOk, AbortStep, WorkerStep, ReaperStep;
    hide RenewStep, AdmitEnv, RewriteParent, Reserved;
    var s' := Step(cfg, s, a);
    StepResults(cfg, s, a);
    StepKeeps(cfg, s, a);
    forall b | b in s.aborts ensures ProgressOk(s'.env.reg, s.aborts[b]) {
      ProgressStays(s.env.reg, s'.env.reg, s.aborts[b]);
    }
    if a.StepAbort? && a.b in s.aborts {
      AbortIn(s, a.b);
      AbortProgress(s.env, s.aborts[a.b]);
    }
    if a.StartAbort? { Begun(s'.env.reg, a.id); }
  }

  lemma AbortIn(s: System, b: nat)
    requires Core(s) && b in s.aborts
    ensures RegistryOk(s.env.reg) && AbortOk(s.env.reg, s.aborts[b])
  {
  }

  lemma Begun(g: Registry, id: RunId)
    ensures ProgressOk(g, BLoad(id))
  {
  }

  lemma {:induction false} RunAborts(cfg: Inventory, s: System, actions: seq<Action>)
    requires AbortInv(s)
    ensures AbortInv(Run(cfg, s, actions))
    decreases |actions|
  {
    hide AbortInv, Step;
    if actions != [] {
      StepAborts(cfg, s, actions[0]);
      RunAborts(cfg, Step(cfg, s, actions[0]), actions[1..]);
    }
  }

  // ---------------------------------------------------------------- no late outcome

  predicate Judging(pc: WorkerPc) { pc.WCommit? || pc.WPublish? || pc.WFinish? }

  /** Every worker of the run that has made up its mind reports an abort. */
  ghost predicate JudgedAborted(s: System, id: RunId) {
    forall w :: w in s.workers && s.workers[w].run == id && Judging(s.workers[w].pc) ==>
      s.workers[w].pc.res.state.Aborted?
  }

  /** The run has no outcome and can no longer get one. */
  ghost predicate Doomed(s: System, id: RunId) {
    && Settled(s.env.reg, id) && !Reported(s.env.reg.records[id].state)
    && (IsTerminal(s.env.reg.records[id].state) || (s.env.reg.records[id].cancelAt.Some? && JudgedAborted(s, id)))
  }

  /** A worker that judges after the request was made judges aborted. */
  lemma WorkerJudges(e: Env, w: WorkerId, me: Worker, x: WorkerInput)
    ensures var t := WorkerStep(e, w, me, x);
            && t.me.run == me.run
            && (Judging(t.me.pc) ==>
                  || (Judging(me.pc) && t.me.pc.res == me.pc.res)
                  || (me.pc.WJudge? && (CancelSeen(e, me.run) ==> t.me.pc.res.state.Aborted?)))
  {
    hide Transitioned, CancelSeen, Published, Released, LeaseClaimed, LeaseReleased;
    match me.pc {
      case WExec =>
      case WJudge(_) =>
      case WCommit(_) =>
      case WPublish(_) =>
      case WFinish(_) =>
      case _ =>
    }
  }

  lemma DoomedByWorker(s: System, w: WorkerId, x: WorkerInput, id: RunId)
    requires Core(s) && Doomed(s, id) && w in s.workers
    ensures Doomed(AfterWorker(s, w, WorkerStep(s.env, w, s.workers[w], x)), id)
  {
    hide Core, WorkerStep;
    var e, me := s.env, s.workers[w];
    var t := WorkerStep(e, w, me, x);
    WorkerIn(s, w);
    WorkerKeeps(e, w, me, x);
    WorkerJudges(e, w, me, x);
    WorkerRecords(e, w, me, x);
  }

  lemma WorkerIn(s: System, w: WorkerId)
    requires Core(s) && w in s.workers
    ensures RegistryOk(s.env.reg) && WorkerOk(s.env.reg, s.workers[w])
  {
  }

  lemma DoomedStep(cfg: Inventory, s: System, a: Action, id: RunId)
    requires ResultInv(s) && Doomed(s, id)
    ensures Doomed(Step(cfg, s, a), id)
  {
    hide Core, Endures, ReportsOk, ResultsSettled, FinisherOk;
    if a.Work? {
      if a.w in s.workers { DoomedByWorker(s, a.w, a.x, id); }
    } else {
      StepKeeps(cfg, s, a);
      StepReports(cfg, s, a);
      KeepsSettled(s.env.reg, Step(cfg, s, a).env.reg, id);
      OthersJudge(cfg, s, a, id);
    }
  }

  lemma OthersJudge(cfg: Inventory, s: System, a: Action, id: RunId)
    requires !a.Work?
    ensures JudgedAborted(s, id) ==> JudgedAborted(Step(cfg, s, a), id)
  {
  }

  lemma {:induction false} DoomedForever(cfg: Inventory, s: System, actions: seq<Action>, id: RunId)
    requires ResultInv(s) && Doomed(s, id)
    ensures Doomed(Run(cfg, s, actions), id)
    decreases |actions|
  {
    hide ResultInv, Doomed, Step;
    if actions != [] {
      StepResults(cfg, s, actions[0]);
      DoomedStep(cfg, s, actions[0], id);
      DoomedForever(cfg, Step(cfg, s, actions[0]), actions[1..], id);
    }
  }

  // ---------------------------------------------------------------- theorem

  /** After a build's abort completes, every target is and stays terminal or under a cancellation request;
    * and a target without an outcome, none of whose workers had already judged otherwise, never gets one. */
  lemma AbortIsFinal(cfg: Inventory, before: seq<Action>, after: seq<Action>, b: nat, c: RunId)
    requires var s := Run(cfg, INITIAL, before);
             b in s.aborts && s.aborts[b].BDone? && s.aborts[b].p in s.env.reg.records
             && c in s.env.reg.records[s.aborts[b].p].children
    ensures var s, s' := Run(cfg, INITIAL, before), Run(cfg, Run(cfg, INITIAL, before), after);
            && StoppedRun(s.env.reg, c) && StoppedRun(s'.env.reg, c)
            && (!Reported(s.env.reg.records[c].state) && JudgedAborted(s, c) ==> !Reported(s'.env.reg.records[c].state))
  {
    hide Step, Core, ReportsOk, ResultsSettled, FinisherOk;
    InitialResults();
    RunAborts(cfg, INITIAL, before);
    var s := Run(cfg, INITIAL, before);
    RunKeeps(cfg, s, after);
    if !Reported(s.env.reg.records[c].state) && JudgedAborted(s, c) {
      DoomedForever(cfg, s, after, c);
    }
  }

  /** The abort driver never loses its build: when it is done, the request it aborted is on record. */
  lemma AbortKnowsItsBuild(cfg: Inventory, actions: seq<Action>, b: nat)
    requires var s := Run(cfg, INITIAL, actions); b in s.aborts && s.aborts[b].BDone?
    ensures var s := Run(cfg, INITIAL, actions); AllStopped(s.env.reg, s.aborts[b].p)
  {
    hide Step, Core, ReportsOk, ResultsSettled, FinisherOk;
    InitialResults();
    RunAborts(cfg, INITIAL, actions);
  }
}
