/** One build at a time: the busy scan is not a snapshot, yet two builds are never live together. */
module LiveBuild {
  import opened RunModel
  import opened Records
  import opened StateDirectory
  import opened Chooser
  import opened Scheduler
  import opened Protocol
  import opened ProtocolCore

  predicate LiveIn(g: Registry, id: RunId) { id in g.records && Live(g.records[id]) }

  /** All live targets belong to one build. */
  ghost predicate OneBuild(g: Registry) {
    forall a, b :: LiveIn(g, a) && LiveIn(g, b) ==> g.records[a].parent == g.records[b].parent
  }

  /** What the admission in progress knows: the live targets it has not looked at yet, or none but its own. */
  ghost predicate ScanOk(g: Registry) {
    match g.admission
    case None => true
    case Some(Scanning(_, remaining)) => forall id :: LiveIn(g, id) ==> id in remaining
    case Some(Creating(_, pid, created)) =>
      && (forall id :: LiveIn(g, id) ==> g.records[id].parent == Some(pid))
      && (forall id :: id in g.records && g.records[id].parent == Some(pid) ==> id in created)
    case Some(RollingBack(pid, _)) => forall id :: LiveIn(g, id) ==> g.records[id].parent == Some(pid)
  }

  predicate Siblings(r: RunRecord, q: RunRecord) { IsTarget(r) && q.parent == r.parent && q.machine == r.machine }

  /** The targets of one build are on different machines. */
  ghost predicate SpreadOk(g: Registry) {
    forall a, b :: a in g.records && b in g.records && Siblings(g.records[a], g.records[b]) ==> a == b
  }

  ghost predicate LiveOk(g: Registry) { OneBuild(g) && ScanOk(g) && SpreadOk(g) }

  // ---------------------------------------------------------------- steps outside admission

  lemma LiveStays(g: Registry, g': Registry)
    requires LiveOk(g) && Keeps(g, g') && g'.records.Keys == g.records.Keys && g'.admission == g.admission
    ensures LiveOk(g')
  {
  }

  ghost predicate SameRuns(g: Registry, g': Registry) {
    g'.records.Keys == g.records.Keys && g'.admission == g.admission
  }

  lemma TransitionSameRuns(e: Env, id: RunId, to: RunState, now: Time)
    ensures SameRuns(e.reg, Save(e, Transitioned(e.reg.records, id, to, now)).reg)
  {
  }

  lemma WorkerSameRuns(e: Env, w: WorkerId, me: Worker, x: WorkerInput)
    ensures SameRuns(e.reg, WorkerStep(e, w, me, x).env.reg)
  {
    hide Transitioned, Judged, CancelSeen, Published, Released, LeaseClaimed, LeaseReleased;
    var clock := e.reg.clock;
    match me.pc {
      case WPromote => TransitionSameRuns(e, me.run, Staging, clock);
      case WStart => TransitionSameRuns(e, me.run, Running, clock);
      case WCommit(_) => TransitionSameRuns(e, me.run, Committing, clock);
      case WFinish(res) => TransitionSameRuns(e, me.run, res.state, clock);
      case WAbortOut => TransitionSameRuns(e, me.run, Aborted, clock);
      case WLostOut => TransitionSameRuns(e, me.run, Lost, clock);
      case _ =>
    }
  }

  lemma ReaperSameRuns(e: Env, me: Reaper, choice: ReaperInput)
    ensures SameRuns(e.reg, ReaperStep(e, me, choice).env.reg)
  {
  }

  lemma AbortSameRuns(e: Env, pc: AbortPc)
    ensures SameRuns(e.reg, AbortStep(e, pc).env.reg)
  {
  }

  lemma StepSameRuns(cfg: Inventory, s: System, a: Action)
    requires Core(s) && !a.Admit?
    ensures SameRuns(s.env.reg, Step(cfg, s, a).env.reg)
  {
    hide RegistryOk, WorkerStep, ReaperStep, AbortStep, Reserved, Released, RewriteParent;
    match a {
      case Rewrite(p, path) => RewriteSameRuns(s.env.reg, p, path);
      case Work(w, x) => if w in s.workers { WorkerSameRuns(s.env, w, s.workers[w], x); }
      case Reap(r, choice) => if r in s.reapers { ReaperSameRuns(s.env, s.reapers[r], choice); }
      case StepAbort(b) => if b in s.aborts { AbortSameRuns(s.env, s.aborts[b]); }
      case _ =>
    }
  }

  lemma RewriteSameRuns(g: Registry, p: RunId, path: string)
    requires RegistryOk(g)
    ensures SameRuns(g, RewriteParent(g, p, path))
  {
  }

  // ---------------------------------------------------------------- admission

  lemma ChildLive(g: Registry, machines: seq<string>, pid: RunId, created: seq<RunId>, cid: RunId, path: string)
    requires RegistryOk(g) && LiveOk(g) && g.admission == Some(Creating(machines, pid, created))
    requires cid !in g.minted && |created| < |machines|
    ensures LiveOk(CreateChild(g, machines, pid, created, cid, path))
  {
    hide RecordsOk, PendingOk;
    var g' := CreateChild(g, machines, pid, created, cid, path);
    MintedRecords(g);
    forall a | a in g.records && g.records[a].parent == Some(pid) ensures g.records[a].machine != machines[|created|] {
      var i :| 0 <= i < |created| && created[i] == a;
      assert g.records[created[i]].machine == machines[i];
    }
  }

  lemma UndoLive(g: Registry, pid: RunId, created: seq<RunId>)
    requires LiveOk(g) && g.admission == Some(RollingBack(pid, created))
    ensures LiveOk(AdmitStep(g, AUndo))
  {
  }

  lemma ParentLive(g: Registry, machines: seq<string>, pid: RunId, created: seq<RunId>, path: string, submission: bool)
    requires RegistryOk(g) && LiveOk(g) && g.admission == Some(Creating(machines, pid, created))
    requires |created| == |machines|
    ensures LiveOk(SaveParent(g, pid, created, path, submission))
  {
  }

  lemma BeginLive(g: Registry, machines: seq<string>, pid: RunId)
    requires RegistryOk(g) && LiveOk(g) && g.admission == Some(Scanning(machines, {})) && pid !in g.minted
    ensures LiveOk(AdmitStep(g, ABegin(pid)))
  {
    hide AdmissionOk, PendingOk;
    var g' := AdmitStep(g, ABegin(pid));
    forall id | id in g.records ensures g.records[id].parent != Some(pid) {
      assert RecordOk(g, id);
    }
    assert forall id :: LiveIn(g', id) <==> LiveIn(g, id);
    SameRecords(g, g');
  }

  lemma AdmitLive(g: Registry, x: AdmitInput)
    requires RegistryOk(g) && LiveOk(g)
    ensures LiveOk(AdmitStep(g, x))
  {
    hide RegistryOk, OneBuild, SpreadOk;
    var g' := AdmitStep(g, x);
    if g' != g {
      match x {
        case ABegin(pid) => BeginLive(g, g.admission.value.machines, pid);
        case AChild(cid, path) =>
          ChildLive(g, g.admission.value.machines, g.admission.value.parentId, g.admission.value.created, cid, path);
        case AUndo => UndoLive(g, g.admission.value.parentId, g.admission.value.created);
        case AParent(path, submission) =>
          ParentLive(g, g.admission.value.machines, g.admission.value.parentId, g.admission.value.created, path,
                     submission);
        case _ => SameRecords(g, g');
      }
    }
  }

  lemma SameRecords(g: Registry, g': Registry)
    requires OneBuild(g) && SpreadOk(g) && g'.records == g.records
    ensures OneBuild(g') && SpreadOk(g')
  {
  }

  // ---------------------------------------------------------------- theorem

  lemma StepLive(cfg: Inventory, s: System, a: Action)
    requires Core(s) && LiveOk(s.env.reg)
    ensures Core(Step(cfg, s, a)) && LiveOk(Step(cfg, s, a).env.reg)
  {
    hide LiveOk, Keeps, RegistryOk, WorkerOk, ReaperOk, AbortOk, Step, AdmitStep;
    StepKeeps(cfg, s, a);
    if a.Admit? {
      AdmitLive(s.env.reg, a.input);
      AdmitReg(cfg, s, a.input);
    } else {
      StepSameRuns(cfg, s, a);
      LiveStays(s.env.reg, Step(cfg, s, a).env.reg);
    }
  }

  lemma {:induction false} RunLive(cfg: Inventory, s: System, actions: seq<Action>)
    requires Core(s) && LiveOk(s.env.reg)
    ensures Core(Run(cfg, s, actions)) && LiveOk(Run(cfg, s, actions).env.reg)
    decreases |actions|
  {
    hide Core, LiveOk, Step;
    if actions != [] {
      StepLive(cfg, s, actions[0]);
      RunLive(cfg, Step(cfg, s, actions[0]), actions[1..]);
    }
  }

  /** In every interleaving, all live targets belong to one build and are on different machines. */
  lemma OneLiveBuild(cfg: Inventory, actions: seq<Action>, a: RunId, b: RunId)
    requires var g := Run(cfg, INITIAL, actions).env.reg; LiveIn(g, a) && LiveIn(g, b)
    ensures var g := Run(cfg, INITIAL, actions).env.reg;
            g.records[a].parent == g.records[b].parent && (g.records[a].machine == g.records[b].machine ==> a == b)
  {
    hide Core, Step;
    InitialCore();
    RunLive(cfg, INITIAL, actions);
  }
}
