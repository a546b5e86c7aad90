/** Build requests: the verdict the reaper records is the aggregate of the targets, read one by one. */
module ParentSafety {
  import opened RunModel
  import opened Records
  import opened StateDirectory
  import opened Chooser
  import opened Scheduler
  import opened Protocol
  import opened ProtocolCore

  function StateOf(g: Registry, c: RunId): RunState { if c in g.records then g.records[c].state else Queued }

  function States(g: Registry, ids: seq<RunId>): seq<RunState> {
    seq(|ids|, j requires 0 <= j < |ids| => StateOf(g, ids[j]))
  }

  /** All targets of `p` are terminal and reduce to `state`. */
  ghost predicate Verdict(g: Registry, p: RunId, state: RunState) {
    && IsParent(g, p)
    && (forall c :: c in g.records[p].children ==> Settled(g, c) && IsTerminal(g.records[c].state))
    && Aggregate(States(g, g.records[p].children)).0 == state
  }

  // ---------------------------------------------------------------- invariant

  ghost predicate ParentOk(g: Registry, p: RunId) {
    IsParent(g, p) && IsTerminal(g.records[p].state) ==>
      g.records[p].state.Aborted? || Verdict(g, p, g.records[p].state)
  }

  ghost predicate ParentsOk(g: Registry) { forall p :: ParentOk(g, p) }

  /** A partial reading is right about every target it saw finished. */
  ghost predicate ReadingOk(g: Registry, me: Reaper) {
    match me.pc
    case RAgg(p, i, seen) =>
      && IsParent(g, p) && |seen| == i <= |g.records[p].children|
      && forall j :: 0 <= j < i && IsTerminal(seen[j]) ==> StateOf(g, g.records[p].children[j]) == seen[j]
    case RAggWrite(p, state) => Verdict(g, p, state)
    case _ => true
  }

  ghost predicate ParentInv(s: System) {
    Core(s) && ParentsOk(s.env.reg) && forall r :: r in s.reapers ==> ReadingOk(s.env.reg, s.reapers[r])
  }

  // ---------------------------------------------------------------- stability

  lemma VerdictStays(g: Registry, g': Registry, p: RunId, state: RunState)
    requires Keeps(g, g') && Verdict(g, p, state)
    ensures Verdict(g', p, state)
  {
    VerdictEndures(g, g', p, state);
  }

  lemma VerdictEndures(g: Registry, g': Registry, p: RunId, state: RunState)
    requires Endures(g, g') && Verdict(g, p, state)
    ensures Verdict(g', p, state)
  {
    var kids := g.records[p].children;
    forall c | c in kids ensures Settled(g', c) && g'.records[c] == g.records[c] {}
    assert States(g', kids) == States(g, kids);
  }

  lemma ReadingStays(g: Registry, g': Registry, me: Reaper)
    requires RegistryOk(g) && Keeps(g, g') && ReadingOk(g, me)
    ensures ReadingOk(g', me)
  {
    hide RegistryOk, Verdict;
    match me.pc {
      case RAgg(p, i, seen) =>
        RecordIn(g, p);
        var kids := g.records[p].children;
        forall j | 0 <= j < i && IsTerminal(seen[j]) ensures StateOf(g', kids[j]) == seen[j] {
          assert kids[j] in kids && Settled(g, kids[j]);
        }
      case RAggWrite(p, state) => VerdictStays(g, g', p, state);
      case _ =>
    }
  }

  /** No build request comes to carry a verdict it did not carry before. */
  ghost predicate NoNewVerdicts(g: Registry, g': Registry) {
    forall p :: IsParent(g', p) && IsTerminal(g'.records[p].state) && !g'.records[p].state.Aborted? ==>
      IsParent(g, p) && g.records[p].state == g'.records[p].state
  }

  lemma ParentsStay(g: Registry, g': Registry)
    requires ParentsOk(g) && Keeps(g, g') && NoNewVerdicts(g, g')
    ensures ParentsOk(g')
  {
    hide Keeps, Verdict;
    forall p ensures ParentOk(g', p) {
      if IsParent(g', p) && IsTerminal(g'.records[p].state) && !g'.records[p].state.Aborted? {
        assert ParentOk(g, p);
        VerdictStays(g, g', p, g'.records[p].state);
      }
    }
  }

  // ---------------------------------------------------------------- each actor

  lemma TransitionVerdicts(e: Env, id: RunId, to: RunState, now: Time)
    requires to.Aborted? || !IsParent(e.reg, id)
    ensures NoNewVerdicts(e.reg, Save(e, Transitioned(e.reg.records, id, to, now)).reg)
  {
  }

  lemma AbortSingleVerdicts(e: Env, id: RunId, loaded: RunState)
    ensures NoNewVerdicts(e.reg, Save(e, AbortSingle(e, id, loaded)).reg)
  {
    TransitionVerdicts(e, id, Aborted, e.reg.clock);
  }

  lemma SameVerdicts(g: Registry, g': Registry)
    requires g'.records == g.records
    ensures NoNewVerdicts(g, g')
  {
  }

  lemma WorkerVerdicts(e: Env, w: WorkerId, me: Worker, x: WorkerInput)
    requires RegistryOk(e.reg) && WorkerOk(e.reg, me)
    ensures NoNewVerdicts(e.reg, WorkerStep(e, w, me, x).env.reg)
  {
    hide RegistryOk, Transitioned, Judged, CancelSeen, Published, Released, LeaseClaimed, LeaseReleased, NoNewVerdicts;
    var clock := e.reg.clock;
    SameVerdicts(e.reg, e.reg);
    if me.run in e.reg.records { RecordIn(e.reg, me.run); }
    match me.pc {
      case WPromote => TransitionVerdicts(e, me.run, Staging, clock);
      case WStart => TransitionVerdicts(e, me.run, Running, clock);
      case WCommit(_) => TransitionVerdicts(e, me.run, Committing, clock);
      case WFinish(res) => TransitionVerdicts(e, me.run, res.state, clock);
      case WAbortOut => TransitionVerdicts(e, me.run, Aborted, clock);
      case WLostOut => TransitionVerdicts(e, me.run, Lost, clock);
      case _ =>
    }
  }

  lemma AbortVerdicts(e: Env, pc: AbortPc)
    ensures NoNewVerdicts(e.reg, AbortStep(e, pc).env.reg)
  {
    hide Transitioned, AbortSingle, Released, NoNewVerdicts;
    SameVerdicts(e.reg, e.reg);
    match pc {
      case BEach(_, kids, i) => if i < |kids| { AbortSingleVerdicts(e, kids[i].id, kids[i].loaded); }
      case BSolo(id, loaded) => AbortSingleVerdicts(e, id, loaded);
      case BParent(p) => TransitionVerdicts(e, p, Aborted, e.reg.clock);
      case _ =>
    }
  }

  lemma AdmitVerdicts(g: Registry, x: AdmitInput)
    ensures NoNewVerdicts(g, AdmitStep(g, x))
  {
  }

  lemma RewriteVerdicts(g: Registry, p: RunId, path: string)
    requires RegistryOk(g)
    ensures NoNewVerdicts(g, RewriteParent(g, p, path))
  {
  }

  /** The last read completes a verdict: targets seen finished are finished for good. */
  lemma ReadingCompletes(g: Registry, p: RunId, seen: seq<RunState>)
    requires RegistryOk(g) && IsParent(g, p) && |seen| == |g.records[p].children|
    requires forall j :: 0 <= j < |seen| && IsTerminal(seen[j]) ==> StateOf(g, g.records[p].children[j]) == seen[j]
    requires !Aggregate(seen).0.Aggregating?
    ensures Verdict(g, p, Aggregate(seen).0)
  {
    hide RegistryOk;
    RecordIn(g, p);
    var kids := g.records[p].children;
    forall j | 0 <= j < |seen| ensures StateOf(g, kids[j]) == seen[j] && IsTerminal(seen[j]) {
      assert seen[j] in seen;
    }
    assert States(g, kids) == seen;
    forall c | c in kids ensures IsTerminal(g.records[c].state) {
      var j :| 0 <= j < |kids| && kids[j] == c;
      assert StateOf(g, kids[j]) == seen[j];
    }
  }

  lemma ReadOne(e: Env, me: Reaper, p: RunId, i: nat, seen: seq<RunState>)
    requires RegistryOk(e.reg) && ReadingOk(e.reg, me) && me.pc == RAgg(p, i, seen)
    ensures var t := AggregateStep(e, me, p, i, seen); t.env == e && ReadingOk(e.reg, t.me)
  {
    hide RegistryOk, Aggregate, Verdict;
    RecordIn(e.reg, p);
    var kids := e.reg.records[p].children;
    if i < |kids| {
      assert kids[i] in kids;
    } else if !Aggregate(seen).0.Aggregating? {
      ReadingCompletes(e.reg, p, seen);
    }
  }

  lemma ReaperVerdicts(e: Env, me: Reaper, choice: ReaperInput)
    requires RegistryOk(e.reg) && ReaperOk(e.reg, me) && ReadingOk(e.reg, me) && !me.pc.RAggWrite?
    ensures var t := ReaperStep(e, me, choice); NoNewVerdicts(e.reg, t.env.reg) && ReadingOk(t.env.reg, t.me)
  {
    hide RegistryOk, Transitioned, Reaped, Released, Aggregate, AggregateStep, NoNewVerdicts, Verdict;
    SameVerdicts(e.reg, e.reg);
    match me.pc {
      case RIdle => if choice.RAggregate? && choice.p in e.reg.records { RecordIn(e.reg, choice.p); }
      case RMark(id, _) => TransitionVerdicts(e, id, Lost, me.now);
      case RAgg(p, i, seen) => ReadOne(e, me, p, i, seen);
      case _ =>
    }
  }

  /** Writing the verdict keeps every build request right, whatever happened since the reads. */
  lemma VerdictWritten(e: Env, me: Reaper, choice: ReaperInput)
    requires RegistryOk(e.reg) && ParentsOk(e.reg) && ReaperOk(e.reg, me) && ReadingOk(e.reg, me) && me.pc.RAggWrite?
    ensures var t := ReaperStep(e, me, choice); ParentsOk(t.env.reg) && ReadingOk(t.env.reg, t.me)
  {
    hide RegistryOk, Keeps, Verdict, Aggregate;
    var t := ReaperStep(e, me, choice);
    var p, state := me.pc.p, me.pc.state;
    ReaperKeeps(e, me, choice);
    VerdictStays(e.reg, t.env.reg, p, state);
    forall q ensures ParentOk(t.env.reg, q) {
      assert ParentOk(e.reg, q);
      if q != p && IsParent(e.reg, q) && Verdict(e.reg, q, e.reg.records[q].state) {
        VerdictStays(e.reg, t.env.reg, q, e.reg.records[q].state);
      }
      if q == p && Verdict(e.reg, p, e.reg.records[p].state) {
        VerdictStays(e.reg, t.env.reg, p, e.reg.records[p].state);
      }
    }
  }

  // ---------------------------------------------------------------- every step, every run

  lemma StepVerdicts(cfg: Inventory, s: System, a: Action)
    requires ParentInv(s) && !a.Reap?
    ensures NoNewVerdicts(s.env.reg, Step(cfg, s, a).env.reg)
  {
    hide RegistryOk, ParentsOk, ReadingOk, WorkerStep, AbortStep, AdmitStep, RewriteParent, Reserved;
    hide Released, NoNewVerdicts;
    SameVerdicts(s.env.reg, s.env.reg);
    match a {
      case Tick(d) => SameVerdicts(s.env.reg, s.env.reg.(clock := s.env.reg.clock + d));
      case Admit(x) => AdmitVerdicts(s.env.reg, x);
      case Rewrite(p, path) => RewriteVerdicts(s.env.reg, p, path);
      case Work(w, x) => if w in s.workers { WorkerVerdicts(s.env, w, s.workers[w], x); }
      case Renew(w) => if w in s.workers { RenewKeeps(s.env, w, s.workers[w]); }
      case StepAbort(b) => if b in s.aborts { AbortVerdicts(s.env, s.aborts[b]); }
      case _ =>
    }
  }

  lemma OthersReading(s: System, g': Registry)
    requires ParentInv(s) && Keeps(s.env.reg, g')
    ensures forall r :: r in s.reapers ==> ReadingOk(g', s.reapers[r])
  {
    hide Keeps, ReadingOk, RegistryOk, ParentsOk;
    forall r | r in s.reapers ensures ReadingOk(g', s.reapers[r]) { ReadingStays(s.env.reg, g', s.reapers[r]); }
  }

  lemma StepParents(cfg: Inventory, s: System, a: Action)
    requires ParentInv(s)
    ensures ParentInv(Step(cfg, s, a))
  {
    hide Keeps, RegistryOk, WorkerOk, ReaperOk, AbortOk, ParentsOk, ReadingOk, ReaperStep, AbortStep;
    hide AdmitEnv, WorkerStep, RenewStep, RewriteParent, Reserved, NoNewVerdicts;
    var s' := Step(cfg, s, a);
    StepKeeps(cfg, s, a);
    OthersReading(s, s'.env.reg);
    if a.Reap? {
      if a.r in s.reapers {
        if s.reapers[a.r].pc.RAggWrite? {
          VerdictWritten(s.env, s.reapers[a.r], a.choice);
        } else {
          ReaperVerdicts(s.env, s.reapers[a.r], a.choice);
          ParentsStay(s.env.reg, s'.env.reg);
        }
      }
    } else {
      StepVerdicts(cfg, s, a);
      ParentsStay(s.env.reg, s'.env.reg);
      IdleReads(s'.env.reg, s.env.reg.clock);
    }
  }

  lemma IdleReads(g: Registry, now: Time)
    ensures ReadingOk(g, Reaper(now, RIdle))
  {
  }

  lemma {:induction false} RunParents(cfg: Inventory, s: System, actions: seq<Action>)
    requires ParentInv(s)
    ensures ParentInv(Run(cfg, s, actions))
    decreases |actions|
  {
    hide ParentInv, Step;
    if actions != [] {
      StepParents(cfg, s, actions[0]);
      RunParents(cfg, Step(cfg, s, actions[0]), actions[1..]);
    }
  }

  lemma InitialParents()
    ensures ParentInv(INITIAL)
  {
  }

  // ---------------------------------------------------------------- theorems

  /** In every reachable state a finished build request is aborted, or every target of it is terminal and
    * its state is their aggregate. */
  lemma RecordedVerdictIsTheAggregate(cfg: Inventory, actions: seq<Action>, p: RunId)
    requires var g := Run(cfg, INITIAL, actions).env.reg; IsParent(g, p) && IsTerminal(g.records[p].state)
    ensures var g := Run(cfg, INITIAL, actions).env.reg;
            g.records[p].state.Aborted? || Verdict(g, p, g.records[p].state)
  {
    hide Core, Step, Verdict;
    InitialParents();
    RunParents(cfg, INITIAL, actions);
    assert ParentOk(Run(cfg, INITIAL, actions).env.reg, p);
  }

  /** The stale save of a submission is the one step that can undo a finished build request. */
  predicate LateRewrite(s: System, a: Action, p: RunId) { a.Rewrite? && a.p == p && p in s.env.reg.pending }

  /** In every reachable state that save queues the request anew, with the same targets, the new source and nothing
    * else changed, and there is no second one. */
  lemma RewriteMeans(cfg: Inventory, actions: seq<Action>, p: RunId, path: string)
    requires p in Run(cfg, INITIAL, actions).env.reg.pending
    ensures var s := Run(cfg, INITIAL, actions);
            var s', r := Step(cfg, s, Rewrite(p, path)), s.env.reg.records;
            && p in r && p in s'.env.reg.records
            && s' == s.(env := s.env.(reg := s.env.reg.(records := r[p := s'.env.reg.records[p]],
                                                        pending := s.env.reg.pending - {p})))
            && s'.env.reg.records[p] ==
                 RunRecord("", Queued, s.env.reg.pending[p].updatedAt, s.env.reg.pending[p].cancelAt, None,
                           r[p].children, path)
  {
    InitialParents();
    RunParents(cfg, INITIAL, actions);
  }

  ghost predicate Finished(g: Registry, p: RunId) { IsParent(g, p) && IsTerminal(g.records[p].state) }

  lemma WorkerLeavesFinished(e: Env, w: WorkerId, me: Worker, x: WorkerInput, p: RunId)
    requires Finished(e.reg, p)
    ensures var g' := WorkerStep(e, w, me, x).env.reg;
            && p in g'.records && g'.records[p] == e.reg.records[p]
            && g'.pending == e.reg.pending && g'.minted == e.reg.minted
  {
    hide Judged, CancelSeen, Published, Released, LeaseClaimed, LeaseReleased, CanTransition;
    match me.pc {
      case WPromote =>
      case WStart =>
      case WCommit(_) =>
      case WFinish(_) =>
      case WAbortOut =>
      case WLostOut =>
      case _ =>
    }
  }

  lemma ReaperLeavesFinished(e: Env, me: Reaper, choice: ReaperInput, p: RunId)
    requires Finished(e.reg, p)
    ensures var g' := ReaperStep(e, me, choice).env.reg;
            && p in g'.records && g'.records[p] == e.reg.records[p]
            && g'.pending == e.reg.pending && g'.minted == e.reg.minted
  {
    hide Reaped, Released, Aggregate, CanTransition;
    match me.pc {
      case RMark(_, _) =>
      case RAggWrite(_, _) =>
      case _ =>
    }
  }

  lemma AbortLeavesFinished(e: Env, pc: AbortPc, p: RunId)
    requires Finished(e.reg, p)
    ensures var g' := AbortStep(e, pc).env.reg;
            && p in g'.records && g'.records[p] == e.reg.records[p]
            && g'.pending == e.reg.pending && g'.minted == e.reg.minted
  {
  }

  lemma AdmitLeavesFinished(g: Registry, x: AdmitInput, p: RunId)
    requires RegistryOk(g) && Finished(g, p)
    ensures var g' := AdmitStep(g, x);
            p in g'.records && g'.records[p] == g.records[p] && (p in g'.pending <==> p in g.pending)
  {
    hide RecordsOk, PendingOk;
    RecordIn(g, p);
    MintedRecords(g);
    var g' := AdmitStep(g, x);
    if x.AUndo? && g.admission.Some? && g.admission.value.RollingBack? && g.admission.value.created != [] {
      assert g.admission.value.created[0] in g.admission.value.created;
    }
  }

  /** A step leaves a finished build request as it is exactly when it is not a late rewrite of it. */
  lemma OnlyLateRewriteRevives(cfg: Inventory, s: System, a: Action, p: RunId)
    requires Core(s) && Finished(s.env.reg, p)
    ensures var g' := Step(cfg, s, a).env.reg;
            && p in g'.records && (g'.records[p] == s.env.reg.records[p] <==> !LateRewrite(s, a, p))
            && (LateRewrite(s, a, p) ==> g'.records[p].state.Queued?)
            && (p !in s.env.reg.pending ==> p !in g'.pending)
  {
    hide RecordsOk, AdmissionOk, WorkerOk, ReaperOk, AbortOk, WorkerStep, ReaperStep, AbortStep, AdmitStep;
    hide RenewStep, Reserved, Released;
    match a {
      case Admit(x) => AdmitLeavesFinished(s.env.reg, x, p);
      case Work(w, x) => if w in s.workers { WorkerLeavesFinished(s.env, w, s.workers[w], x, p); }
      case Renew(w) => if w in s.workers { RenewKeeps(s.env, w, s.workers[w]); }
      case Reap(r, choice) => if r in s.reapers { ReaperLeavesFinished(s.env, s.reapers[r], choice, p); }
      case StepAbort(b) => if b in s.aborts { AbortLeavesFinished(s.env, s.aborts[b], p); }
      case _ =>
    }
  }

  /** Once no submission still holds a copy of it, a finished build request is frozen for good. */
  lemma {:induction false} VerdictIsFinal(cfg: Inventory, s: System, actions: seq<Action>, p: RunId)
    requires Core(s) && Finished(s.env.reg, p) && p !in s.env.reg.pending
    ensures var g := Run(cfg, s, actions).env.reg; p in g.records && g.records[p] == s.env.reg.records[p]
    decreases |actions|
  {
    hide Core, Step;
    if actions != [] {
      OnlyLateRewriteRevives(cfg, s, actions[0], p);
      StepKeeps(cfg, s, actions[0]);
      VerdictIsFinal(cfg, Step(cfg, s, actions[0]), actions[1..], p);
    }
  }
}
