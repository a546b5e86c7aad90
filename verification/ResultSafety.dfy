/** Results and records agree, a result is written once, and a terminal target is frozen with its result. */
module ResultSafety {
  import opened RunModel
  import opened Records
  import opened StateDirectory
  import opened Chooser
  import opened Scheduler
  import opened Protocol
  import opened ProtocolCore

  // ---------------------------------------------------------------- invariant

  /** A target recorded with a worker's outcome has a result saying the same. */
  ghost predicate ReportsOk(e: Env) {
    forall id :: id in e.reg.records && IsTarget(e.reg.records[id]) && Reported(e.reg.records[id].state) ==>
      id in e.results && e.results[id].state == e.reg.records[id].state
  }

  /** Results belong to runs no rollback can remove. */
  ghost predicate ResultsSettled(e: Env) { forall id :: id in e.results ==> Settled(e.reg, id) }

  /** A worker about to record its outcome is the one that published it. */
  ghost predicate FinisherOk(e: Env, me: Worker) {
    me.pc.WFinish? ==> me.run in e.results && e.results[me.run] == me.pc.res
  }

  ghost predicate ResultInv(s: System) {
    && Core(s) && ReportsOk(s.env) && ResultsSettled(s.env)
    && forall w :: w in s.workers ==> FinisherOk(s.env, s.workers[w])
  }

  /** No result is changed or removed. */
  ghost predicate ResultsKept(e: Env, e': Env) {
    forall id :: id in e.results ==> id in e'.results && e'.results[id] == e.results[id]
  }

  /** No target record comes to carry an outcome it did not carry before. */
  ghost predicate NoNewReports(g: Registry, g': Registry) {
    forall id :: id in g'.records && IsTarget(g'.records[id]) && Reported(g'.records[id].state) ==>
      id in g.records && IsTarget(g.records[id]) && g.records[id].state == g'.records[id].state
  }

  // ---------------------------------------------------------------- each actor

  lemma TransitionReports(e: Env, id: RunId, to: RunState, now: Time)
    requires !Reported(to)
    ensures NoNewReports(e.reg, Save(e, Transitioned(e.reg.records, id, to, now)).reg)
  {
  }

  lemma AbortSingleReports(e: Env, id: RunId, loaded: RunState)
    ensures NoNewReports(e.reg, Save(e, AbortSingle(e, id, loaded)).reg)
  {
    hide Transitioned, CancelRequested, NoNewReports;
    TransitionReports(e, id, Aborted, e.reg.clock);
    CancelReports(e, id, e.reg.clock);
    SameReports(e.reg);
  }

  lemma CancelReports(e: Env, id: RunId, now: Time)
    ensures NoNewReports(e.reg, Save(e, CancelRequested(e.reg.records, id, now)).reg)
  {
  }

  lemma SameReports(g: Registry)
    ensures NoNewReports(g, g)
  {
  }

  lemma AdmitReports(g: Registry, x: AdmitInput)
    requires RegistryOk(g)
    ensures NoNewReports(g, AdmitStep(g, x))
  {
    hide RecordsOk;
  }

  lemma RewriteReports(g: Registry, p: RunId, path: string)
    requires RegistryOk(g)
    ensures NoNewReports(g, RewriteParent(g, p, path))
  {
  }

  lemma ReaperReports(e: Env, me: Reaper, choice: ReaperInput)
    requires RegistryOk(e.reg) && ReaperOk(e.reg, me)
    ensures var t := ReaperStep(e, me, choice); NoNewReports(e.reg, t.env.reg) && t.env.results == e.results
  {
    hide RegistryOk, Aggregate, Reaped, Released, AggregateStep, NoNewReports, Transitioned, AggregateWritten;
    SameReports(e.reg);
    match me.pc {
      case RMark(id, _) => TransitionReports(e, id, Lost, me.now);
      case RAggWrite(p, state) => ParentWriteReports(e, p, state, me.now);
      case RAgg(p, i, seen) => AggregateOnlyReads(e, me, p, i, seen);
      case _ =>
    }
  }

  lemma ParentWriteReports(e: Env, p: RunId, state: RunState, now: Time)
    requires IsParent(e.reg, p)
    ensures NoNewReports(e.reg, Save(e, AggregateWritten(e.reg.records, p, state, now)).reg)
  {
  }

  lemma AggregateOnlyReads(e: Env, me: Reaper, p: RunId, i: nat, seen: seq<RunState>)
    ensures AggregateStep(e, me, p, i, seen).env == e
  {
  }

  lemma AbortReports(e: Env, pc: AbortPc)
    ensures var t := AbortStep(e, pc); NoNewReports(e.reg, t.env.reg) && t.env.results == e.results
  {
    hide Released, NoNewReports, Transitioned, AbortSingle;
    SameReports(e.reg);
    match pc {
      case BEach(_, kids, i) => if i < |kids| { AbortSingleReports(e, kids[i].id, kids[i].loaded); }
      case BSolo(id, loaded) => AbortSingleReports(e, id, loaded);
      case BParent(p) => TransitionReports(e, p, Aborted, e.reg.clock);
      case _ =>
    }
  }

  /** Publishing is the only step that writes a result; finishing the only one that records it. */
  lemma WorkerReports(e: Env, w: WorkerId, me: Worker, x: WorkerInput)
    ensures var t := WorkerStep(e, w, me, x);
            && (t.env.results != e.results ==>
                  && me.pc.WPublish? && me.run !in e.results
                  && me.run in e.reg.records && !IsTerminal(e.reg.records[me.run].state)
                  && t.env.results == e.results[me.run := me.pc.res] && t.env.reg == e.reg)
            && (t.me.pc.WFinish? ==>
                  && me.pc == WPublish(t.me.pc.res)
                  && t.env.results == e.results[me.run := me.pc.res] && t.env.reg == e.reg)
            && t.me.run == me.run
  {
    hide Transitioned, Judged, CancelSeen, Released, LeaseClaimed, LeaseReleased;
    match me.pc {
      case WExec =>
      case WJudge(_) =>
      case WCommit(_) =>
      case WPublish(_) =>
      case WFinish(_) =>
      case _ =>
    }
  }

  lemma WorkerRecords(e: Env, w: WorkerId, me: Worker, x: WorkerInput)
    ensures var t := WorkerStep(e, w, me, x);
            if me.pc.WFinish? then t.env.reg.records == e.reg.records ||
              (me.run in e.reg.records && t.env.reg.records == e.reg.records[me.run := t.env.reg.records[me.run]]
               && t.env.reg.records[me.run].state == me.pc.res.state)
            else NoNewReports(e.reg, t.env.reg)
  {
    hide Judged, CancelSeen, Released, LeaseClaimed, LeaseReleased, Published, NoNewReports;
    var clock := e.reg.clock;
    SameReports(e.reg);
    match me.pc {
      case WPromote => TransitionReports(e, me.run, Staging, clock);
      case WStart => TransitionReports(e, me.run, Running, clock);
      case WCommit(_) => TransitionReports(e, me.run, Committing, clock);
      case WFinish(_) =>
      case WAbortOut => TransitionReports(e, me.run, Aborted, clock);
      case WLostOut => TransitionReports(e, me.run, Lost, clock);
      case _ =>
    }
  }

  // ---------------------------------------------------------------- assembling

  lemma ReportsStay(e: Env, e': Env)
    requires ReportsOk(e) && NoNewReports(e.reg, e'.reg) && ResultsKept(e, e')
    ensures ReportsOk(e')
  {
  }

  lemma SettledStay(e: Env, e': Env)
    requires ResultsSettled(e) && Keeps(e.reg, e'.reg) && e'.results == e.results
    ensures ResultsSettled(e')
  {
  }

  lemma WorkerResults(s: System, w: WorkerId, x: WorkerInput)
    requires ResultInv(s) && w in s.workers
    ensures var t := WorkerStep(s.env, w, s.workers[w], x);
            ReportsOk(t.env) && ResultsSettled(t.env) && ResultsKept(s.env, t.env) && FinisherOk(t.env, t.me)
  {
    hide WorkerStep, RegistryOk, Keeps;
    var e, me := s.env, s.workers[w];
    var t := WorkerStep(e, w, me, x);
    WorkerKeeps(e, w, me, x);
    WorkerReports(e, w, me, x);
    WorkerRecords(e, w, me, x);
    if t.env.results == e.results {
      SettledStay(e, t.env);
    }
  }

  /** A rollback takes no result with it. */
  lemma AdmitResults(s: System, x: AdmitInput)
    requires ResultInv(s)
    ensures AdmitEnv(s.env, x).results == s.env.results
  {
    hide Keeps, RegistryOk, AdmitStep;
    var g, g' := s.env.reg, AdmitStep(s.env.reg, x);
    AdmitKeeps(g, x);
    forall id | id in s.env.results ensures id !in g.records.Keys - g'.records.Keys { KeepsSettled(g, g', id); }
  }

  lemma StepReports(cfg: Inventory, s: System, a: Action)
    requires ResultInv(s) && !a.Work?
    ensures var s' := Step(cfg, s, a); NoNewReports(s.env.reg, s'.env.reg) && s'.env.results == s.env.results
  {
    hide RegistryOk, ReaperStep, AbortStep, AdmitStep, AdmitEnv, Reserved, WorkerStep, RewriteParent;
    hide NoNewReports, ReportsOk, Released;
    SameReports(s.env.reg);
    match a {
      case Tick(d) => TickReports(s.env.reg, d);
      case Admit(x) => AdmitReports(s.env.reg, x); AdmitResults(s, x); AdmitReg(cfg, s, x);
      case Rewrite(p, path) => RewriteReports(s.env.reg, p, path);
      case Reap(r, choice) => if r in s.reapers { ReaperReports(s.env, s.reapers[r], choice); }
      case StepAbort(b) => if b in s.aborts { AbortReports(s.env, s.aborts[b]); }
      case _ =>
    }
  }

  lemma TickReports(g: Registry, d: nat)
    ensures NoNewReports(g, g.(clock := g.clock + d))
  {
  }

  lemma StepResults(cfg: Inventory, s: System, a: Action)
    requires ResultInv(s)
    ensures ResultInv(Step(cfg, s, a)) && ResultsKept(s.env, Step(cfg, s, a).env)
  {
    hide Core, Keeps, NoNewReports, ReportsOk, ResultsSettled;
    var s' := Step(cfg, s, a);
    StepKeeps(cfg, s, a);
    if a.Work? {
      if a.w in s.workers { WorkerResults(s, a.w, a.x); }
    } else {
      StepReports(cfg, s, a);
      ReportsStay(s.env, s'.env);
      SettledStay(s.env, s'.env);
      StepFinishers(cfg, s, a);
    }
  }

  lemma StepFinishers(cfg: Inventory, s: System, a: Action)
    requires !a.Work? && Step(cfg, s, a).env.results == s.env.results
    requires forall w :: w in s.workers ==> FinisherOk(s.env, s.workers[w])
    ensures forall w :: w in Step(cfg, s, a).workers ==> FinisherOk(Step(cfg, s, a).env, Step(cfg, s, a).workers[w])
  {
  }

  lemma {:induction false} RunResults(cfg: Inventory, s: System, actions: seq<Action>)
    requires ResultInv(s)
    ensures ResultInv(Run(cfg, s, actions)) && ResultsKept(s.env, Run(cfg, s, actions).env)
    decreases |actions|
  {
    hide ResultInv, Step;
    if actions != [] {
      StepResults(cfg, s, actions[0]);
      RunResults(cfg, Step(cfg, s, actions[0]), actions[1..]);
    }
  }

  lemma InitialResults()
    ensures ResultInv(INITIAL)
  {
  }

  // ---------------------------------------------------------------- theorems

  /** In every reachable state, crashes included, a target recorded succeeded, failed or unavailable has
    * a result whose state equals the record's; and no result is ever written twice or taken back. */
  lemma RecordedOutcomeHasItsResult(cfg: Inventory, actions: seq<Action>, later: seq<Action>, id: RunId)
    requires id in Run(cfg, INITIAL, actions).env.reg.records
    ensures var s := Run(cfg, INITIAL, actions);
            && (IsTarget(s.env.reg.records[id]) && Reported(s.env.reg.records[id].state) ==>
                  id in s.env.results && s.env.results[id].state == s.env.reg.records[id].state)
            && (id in s.env.results ==>
                  id in Run(cfg, s, later).env.results && Run(cfg, s, later).env.results[id] == s.env.results[id])
  {
    hide Core, Step;
    InitialResults();
    RunResults(cfg, INITIAL, actions);
    RunResults(cfg, Run(cfg, INITIAL, actions), later);
  }

  lemma ResultWrittenLive(cfg: Inventory, s: System, a: Action, id: RunId)
    requires ResultInv(s) && OnRecord(s.env.reg, id) && IsTerminal(s.env.reg.records[id].state)
    ensures id in Step(cfg, s, a).env.results <==> id in s.env.results
  {
    hide Core, ReportsOk, Keeps;
    StepResults(cfg, s, a);
    if a.Work? && a.w in s.workers {
      WorkerReports(s.env, a.w, s.workers[a.w], a.x);
    } else if !a.Work? {
      StepReports(cfg, s, a);
    }
  }

  /** Record and result of `id`, present or absent, are the same in both states. */
  ghost predicate Same(e: Env, e': Env, id: RunId) {
    && (id in e.reg.records <==> id in e'.reg.records)
    && (id in e.reg.records ==> e'.reg.records[id] == e.reg.records[id])
    && (id in e.results <==> id in e'.results)
    && (id in e.results ==> e'.results[id] == e.results[id])
  }

  /** Once a target is terminal, every later step of every actor leaves its record and its result, present or absent,
    * exactly as they are, for as long as it is on record; and only the rollback of an admission that is still creating
    * it takes it off the record, for good and without ever having had a result. */
  lemma {:induction false} TerminalTargetIsFrozen(cfg: Inventory, s: System, actions: seq<Action>, id: RunId)
    requires ResultInv(s) && OnRecord(s.env.reg, id) && IsTerminal(s.env.reg.records[id].state)
    ensures var e := Run(cfg, s, actions).env;
            && (id in e.reg.records ==> Same(s.env, e, id))
            && (id !in e.reg.records ==> InFlight(s.env.reg, id) && id !in s.env.results && id !in e.results)
    decreases |actions|
  {
    hide Core, ReportsOk, Step;
    if actions != [] {
      var s1 := Step(cfg, s, actions[0]);
      StepKeeps(cfg, s, actions[0]);
      StepResults(cfg, s, actions[0]);
      ResultWrittenLive(cfg, s, actions[0], id);
      TargetMinted(s, id);
      if id in s1.env.reg.records {
        TerminalTargetIsFrozen(cfg, s1, actions[1..], id);
      } else {
        GoneForGood(cfg, s1, actions[1..], id);
        RunResults(cfg, s1, actions[1..]);
      }
    }
  }

  /** A target of a committed build is one no rollback can remove, so the freeze covers it. */
  lemma CommittedTargetsAreSettled(cfg: Inventory, actions: seq<Action>, p: RunId, c: RunId)
    requires var g := Run(cfg, INITIAL, actions).env.reg; p in g.records && c in g.records[p].children
    ensures var s := Run(cfg, INITIAL, actions);
            ResultInv(s) && Settled(s.env.reg, c) && s.env.reg.records[c].parent == Some(p)
  {
    hide Step;
    InitialResults();
    RunResults(cfg, INITIAL, actions);
    RecordIn(Run(cfg, INITIAL, actions).env.reg, p);
  }
}
