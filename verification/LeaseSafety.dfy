/** Worker leases: one execution per run, and a reaper that only declares dead workers lost. */
module LeaseSafety {
  import opened RunModel
  import opened Records
  import opened StateDirectory
  import opened Chooser
  import opened Scheduler
  import opened Protocol
  import opened ProtocolCore

  /** Past the recheck and not yet running: this worker may still start the command. */
  predicate MayStart(pc: WorkerPc) { pc.WPreCancel? || pc.WPopulate? || pc.WPostCancel? || pc.WStart? }

  predicate Eligible(me: Worker) { me.started || MayStart(me.pc) }

  predicate BeforeStart(pc: WorkerPc) {
    pc.WLoad? || pc.WSlot? || pc.WPromote? || pc.WClaim? || pc.WRecheck? || pc.WPopulateFailed? || MayStart(pc)
  }

  /** The worker's lease ran out while it was at work. */
  predicate Overran(clock: Time, me: Worker) {
    (if Holding(me.pc) then clock else me.endedAt) >= me.leaseUntil
  }

  /** The worker holds no lease that is still good. */
  predicate LeaseDead(clock: Time, me: Worker) { !Holding(me.pc) || clock >= me.leaseUntil }

  // ---------------------------------------------------------------- invariant

  /** A lease file names a worker that still holds it, with the expiry that worker last wrote. */
  ghost predicate OwnersOk(s: System) {
    forall id :: id in s.env.leases ==>
      var l := s.env.leases[id];
      && l.owner in s.workers && s.workers[l.owner].run == id
      && Holding(s.workers[l.owner].pc) && s.workers[l.owner].leaseUntil == l.expiresAt
  }

  /** An unexpired holder is the one the lease file names. */
  ghost predicate HoldersOk(s: System) {
    forall w :: w in s.workers && Holding(s.workers[w].pc) && s.env.reg.clock < s.workers[w].leaseUntil ==>
      s.workers[w].run in s.env.leases && s.env.leases[s.workers[w].run].owner == w
  }

  ghost predicate StartsOk(s: System) {
    forall w :: w in s.workers && s.workers[w].started ==> !BeforeStart(s.workers[w].pc)
  }

  /** Of two workers that may run the same command, one has overrun its lease. */
  ghost predicate ExclusiveOk(s: System) {
    forall w1, w2 :: w1 in s.workers && w2 in s.workers && w1 != w2 && s.workers[w1].run == s.workers[w2].run
                     && Eligible(s.workers[w1]) && Eligible(s.workers[w2]) ==>
      Overran(s.env.reg.clock, s.workers[w1]) || Overran(s.env.reg.clock, s.workers[w2])
  }

  predicate MarksStarted(pc: ReaperPc) { pc.RMark? && (pc.loaded.Running? || pc.loaded.Committing?) }

  /** Once a reaper has decided to mark a started run lost, no worker of it has a live lease. */
  ghost predicate MarksOk(s: System) {
    forall r, w :: r in s.reapers && w in s.workers && MarksStarted(s.reapers[r].pc)
                   && s.workers[w].run == s.reapers[r].pc.id && Eligible(s.workers[w]) ==>
      LeaseDead(s.env.reg.clock, s.workers[w])
  }

  ghost predicate LeasesOk(s: System) { OwnersOk(s) && HoldersOk(s) && StartsOk(s) }

  ghost predicate LeaseInv(s: System) { Core(s) && LeasesOk(s) && ExclusiveOk(s) && MarksOk(s) }

  // ---------------------------------------------------------------- what a worker's step does to leases

  datatype LeaseEffect = Claims | Ends | Leaves

  /** How a step changes leases: it takes one, gives one up, or leaves them alone. */
  ghost predicate Effect(e: Env, w: WorkerId, me: Worker, t: Acted<Worker>, kind: LeaseEffect) {
    && t.env.reg.clock == e.reg.clock && t.me.run == me.run
    && match kind
       case Claims =>
         && me.pc.WClaim? && t.me.pc.WRecheck?
         && t.me.leaseUntil == e.reg.clock + LEASE_TTL && t.me.started == me.started
         && (me.run in e.leases ==> e.leases[me.run].expiresAt <= e.reg.clock)
         && t.env.leases == e.leases[me.run := Lease(w, t.me.leaseUntil)]
       case Ends =>
         && me.pc.WReleaseLease? && t.me.pc.WReleaseSlot? && t.me.endedAt == e.reg.clock
         && t.me.leaseUntil == me.leaseUntil && t.me.started == me.started
         && t.env.leases == if me.run in e.leases && e.leases[me.run].owner == w then e.leases - {me.run} else e.leases
       case Leaves =>
         && t.env.leases == e.leases && Holding(t.me.pc) == Holding(me.pc)
         && t.me.leaseUntil == me.leaseUntil && t.me.endedAt == me.endedAt
         && (t.me.started != me.started ==> me.pc.WStart?)
         && (t.me.started && BeforeStart(t.me.pc) ==> me.started && BeforeStart(me.pc))
         && (Eligible(t.me) ==>
               Eligible(me) || (me.pc.WRecheck? && me.run in e.reg.records && e.reg.records[me.run].state.Staging?))
  }

  lemma WorkerEffect(e: Env, w: WorkerId, me: Worker, x: WorkerInput) returns (kind: LeaseEffect)
    ensures Effect(e, w, me, WorkerStep(e, w, me, x), kind)
  {
    hide BeforeStart;
    if me.pc.WClaim? && LeaseClaimed(e.leases, me.run, w, e.reg.clock, LEASE_TTL).Some? {
      kind := Claims;
    } else if me.pc.WReleaseLease? {
      kind := Ends;
    } else {
      kind := Leaves;
      if BeforeStart(me.pc) { EarlyStepLeaves(e, w, me, x); } else { LateStepLeaves(e, w, me, x); }
    }
  }

  lemma EarlyStepLeaves(e: Env, w: WorkerId, me: Worker, x: WorkerInput)
    requires BeforeStart(me.pc)
    requires me.pc.WClaim? ==> LeaseClaimed(e.leases, me.run, w, e.reg.clock, LEASE_TTL).None?
    ensures Effect(e, w, me, WorkerStep(e, w, me, x), Leaves)
  {
    hide Transitioned, Judged, CancelSeen, LeaseClaimed;
  }

  lemma LateStepLeaves(e: Env, w: WorkerId, me: Worker, x: WorkerInput)
    requires !BeforeStart(me.pc) && !me.pc.WReleaseLease?
    ensures Effect(e, w, me, WorkerStep(e, w, me, x), Leaves)
  {
    hide Transitioned, Judged, CancelSeen, Published, Released;
    match me.pc {
      case WExec =>
      case WJudge(_) =>
      case WCommit(_) =>
      case WPublish(_) =>
      case WFinish(_) =>
      case WAbortOut =>
      case WLostOut =>
      case WReleaseSlot =>
      case WDone =>
    }
  }

  lemma WorkerLeases(s: System, w: WorkerId, t: Acted<Worker>, kind: LeaseEffect)
    requires LeasesOk(s) && w in s.workers && Effect(s.env, w, s.workers[w], t, kind)
    ensures LeasesOk(AfterWorker(s, w, t))
  {
  }

  /** Entering the race needs the lease and a run that nobody has started. */
  lemma NewcomerIsAlone(s: System, w: WorkerId, v: WorkerId)
    requires Core(s) && LeasesOk(s) && w in s.workers && v in s.workers && v != w
    requires s.workers[w].pc.WRecheck? && s.workers[v].run == s.workers[w].run && Eligible(s.workers[v])
    requires s.workers[w].run in s.env.reg.records && s.env.reg.records[s.workers[w].run].state.Staging?
    ensures Overran(s.env.reg.clock, s.workers[w]) || Overran(s.env.reg.clock, s.workers[v])
  {
  }

  lemma WorkerExclusive(s: System, w: WorkerId, t: Acted<Worker>, kind: LeaseEffect)
    requires Core(s) && LeasesOk(s) && ExclusiveOk(s)
    requires w in s.workers && Effect(s.env, w, s.workers[w], t, kind)
    ensures ExclusiveOk(AfterWorker(s, w, t))
  {
    hide Core, Effect;
    var me, s' := s.workers[w], AfterWorker(s, w, t);
    forall v | v in s.workers && v != w && s.workers[v].run == me.run && Eligible(t.me) && Eligible(s.workers[v])
      ensures Overran(s.env.reg.clock, t.me) || Overran(s.env.reg.clock, s.workers[v])
    {
      EffectOnRace(s.env, w, me, t, kind);
      if !Eligible(me) { NewcomerIsAlone(s, w, v); }
    }
    EffectClock(s.env, w, me, t, kind);
  }

  lemma EffectClock(e: Env, w: WorkerId, me: Worker, t: Acted<Worker>, kind: LeaseEffect)
    requires Effect(e, w, me, t, kind)
    ensures t.env.reg.clock == e.reg.clock && t.me.run == me.run
  {
  }

  lemma EffectOnRace(e: Env, w: WorkerId, me: Worker, t: Acted<Worker>, kind: LeaseEffect)
    requires Effect(e, w, me, t, kind) && Eligible(t.me) && (me.started ==> !BeforeStart(me.pc))
    ensures Overran(e.reg.clock, me) ==> Overran(e.reg.clock, t.me)
    ensures Eligible(me) || (me.pc.WRecheck? && me.run in e.reg.records && e.reg.records[me.run].state.Staging?)
  {
  }

  lemma WorkerMarks(s: System, w: WorkerId, t: Acted<Worker>, kind: LeaseEffect)
    requires Core(s) && StartsOk(s) && MarksOk(s)
    requires w in s.workers && Effect(s.env, w, s.workers[w], t, kind)
    ensures MarksOk(AfterWorker(s, w, t))
  {
    var me := s.workers[w];
    forall r | r in s.reapers && MarksStarted(s.reapers[r].pc) && me.run == s.reapers[r].pc.id && Eligible(t.me)
      ensures LeaseDead(s.env.reg.clock, t.me)
    {
      assert ReaperOk(s.env.reg, s.reapers[r]);
      EffectOnRace(s.env, w, me, t, kind);
    }
  }

  // ---------------------------------------------------------------- the other steps

  lemma RenewLeases(s: System, w: WorkerId)
    requires LeasesOk(s) && w in s.workers
    ensures LeasesOk(AfterWorker(s, w, RenewStep(s.env, w, s.workers[w])))
  {
    var me := s.workers[w];
    var s' := AfterWorker(s, w, RenewStep(s.env, w, me));
    forall v | v in s'.workers && Holding(s'.workers[v].pc) && s'.env.reg.clock < s'.workers[v].leaseUntil
      ensures s'.workers[v].run in s'.env.leases && s'.env.leases[s'.workers[v].run].owner == v
    {
      if v != w { assert s'.workers[v] == s.workers[v]; }
    }
  }

  /** Only a lease that is still good can be renewed. */
  lemma RenewNeedsLife(s: System, w: WorkerId)
    requires OwnersOk(s) && w in s.workers
    ensures var t := RenewStep(s.env, w, s.workers[w]);
            && t.env.reg == s.env.reg && t.me.run == s.workers[w].run
            && t.me.pc == s.workers[w].pc && t.me.started == s.workers[w].started
            && t.me.endedAt == s.workers[w].endedAt
            && (t.me.leaseUntil != s.workers[w].leaseUntil ==>
                  Holding(s.workers[w].pc) && s.env.reg.clock < s.workers[w].leaseUntil)
  {
  }

  lemma RenewExclusive(s: System, w: WorkerId)
    requires OwnersOk(s) && ExclusiveOk(s) && MarksOk(s) && w in s.workers
    ensures var s' := AfterWorker(s, w, RenewStep(s.env, w, s.workers[w])); ExclusiveOk(s') && MarksOk(s')
  {
  }

  /** Reading no lease, or one that ran out before the pass began, shows every holder expired. */
  lemma ReaperSeesDead(s: System, r: nat, choice: ReaperInput)
    requires Core(s) && LeasesOk(s) && MarksOk(s) && r in s.reapers
    ensures var t := ReaperStep(s.env, s.reapers[r], choice);
            && t.env.leases == s.env.leases && t.env.reg.clock == s.env.reg.clock
            && (MarksStarted(t.me.pc) ==>
                  forall w :: w in s.workers && s.workers[w].run == t.me.pc.id ==>
                    LeaseDead(s.env.reg.clock, s.workers[w]))
  {
    hide Core;
    assert ReaperOk(s.env.reg, s.reapers[r]) by { ReaperIn(s, r); }
    var t := ReaperStep(s.env, s.reapers[r], choice);
    if MarksStarted(t.me.pc) {
      forall w | w in s.workers && s.workers[w].run == t.me.pc.id ensures LeaseDead(s.env.reg.clock, s.workers[w]) {}
    }
  }

  lemma ReaperIn(s: System, r: nat)
    requires Core(s) && r in s.reapers
    ensures ReaperOk(s.env.reg, s.reapers[r])
  {
  }

  lemma ReaperLeases(s: System, r: nat, t: Acted<Reaper>)
    requires LeasesOk(s) && ExclusiveOk(s) && MarksOk(s) && r in s.reapers
    requires t.env.leases == s.env.leases && t.env.reg.clock == s.env.reg.clock
    requires MarksStarted(t.me.pc) ==>
               forall w :: w in s.workers && s.workers[w].run == t.me.pc.id ==> LeaseDead(s.env.reg.clock, s.workers[w])
    ensures var s' := s.(env := t.env, reapers := s.reapers[r := t.me]); LeasesOk(s') && ExclusiveOk(s') && MarksOk(s')
  {
  }

  /** A rollback removes no lease: runs it can undo were never promoted. */
  lemma AdmitLeases(s: System, x: AdmitInput)
    requires Core(s) && LeasesOk(s)
    ensures AdmitEnv(s.env, x).leases == s.env.leases && AdmitEnv(s.env, x).reg.clock == s.env.reg.clock
  {
    hide WorkerStep, ReaperStep, AbortStep, Keeps;
    var g, g' := s.env.reg, AdmitStep(s.env.reg, x);
    AdmitKeeps(g, x);
    forall id | id in s.env.leases ensures id !in g.records.Keys - g'.records.Keys {
      assert WorkerOk(g, s.workers[s.env.leases[id].owner]);
      assert Settled(g, id);
      KeepsSettled(g, g', id);
    }
  }

  lemma TickLeases(s: System, d: nat)
    requires LeasesOk(s) && ExclusiveOk(s) && MarksOk(s)
    ensures var s' := s.(env := s.env.(reg := s.env.reg.(clock := s.env.reg.clock + d)));
            LeasesOk(s') && ExclusiveOk(s') && MarksOk(s')
  {
  }

  lemma LaunchLeases(s: System, w: WorkerId, id: RunId)
    requires LeasesOk(s) && ExclusiveOk(s) && MarksOk(s) && w !in s.workers
    ensures var s' := s.(workers := s.workers[w := Worker(id, WLoad, false, false, 0, 0)]);
            LeasesOk(s') && ExclusiveOk(s') && MarksOk(s')
  {
  }

  /** Steps of actors that never touch a lease, a worker, a reaper's decision or the clock. */
  lemma BystanderLeases(s: System, e': Env, aborts': map<nat, AbortPc>)
    requires LeasesOk(s) && ExclusiveOk(s) && MarksOk(s)
    requires e'.leases == s.env.leases && e'.reg.clock == s.env.reg.clock
    ensures var s' := s.(env := e', aborts := aborts'); LeasesOk(s') && ExclusiveOk(s') && MarksOk(s')
  {
  }

  lemma ReaperStartLeases(s: System, r: nat)
    requires LeasesOk(s) && ExclusiveOk(s) && MarksOk(s)
    ensures var s' := s.(reapers := s.reapers[r := Reaper(s.env.reg.clock, RIdle)]);
            LeasesOk(s') && ExclusiveOk(s') && MarksOk(s')
  {
  }

  lemma StepLeases(cfg: Inventory, s: System, a: Action)
    requires LeaseInv(s)
    ensures LeaseInv(Step(cfg, s, a))
  {
    hide Core, LeasesOk, ExclusiveOk, MarksOk, WorkerStep, ReaperStep, RenewStep, AdmitEnv, AbortStep, Effect, Reserved;
    StepKeeps(cfg, s, a);
    match a {
      case Tick(d) => TickLeases(s, d);
      case Admit(x) => AdmitLeases(s, x); BystanderLeases(s, AdmitEnv(s.env, x), s.aborts);
      case Launch(w, id) => if w !in s.workers { LaunchLeases(s, w, id); }
      case Work(w, x) =>
        if w in s.workers {
          var t := WorkerStep(s.env, w, s.workers[w], x);
          var kind := WorkerEffect(s.env, w, s.workers[w], x);
          WorkerLeases(s, w, t, kind);
          WorkerExclusive(s, w, t, kind);
          LeasesParts(s);
          WorkerMarks(s, w, t, kind);
        }
      case Renew(w) =>
        if w in s.workers {
          LeasesParts(s);
          RenewLeases(s, w);
          RenewExclusive(s, w);
        }
      case StartReaper(r) => ReaperStartLeases(s, r);
      case Reap(r, choice) =>
        if r in s.reapers {
          ReaperSeesDead(s, r, choice);
          ReaperLeases(s, r, ReaperStep(s.env, s.reapers[r], choice));
        }
      case StepAbort(b) =>
        if b in s.aborts {
          AbortLeaves(s.env, s.aborts[b]);
          BystanderLeases(s, AbortStep(s.env, s.aborts[b]).env, s.aborts[b := AbortStep(s.env, s.aborts[b]).me]);
        }
      case _ => BystanderLeases(s, Step(cfg, s, a).env, Step(cfg, s, a).aborts);
    }
  }

  lemma AbortLeaves(e: Env, pc: AbortPc)
    ensures AbortStep(e, pc).env.leases == e.leases && AbortStep(e, pc).env.reg.clock == e.reg.clock
  {
  }

  lemma LeasesParts(s: System)
    requires LeasesOk(s)
    ensures OwnersOk(s) && HoldersOk(s) && StartsOk(s)
  {
  }

  lemma {:induction false} RunLeases(cfg: Inventory, s: System, actions: seq<Action>)
    requires LeaseInv(s)
    ensures LeaseInv(Run(cfg, s, actions))
    decreases |actions|
  {
    hide LeaseInv, Step;
    if actions != [] {
      StepLeases(cfg, s, actions[0]);
      RunLeases(cfg, Step(cfg, s, actions[0]), actions[1..]);
    }
  }

  lemma InitialLeases()
    ensures LeaseInv(INITIAL)
  {
  }

  // ---------------------------------------------------------------- theorems

  /** However many workers are launched for a run, at most one worker that keeps within its lease ever
    * starts the command. */
  lemma AtMostOneExecution(cfg: Inventory, actions: seq<Action>, w1: WorkerId, w2: WorkerId)
    requires var s := Run(cfg, INITIAL, actions);
             && w1 in s.workers && w2 in s.workers && s.workers[w1].run == s.workers[w2].run
             && s.workers[w1].started && s.workers[w2].started
             && !Overran(s.env.reg.clock, s.workers[w1]) && !Overran(s.env.reg.clock, s.workers[w2])
    ensures w1 == w2
  {
    hide Core;
    InitialLeases();
    RunLeases(cfg, INITIAL, actions);
  }

  /** A lease changes hands only through its owner's release or a claim at or past its expiry, and only
    * its owner extends it, while it is still good. */
  lemma LeaseChangesHands(cfg: Inventory, s: System, a: Action, id: RunId)
    requires LeaseInv(s) && id in s.env.leases
    ensures var l, s' := s.env.leases[id], Step(cfg, s, a);
            && (id !in s'.env.leases ==> a.Work? && a.w == l.owner && s.workers[l.owner].pc.WReleaseLease?)
            && (id in s'.env.leases && s'.env.leases[id] != l ==>
                  || (a == Renew(l.owner) && s.env.reg.clock < l.expiresAt && s'.env.leases[id].owner == l.owner)
                  || (a.Work? && s'.env.leases[id].owner == a.w && s.env.reg.clock >= l.expiresAt))
  {
    hide Core, ExclusiveOk, MarksOk, WorkerStep, ReaperStep, RenewStep, AdmitEnv, AbortStep, Effect, Reserved;
    match a {
      case Work(w, x) =>
        if w in s.workers {
          var kind := WorkerEffect(s.env, w, s.workers[w], x);
          EffectOnLease(s.env, w, s.workers[w], WorkerStep(s.env, w, s.workers[w], x), kind, id);
        }
      case Renew(w) => if w in s.workers { RenewOnLease(s.env, w, s.workers[w], id); }
      case Admit(x) => AdmitLeases(s, x);
      case Reap(r, choice) => if r in s.reapers { ReaperSeesDead(s, r, choice); }
      case StepAbort(b) => if b in s.aborts { AbortLeaves(s.env, s.aborts[b]); }
      case _ =>
    }
  }

  lemma EffectOnLease(e: Env, w: WorkerId, me: Worker, t: Acted<Worker>, kind: LeaseEffect, id: RunId)
    requires Effect(e, w, me, t, kind) && id in e.leases
    ensures id !in t.env.leases ==> w == e.leases[id].owner && me.pc.WReleaseLease?
    ensures id in t.env.leases && t.env.leases[id] != e.leases[id] ==>
              t.env.leases[id].owner == w && e.reg.clock >= e.leases[id].expiresAt
  {
  }

  lemma RenewOnLease(e: Env, w: WorkerId, me: Worker, id: RunId)
    requires id in e.leases
    ensures var ls := RenewStep(e, w, me).env.leases;
            && id in ls && (ls[id] != e.leases[id] ==>
                 w == e.leases[id].owner && e.reg.clock < e.leases[id].expiresAt && ls[id].owner == w)
  {
  }

  /** A worker that started and whose lease is over can never bring it back. */
  lemma {:induction false} DeadLeaseStaysDead(cfg: Inventory, s: System, actions: seq<Action>, w: WorkerId)
    requires LeaseInv(s) && w in s.workers && s.workers[w].started && LeaseDead(s.env.reg.clock, s.workers[w])
    ensures var s' := Run(cfg, s, actions);
            && w in s'.workers && s'.workers[w].started && LeaseDead(s'.env.reg.clock, s'.workers[w])
            && s'.workers[w].leaseUntil == s.workers[w].leaseUntil
    decreases |actions|
  {
    hide LeaseInv, Step;
    if actions != [] {
      StepLeases(cfg, s, actions[0]);
      DeadLeaseStep(cfg, s, actions[0], w);
      DeadLeaseStaysDead(cfg, Step(cfg, s, actions[0]), actions[1..], w);
    }
  }

  lemma DeadLeaseStep(cfg: Inventory, s: System, a: Action, w: WorkerId)
    requires LeaseInv(s) && w in s.workers && s.workers[w].started && LeaseDead(s.env.reg.clock, s.workers[w])
    ensures var s' := Step(cfg, s, a);
            && w in s'.workers && s'.workers[w].started && LeaseDead(s'.env.reg.clock, s'.workers[w])
            && s'.workers[w].leaseUntil == s.workers[w].leaseUntil
  {
    hide Core, ExclusiveOk, MarksOk, HoldersOk, WorkerStep, ReaperStep, RenewStep, AdmitEnv, AbortStep, Reserved;
    StepClock(cfg, s, a);
    if a.Work? && a.w == w {
      var kind := WorkerEffect(s.env, w, s.workers[w], a.x);
    } else if a == Renew(w) {
      RenewNeedsLife(s, w);
    }
  }

  lemma StepClock(cfg: Inventory, s: System, a: Action)
    requires LeaseInv(s)
    ensures s.env.reg.clock <= Step(cfg, s, a).env.reg.clock
  {
    hide Core, LeasesOk, ExclusiveOk, MarksOk, Step;
    StepKeeps(cfg, s, a);
  }

  /** When a reaper that loaded a run as running or committing comes to mark it lost, no worker that
    * started the run holds an unexpired lease, and none can ever renew one. */
  lemma ReaperMarksOnlyDeadWorkers(cfg: Inventory, before: seq<Action>, after: seq<Action>, r: nat, w: WorkerId)
    requires var s := Run(cfg, INITIAL, before);
             && r in s.reapers && MarksStarted(s.reapers[r].pc)
             && w in s.workers && s.workers[w].run == s.reapers[r].pc.id && s.workers[w].started
    ensures var s := Run(cfg, INITIAL, before);
            && LeaseDead(s.env.reg.clock, s.workers[w])
            && var s' := Run(cfg, s, after);
               && w in s'.workers && LeaseDead(s'.env.reg.clock, s'.workers[w])
               && s'.workers[w].leaseUntil == s.workers[w].leaseUntil
  {
    hide Core, LeasesOk, ExclusiveOk, Step;
    InitialLeases();
    RunLeases(cfg, INITIAL, before);
    DeadLeaseStaysDead(cfg, Run(cfg, INITIAL, before), after, w);
  }

  /** Some worker of the run holds its lease and it is still good. */
  ghost predicate HeldLive(s: System, id: RunId) {
    exists w ::
      && w in s.workers && s.workers[w].run == id
      && Holding(s.workers[w].pc) && s.env.reg.clock < s.workers[w].leaseUntil
  }

  /** The worker has started the run's command and its lease is still good. */
  ghost predicate StartedLive(s: System, w: WorkerId, id: RunId) {
    w in s.workers && s.workers[w].run == id && s.workers[w].started && !LeaseDead(s.env.reg.clock, s.workers[w])
  }

  /** The lease file, read now, is unexpired: what a reaper could check under `run.lock` before it marks. */
  predicate LeaseGood(e: Env, id: RunId) { id in e.leases && e.reg.clock < e.leases[id].expiresAt }

  /** A reaper about to mark a run lost takes it from a live worker if and only if the lease file is unexpired at
    * that moment; a live worker that has started is hit only by a reaper that loaded the run as staging. The mark
    * goes through whenever the run is not terminal. */
  lemma MarkHitsLiveWorkerExactly(cfg: Inventory, actions: seq<Action>, r: nat, choice: ReaperInput)
    requires var s := Run(cfg, INITIAL, actions); r in s.reapers && s.reapers[r].pc.RMark?
    ensures var s := Run(cfg, INITIAL, actions);
            var id, loaded := s.reapers[r].pc.id, s.reapers[r].pc.loaded;
            var s' := Step(cfg, s, Reap(r, choice));
            && (HeldLive(s, id) <==> LeaseGood(s.env, id))
            && (forall w :: StartedLive(s, w, id) ==> loaded.Staging?)
            && id in s.env.reg.records && id in s'.env.reg.records
            && s'.env.reg.records[id] == if IsTerminal(s.env.reg.records[id].state) then s.env.reg.records[id]
                                         else s.env.reg.records[id].(state := Lost, updatedAt := s.reapers[r].now)
  {
    hide Core;
    InitialLeases();
    RunLeases(cfg, INITIAL, actions);
    var s := Run(cfg, INITIAL, actions);
    var id := s.reapers[r].pc.id;
    ReaperIn(s, r);
    if LeaseGood(s.env, id) {
      var w := s.env.leases[id].owner;
      assert s.workers[w].run == id && Holding(s.workers[w].pc);
    }
  }

  /** A renewal extends the lease by thirty minutes if and only if the worker owns it and it is still good; otherwise
    * nothing changes and the worker knows that it has lost it. */
  lemma RenewedExactly(e: Env, w: WorkerId, me: Worker)
    requires Protocol.Holding(me.pc)
    ensures var t := RenewStep(e, w, me);
            var good := me.run in e.leases && e.leases[me.run].owner == w && e.reg.clock < e.leases[me.run].expiresAt;
            if good then
              && t.env == e.(leases := e.leases[me.run := Lease(w, e.reg.clock + 1800)])
              && t.me == me.(leaseUntil := e.reg.clock + 1800)
            else t.env == e && t.me == me.(lost := true)
  {
  }
}
