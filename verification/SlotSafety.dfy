/** Slot claims in the running system: capacity holds in every interleaving, and a pass leaks no slot. */
module SlotSafety {
  import opened RunModel
  import opened Records
  import opened StateDirectory
  import opened Chooser
  import opened Scheduler
  import opened Protocol
  import opened ProtocolCore
  import opened ReaperPass

  /** Claims stay within capacity and on the machine their run was made for. */
  ghost predicate SlotsOk(cfg: Inventory, e: Env) {
    && WithinCapacity(cfg, e.claims)
    && forall k :: k in e.claims ==> k.run in e.reg.minted && k.machine == e.reg.minted[k.run]
  }

  lemma FewerSlots(cfg: Inventory, e: Env, e': Env)
    requires SlotsOk(cfg, e) && e'.claims.Keys <= e.claims.Keys
    requires forall id :: id in e.reg.minted ==> id in e'.reg.minted && e'.reg.minted[id] == e.reg.minted[id]
    ensures SlotsOk(cfg, e')
  {
    FewerClaims(cfg, e.claims, e'.claims);
  }

  lemma ReserveSlots(cfg: Inventory, e: Env, id: RunId, now: Time)
    requires SlotsOk(cfg, e)
    ensures SlotsOk(cfg, ReserveEnv(cfg, e, id, now))
  {
    hide WithinCapacity, Active;
    if !Locked(e) && id in e.reg.minted && now <= e.reg.clock {
      ReserveWithinCapacity(cfg, e.claims, e.reg.records, e.reg.minted[id], id, now);
    }
  }

  lemma WorkerSlots(e: Env, w: WorkerId, me: Worker, x: WorkerInput)
    ensures WorkerStep(e, w, me, x).env.claims.Keys <= e.claims.Keys
  {
  }

  lemma ReaperSlots(e: Env, me: Reaper, choice: ReaperInput)
    ensures ReaperStep(e, me, choice).env.claims.Keys <= e.claims.Keys
  {
  }

  lemma AbortSlots(e: Env, pc: AbortPc)
    ensures AbortStep(e, pc).env.claims.Keys <= e.claims.Keys
  {
  }

  lemma StepSlots(cfg: Inventory, s: System, a: Action)
    requires Core(s) && SlotsOk(cfg, s.env)
    ensures SlotsOk(cfg, Step(cfg, s, a).env)
  {
    hide Core, SlotsOk, WorkerStep, ReaperStep, AbortStep, AdmitStep, RewriteParent, RenewStep, ReserveEnv;
    if a.ReserveSlot? {
      ReserveSlots(cfg, s.env, a.id, a.now);
    } else {
      match a {
        case Work(w, x) => if w in s.workers { WorkerSlots(s.env, w, s.workers[w], x); }
        case Renew(w) => if w in s.workers { RenewSlots(s.env, w, s.workers[w]); }
        case Reap(r, choice) => if r in s.reapers { ReaperSlots(s.env, s.reapers[r], choice); }
        case StepAbort(b) => if b in s.aborts { AbortSlots(s.env, s.aborts[b]); }
        case _ =>
      }
      StepKeeps(cfg, s, a);
      FewerSlots(cfg, s.env, Step(cfg, s, a).env);
    }
  }

  lemma RenewSlots(e: Env, w: WorkerId, me: Worker)
    ensures RenewStep(e, w, me).env.claims == e.claims
  {
  }

  lemma {:induction false} RunSlots(cfg: Inventory, s: System, actions: seq<Action>)
    requires Core(s) && SlotsOk(cfg, s.env)
    ensures Core(Run(cfg, s, actions)) && SlotsOk(cfg, Run(cfg, s, actions).env)
    decreases |actions|
  {
    hide Core, SlotsOk, Step;
    if actions != [] {
      StepSlots(cfg, s, actions[0]);
      StepKeeps(cfg, s, actions[0]);
      RunSlots(cfg, Step(cfg, s, actions[0]), actions[1..]);
    }
  }

  /** With a fixed inventory, no interleaving ever puts more claims on a machine than its capacity. */
  lemma CapacityInEveryRun(cfg: Inventory, actions: seq<Action>)
    ensures WithinCapacity(cfg, Run(cfg, INITIAL, actions).env.claims)
  {
    hide Step;
    InitialCore();
    RunSlots(cfg, INITIAL, actions);
  }

  /** From any reachable state, one uninterrupted pass at `now` leaks no slot. */
  lemma PassLeaksNoSlot(cfg: Inventory, actions: seq<Action>, now: Time, k: Slot)
    requires var e := Run(cfg, INITIAL, actions).env; k in PassClaims(e.reg.records, e.leases, e.claims, now)
    ensures var e := Run(cfg, INITIAL, actions).env;
            var rs' := AggregatedRecords(PassRecords(e.reg.records, e.leases, e.claims, now), now, e.reg.records.Keys);
            && Flat(e.reg.records)
            && k.run in rs' && k in e.claims
            && (IsTarget(rs'[k.run]) ==>
                  || ((rs'[k.run].state.Queued? || rs'[k.run].state.Staging?) && now - e.claims[k] < PRE_START_GRACE)
                  || (!IsTerminal(rs'[k.run].state) && WithinGrace(e.leases, k.run, now)))
  {
    hide Step, PassClaims, PassRecords, AggregatedRecords, WithinCapacity;
    InitialCore();
    InitialSlots(cfg);
    RunSlots(cfg, INITIAL, actions);
    var e := Run(cfg, INITIAL, actions).env;
    RecordsFitPass(cfg, e);
    NoSlotLeaks(e.reg.records, e.leases, e.claims, now, k);
  }

  /** From any reachable state, one uninterrupted pass at `now` keeps a target's record and claim exactly when the run
    * may still start or still runs, and marks it lost exactly when neither; nothing else about targets changes. */
  lemma PassKeepsExactly(cfg: Inventory, actions: seq<Action>, now: Time, id: RunId)
    requires OnRecord(Run(cfg, INITIAL, actions).env.reg, id)
    ensures var e := Run(cfg, INITIAL, actions).env;
            var rs, k := e.reg.records, Slot(e.reg.records[id].machine, id);
            var after := RecordsAfter(rs, e.leases, e.claims, now);
            var leased := id in e.leases && e.leases[id].expiresAt > now - 600;
            var young := k in e.claims && now - e.claims[k] < 60;
            && id in after
            && (after[id] != rs[id] <==> after[id].state.Lost? && !rs[id].state.Lost?)
            && (after[id] != rs[id] <==>
                  Begun(rs[id].state) && !leased && !(rs[id].state.Staging? && id !in e.leases && young))
            && (k in PassClaims(rs, e.leases, e.claims, now) <==>
                  k in e.claims && if rs[id].state.Queued? then young else Begun(rs[id].state) && after[id] == rs[id])
  {
    hide Step, PassClaims, RecordsAfter, WithinCapacity;
    InitialCore();
    InitialSlots(cfg);
    RunSlots(cfg, INITIAL, actions);
    var e := Run(cfg, INITIAL, actions).env;
    RecordsFitPass(cfg, e);
    MarkedLostExactly(e.reg.records, e.leases, e.claims, now, id);
    if Slot(e.reg.records[id].machine, id) in e.claims {
      ClaimKeptExactly(e.reg.records, e.leases, e.claims, now, id);
    } else {
      ClaimsOnlyShrink(e.reg.records, e.leases, e.claims, now);
    }
  }

  lemma InitialSlots(cfg: Inventory)
    ensures SlotsOk(cfg, INITIAL.env)
  {
  }

  lemma RecordsFitPass(cfg: Inventory, e: Env)
    requires RegistryOk(e.reg) && SlotsOk(cfg, e)
    ensures Flat(e.reg.records) && TargetsPlain(e.reg.records) && ClaimsPlaced(e.reg.records, e.claims)
  {
  }
}
