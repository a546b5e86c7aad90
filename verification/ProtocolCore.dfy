/** The structure every step keeps, and what follows for one record: it only moves forward. */
module ProtocolCore {
  import opened RunModel
  import opened Records
  import opened StateDirectory
  import opened Chooser
  import opened Scheduler
  import opened Protocol

  /** Created by the admission in progress, which may still roll it back. */
  predicate InFlight(g: Registry, id: RunId) {
    match g.admission
    case Some(Creating(_, _, created)) => id in created
    case Some(RollingBack(_, created)) => id in created
    case _ => false
  }

  /** A target run no rollback can remove. */
  ghost predicate Settled(g: Registry, id: RunId) {
    id in g.records && IsTarget(g.records[id]) && !InFlight(g, id)
  }

  ghost predicate AtLeast(g: Registry, id: RunId, k: nat) { Settled(g, id) && Rank(g.records[id].state) >= k }

  // ---------------------------------------------------------------- invariant

  predicate ParentState(s: RunState) { s.Queued? || s.Aborted? || s.Succeeded? || s.Failed? }

  ghost predicate RecordOk(g: Registry, id: RunId)
    requires id in g.records
  {
    var r := g.records[id];
    && id in g.minted && g.minted[id] == r.machine
    && !r.state.Aggregating?
    && (IsTarget(r) ==>
          r.machine != "" && r.children == [] && r.parent.value in g.minted && g.minted[r.parent.value] == "")
    && (!IsTarget(r) ==>
          && r.machine == "" && r.children != [] && ParentState(r.state)
          && forall c :: c in r.children ==> Settled(g, c) && g.records[c].parent == Some(id))
  }

  ghost predicate RecordsOk(g: Registry) { forall id :: id in g.records ==> RecordOk(g, id) }

  ghost predicate CreatedOk(g: Registry, pid: RunId, created: seq<RunId>) {
    && pid in g.minted && g.minted[pid] == "" && pid !in g.records
    && (forall i, j :: 0 <= i < j < |created| ==> created[i] != created[j])
    && (forall c :: c in created ==>
          && c in g.records && g.records[c].parent == Some(pid)
          && (g.records[c].state.Queued? || g.records[c].state.Aborted?))
  }

  ghost predicate AdmissionOk(g: Registry) {
    match g.admission
    case None => true
    case Some(Scanning(machines, _)) => ValidMachines(machines)
    case Some(Creating(machines, pid, created)) =>
      && ValidMachines(machines) && |created| <= |machines|
      && CreatedOk(g, pid, created)
      && (forall i :: 0 <= i < |created| ==> g.records[created[i]].machine == machines[i])
    case Some(RollingBack(pid, created)) => CreatedOk(g, pid, created)
  }

  ghost predicate PendingOk(g: Registry) {
    forall p :: p in g.pending ==>
      && p in g.records && !IsTarget(g.records[p]) && g.pending[p].state.Queued?
      && g.pending[p].machine == "" && g.pending[p].parent == None
      && g.pending[p].children == g.records[p].children
  }

  ghost predicate RegistryOk(g: Registry) { RecordsOk(g) && AdmissionOk(g) && PendingOk(g) }

  /** From its lease claim to the end of its lease a worker is on a settled run. */
  predicate Promoted(pc: WorkerPc) { pc.WClaim? || Holding(pc) }

  ghost predicate WorkerOk(g: Registry, me: Worker) {
    && me.run in g.minted
    && (!me.pc.WLoad? && !me.pc.WDone? ==> g.minted[me.run] != "")
    && (me.pc.WSlot? && me.pc.loaded.Staging? ==> AtLeast(g, me.run, 1))
    && (me.pc.WPromote? ==> !InFlight(g, me.run))
    && (Promoted(me.pc) ==> AtLeast(g, me.run, 1))
    && (me.started ==> AtLeast(g, me.run, 2))
  }

  ghost predicate IsParent(g: Registry, p: RunId) { p in g.records && !IsTarget(g.records[p]) }

  ghost predicate ReaperOk(g: Registry, me: Reaper) {
    && me.now <= g.clock
    && match me.pc
       case RLease(id, loaded) => AtLeast(g, id, Rank(loaded)) && 1 <= Rank(loaded) <= 3
       case RReservation(id) => AtLeast(g, id, 1)
       case RMark(id, loaded) => AtLeast(g, id, Rank(loaded)) && 1 <= Rank(loaded) <= 3
       case RAgg(p, _, _) => IsParent(g, p)
       case RAggWrite(p, state) => IsParent(g, p) && (state.Succeeded? || state.Failed?)
       case _ => true
  }

  ghost predicate SoloOk(g: Registry, id: RunId, loaded: RunState) {
    id in g.minted && g.minted[id] != "" && (Rank(loaded) >= 1 && !IsTerminal(loaded) ==> AtLeast(g, id, 1))
  }

  ghost predicate KidsOk(g: Registry, kids: seq<Kid>) {
    forall k :: k in kids ==> AtLeast(g, k.id, Rank(k.loaded))
  }

  ghost predicate AbortOk(g: Registry, pc: AbortPc) {
    match pc
    case BUp(id, p, loaded) => SoloOk(g, id, loaded) && p in g.minted && g.minted[p] == ""
    case BSolo(id, loaded) => SoloOk(g, id, loaded)
    case BList(p, _, kids) => IsParent(g, p) && KidsOk(g, kids)
    case BEach(p, kids, _) => IsParent(g, p) && KidsOk(g, kids)
    case BDrop(p, kids, _) => IsParent(g, p) && KidsOk(g, kids)
    case BParent(p) => IsParent(g, p)
    case _ => true
  }

  ghost predicate Core(s: System) {
    && RegistryOk(s.env.reg)
    && (forall w :: w in s.workers ==> WorkerOk(s.env.reg, s.workers[w]))
    && (forall r :: r in s.reapers ==> ReaperOk(s.env.reg, s.reapers[r]))
    && (forall b :: b in s.aborts ==> AbortOk(s.env.reg, s.aborts[b]))
  }

  // ---------------------------------------------------------------- what a step keeps

  /** Every record, whoever writes it, keeps its identity, and a target's only moves forward. */
  predicate SameRun(r: RunRecord, r': RunRecord) {
    && r'.machine == r.machine && r'.parent == r.parent && r'.children == r.children
    && (IsTarget(r) ==> Advances(r, r'))
  }

  /** Nothing an actor may remember about the registry becomes false. */
  ghost predicate Endures(g: Registry, g': Registry) {
    && g.clock <= g'.clock
    && (forall id :: id in g.minted ==> id in g'.minted && g'.minted[id] == g.minted[id])
    && (forall id :: id in g.minted && InFlight(g', id) ==> InFlight(g, id))
    && (forall id :: Settled(g, id) ==> Settled(g', id) && Advances(g.records[id], g'.records[id]))
    && (forall p :: IsParent(g, p) ==> IsParent(g', p) && g'.records[p].children == g.records[p].children)
  }

  /** What one step keeps. */
  ghost predicate Keeps(g: Registry, g': Registry) {
    && Endures(g, g')
    && (forall id :: id in g.records && id in g'.records ==> SameRun(g.records[id], g'.records[id]))
    && (forall id :: id in g.minted && g.minted[id] != "" && id !in g.records ==> id !in g'.records)
  }

  lemma KeepsSettled(g: Registry, g': Registry, id: RunId)
    requires Keeps(g, g') && Settled(g, id)
    ensures Settled(g', id) && Advances(g.records[id], g'.records[id])
  {
  }

  lemma WorkerStays(g: Registry, g': Registry, me: Worker)
    requires Keeps(g, g') && WorkerOk(g, me)
    ensures WorkerOk(g', me)
  {
  }

  lemma ReaperStays(g: Registry, g': Registry, me: Reaper)
    requires Keeps(g, g') && ReaperOk(g, me)
    ensures ReaperOk(g', me)
  {
  }

  lemma AbortStays(g: Registry, g': Registry, pc: AbortPc)
    requires Keeps(g, g') && AbortOk(g, pc)
    ensures AbortOk(g', pc)
  {
  }

  lemma RecordIn(g: Registry, id: RunId)
    requires RegistryOk(g) && id in g.records
    ensures RecordOk(g, id)
    ensures Rank(g.records[id].state) >= 1 && !IsTerminal(g.records[id].state) ==> Settled(g, id)
    ensures InFlight(g, id) ==> IsTarget(g.records[id])
  {
  }

  /** A record that kept its place is still well-formed in a later registry. */
  lemma RecordStays(g: Registry, g': Registry, k: RunId)
    requires k in g.records && RecordOk(g, k) && Keeps(g, g') && k in g'.records
    requires !g'.records[k].state.Aggregating?
    requires !IsTarget(g.records[k]) ==> ParentState(g'.records[k].state)
    ensures RecordOk(g', k)
  {
  }

  lemma RecordMovedKeeps(g: Registry, id: RunId, r': RunRecord)
    requires id in g.records && Advances(g.records[id], r')
    ensures Keeps(g, g.(records := g.records[id := r']))
  {
  }

  /** One record moved forward; the rest of the registry is as before. */
  lemma RecordMoved(g: Registry, id: RunId, r': RunRecord)
    requires RegistryOk(g) && id in g.records
    requires Advances(g.records[id], r') && !r'.state.Aggregating?
    requires InFlight(g, id) ==> r'.state.Queued? || r'.state.Aborted?
    requires !IsTarget(g.records[id]) ==> ParentState(r'.state)
    ensures var g' := g.(records := g.records[id := r']); Keeps(g, g') && RegistryOk(g')
  {
    hide Keeps, RecordOk;
    var g' := g.(records := g.records[id := r']);
    RecordMovedKeeps(g, id, r');
    forall k | k in g'.records ensures RecordOk(g', k) {
      RecordIn(g, k);
      RecordShape(g, k);
      RecordStays(g, g', k);
    }
  }

  lemma RecordShape(g: Registry, k: RunId)
    requires k in g.records && RecordOk(g, k)
    ensures !g.records[k].state.Aggregating? && (!IsTarget(g.records[k]) ==> ParentState(g.records[k].state))
  {
  }

  /** What a transition does to the registry: at most one record, moved forward. */
  lemma TransitionKeeps(g: Registry, id: RunId, to: RunState, now: Time)
    requires RegistryOk(g)
    requires to.Aborted? || (id in g.minted && g.minted[id] != "" && !InFlight(g, id))
    ensures var t := Transitioned(g.records, id, to, now);
            t.Some? ==> var g' := g.(records := t.value); Keeps(g, g') && RegistryOk(g')
  {
    hide Keeps, RegistryOk;
    if Transitioned(g.records, id, to, now).Some? {
      RecordIn(g, id);
      RecordMoved(g, id, g.records[id].(state := to, updatedAt := now));
    }
  }

  lemma AbortSingleKeeps(e: Env, id: RunId, loaded: RunState)
    requires RegistryOk(e.reg) && SoloOk(e.reg, id, loaded)
    ensures var t := AbortSingle(e, id, loaded);
            t.Some? ==> var g' := e.reg.(records := t.value); Keeps(e.reg, g') && RegistryOk(g')
  {
    hide Keeps, RegistryOk;
    var g := e.reg;
    if loaded.Queued? {
      TransitionKeeps(g, id, Aborted, g.clock);
    } else if AbortSingle(e, id, loaded).Some? {
      RecordIn(g, id);
      var r' := AbortSingle(e, id, loaded).value[id];
      RecordMoved(g, id, r');
      assert AbortSingle(e, id, loaded).value == g.records[id := r'];
    }
  }

  lemma KeepsSelf(g: Registry)
    ensures Keeps(g, g)
  {
  }

  // ---------------------------------------------------------------- admission

  lemma ChildKeeps(g: Registry, machines: seq<string>, pid: RunId, created: seq<RunId>, cid: RunId, path: string)
    requires RegistryOk(g) && g.admission == Some(Creating(machines, pid, created))
    requires cid !in g.minted && |created| < |machines|
    ensures var g' := CreateChild(g, machines, pid, created, cid, path); Keeps(g, g') && AdmissionOk(g')
  {
    hide RecordsOk, PendingOk;
    var g' := CreateChild(g, machines, pid, created, cid, path);
    MintedRecords(g);
    forall k | Settled(g, k) ensures Settled(g', k) && g'.records[k] == g.records[k] {}
  }

  lemma ChildCreated(g: Registry, machines: seq<string>, pid: RunId, created: seq<RunId>, cid: RunId, path: string)
    requires RegistryOk(g) && g.admission == Some(Creating(machines, pid, created))
    requires cid !in g.minted && |created| < |machines|
    ensures var g' := CreateChild(g, machines, pid, created, cid, path); Keeps(g, g') && RegistryOk(g')
  {
    hide Keeps;
    var g' := CreateChild(g, machines, pid, created, cid, path);
    ChildKeeps(g, machines, pid, created, cid, path);
    MintedRecords(g);
    assert machines[|created|] in machines;
    forall k | k in g'.records ensures RecordOk(g', k) {
      if k != cid { RecordStays(g, g', k); }
    }
  }

  lemma ParentSavedKeeps(g: Registry, machines: seq<string>, pid: RunId, created: seq<RunId>, path: string,
                         submission: bool)
    requires RegistryOk(g) && g.admission == Some(Creating(machines, pid, created)) && |created| == |machines|
    ensures Keeps(g, SaveParent(g, pid, created, path, submission))
  {
    hide RecordsOk, PendingOk;
    var g' := SaveParent(g, pid, created, path, submission);
    forall k | Settled(g, k) ensures Settled(g', k) && g'.records[k] == g.records[k] {}
  }

  lemma ParentSaved(g: Registry, machines: seq<string>, pid: RunId, created: seq<RunId>, path: string, submission: bool)
    requires RegistryOk(g) && g.admission == Some(Creating(machines, pid, created)) && |created| == |machines|
    ensures var g' := SaveParent(g, pid, created, path, submission); Keeps(g, g') && RegistryOk(g')
  {
    hide Keeps;
    var g' := SaveParent(g, pid, created, path, submission);
    ParentSavedKeeps(g, machines, pid, created, path, submission);
    forall k | k in g'.records ensures RecordOk(g', k) {
      if k in g.records { RecordStays(g, g', k); }
    }
  }

  lemma UndoneKeeps(g: Registry, pid: RunId, created: seq<RunId>)
    requires RegistryOk(g) && g.admission == Some(RollingBack(pid, created)) && created != []
    ensures Keeps(g, AdmitStep(g, AUndo)) && AdmissionOk(AdmitStep(g, AUndo))
  {
    hide RecordsOk, PendingOk;
    var g' := AdmitStep(g, AUndo);
    var gone := created[0];
    assert gone in created && IsTarget(g.records[gone]);
    assert forall c :: c in created <==> c == gone || c in created[1..];
    assert gone !in created[1..];
    forall k | Settled(g, k) ensures Settled(g', k) && g'.records[k] == g.records[k] {}
  }

  lemma Undone(g: Registry, pid: RunId, created: seq<RunId>)
    requires RegistryOk(g) && g.admission == Some(RollingBack(pid, created)) && created != []
    ensures var g' := AdmitStep(g, AUndo); Keeps(g, g') && RegistryOk(g')
  {
    hide Keeps, RecordOk;
    var g' := AdmitStep(g, AUndo);
    UndoneKeeps(g, pid, created);
    assert created[0] in created;
    forall k | k in g'.records ensures RecordOk(g', k) {
      RecordShape(g, k);
      RecordStays(g, g', k);
    }
  }

  /** Steps of an admission that touch no record. */
  lemma AdmissionOnly(g: Registry, g': Registry)
    requires RegistryOk(g) && g'.records == g.records && g'.clock == g.clock && g'.pending == g.pending
    requires forall id :: id in g.minted ==> id in g'.minted && g'.minted[id] == g.minted[id]
    requires forall id :: InFlight(g', id) ==> InFlight(g, id)
    requires AdmissionOk(g')
    ensures Keeps(g, g') && RegistryOk(g')
  {
  }

  lemma MintedRecords(g: Registry)
    requires RegistryOk(g)
    ensures forall id :: id in g.records ==> id in g.minted
  {
  }

  lemma AdmitKeeps(g: Registry, x: AdmitInput)
    requires RegistryOk(g)
    ensures Keeps(g, AdmitStep(g, x)) && RegistryOk(AdmitStep(g, x))
  {
    hide Keeps, RecordsOk, PendingOk;
    var g' := AdmitStep(g, x);
    MintedRecords(g);
    if g' == g {
      KeepsSelf(g);
    } else {
      match x {
        case AChild(cid, path) =>
          ChildCreated(g, g.admission.value.machines, g.admission.value.parentId, g.admission.value.created, cid, path);
        case AParent(path, submission) =>
          ParentSaved(g, g.admission.value.machines, g.admission.value.parentId, g.admission.value.created, path,
                      submission);
        case AUndo =>
          if g.admission.value.created != [] { Undone(g, g.admission.value.parentId, g.admission.value.created); }
          else { AdmissionOnly(g, g'); }
        case _ => AdmissionOnly(g, g');
      }
    }
  }

  lemma AdmitReg(cfg: Inventory, s: System, x: AdmitInput)
    ensures AdmitEnv(s.env, x).reg == AdmitStep(s.env.reg, x) && Step(cfg, s, Admit(x)).env == AdmitEnv(s.env, x)
  {
  }

  lemma RewriteOnlyParent(g: Registry, p: RunId, path: string)
    requires RegistryOk(g)
    ensures Keeps(g, RewriteParent(g, p, path))
  {
    hide RecordsOk, AdmissionOk;
    var g' := RewriteParent(g, p, path);
    MintedRecords(g);
    if p in g.pending { RecordIn(g, p); }
    forall k | Settled(g, k) ensures Settled(g', k) && g'.records[k] == g.records[k] {}
  }

  lemma RewriteKeeps(g: Registry, p: RunId, path: string)
    requires RegistryOk(g)
    ensures var g' := RewriteParent(g, p, path); Keeps(g, g') && RegistryOk(g')
  {
    hide Keeps, RecordOk;
    var g' := RewriteParent(g, p, path);
    RewriteOnlyParent(g, p, path);
    if p in g.records { RecordIn(g, p); ParentShape(g, p); }
    forall k | k in g'.records ensures RecordOk(g', k) {
      RecordShape(g, k);
      RecordStays(g, g', k);
    }
  }

  lemma ParentShape(g: Registry, p: RunId)
    requires p in g.records && RecordOk(g, p)
    ensures !IsTarget(g.records[p]) ==> g.records[p].machine == ""
  {
  }

  // ---------------------------------------------------------------- the other actors

  /** The worker's transitions keep the registry's structure. */
  lemma WorkerRegistry(e: Env, w: WorkerId, me: Worker, x: WorkerInput)
    requires RegistryOk(e.reg) && WorkerOk(e.reg, me)
    ensures var t := WorkerStep(e, w, me, x); Keeps(e.reg, t.env.reg) && RegistryOk(t.env.reg)
  {
    hide Keeps, RegistryOk;
    KeepsSelf(e.reg);
    match me.pc {
      case WPromote => TransitionKeeps(e.reg, me.run, Staging, e.reg.clock);
      case WStart => TransitionKeeps(e.reg, me.run, Running, e.reg.clock);
      case WCommit(_) => TransitionKeeps(e.reg, me.run, Committing, e.reg.clock);
      case WFinish(res) => TransitionKeeps(e.reg, me.run, res.state, e.reg.clock);
      case WAbortOut => TransitionKeeps(e.reg, me.run, Aborted, e.reg.clock);
      case WLostOut => TransitionKeeps(e.reg, me.run, Lost, e.reg.clock);
      case _ =>
    }
  }

  lemma WorkerKeeps(e: Env, w: WorkerId, me: Worker, x: WorkerInput)
    requires RegistryOk(e.reg) && WorkerOk(e.reg, me)
    ensures var t := WorkerStep(e, w, me, x);
            Keeps(e.reg, t.env.reg) && RegistryOk(t.env.reg) && WorkerOk(t.env.reg, t.me)
  {
    hide Keeps, RegistryOk, WorkerStep;
    var t := WorkerStep(e, w, me, x);
    WorkerRegistry(e, w, me, x);
    WorkerStays(e.reg, t.env.reg, me);
    if me.pc.WLoad? || me.pc.WSlot? || me.pc.WPromote? || me.pc.WStart? {
      WorkerEnters(e, w, me, x);
    } else {
      WorkerProceeds(e, w, me, x);
    }
  }

  lemma WorkerEnters(e: Env, w: WorkerId, me: Worker, x: WorkerInput)
    requires RegistryOk(e.reg) && WorkerOk(e.reg, me)
    requires me.pc.WLoad? || me.pc.WSlot? || me.pc.WPromote? || me.pc.WStart?
    ensures var t := WorkerStep(e, w, me, x); WorkerOk(t.env.reg, t.me)
  {
    hide RegistryOk;
    if me.run in e.reg.records { RecordIn(e.reg, me.run); }
  }

  /** Past the claim only the program counter and the lease fields change. */
  lemma WorkerProceeds(e: Env, w: WorkerId, me: Worker, x: WorkerInput)
    requires !(me.pc.WLoad? || me.pc.WSlot? || me.pc.WPromote? || me.pc.WStart?)
    ensures var t := WorkerStep(e, w, me, x);
            && t.me.run == me.run && t.me.started == me.started
            && (Promoted(me.pc) ==> Promoted(t.me.pc) || t.me.pc.WReleaseSlot?)
            && (!Promoted(me.pc) ==> t.me.pc.WReleaseSlot? || t.me.pc.WDone?)
            && (t.me.pc.WReleaseSlot? ==> !me.pc.WDone?)
            && !t.me.pc.WLoad? && !t.me.pc.WSlot? && !t.me.pc.WPromote?
  {
  }

  lemma ReaperKeeps(e: Env, me: Reaper, choice: ReaperInput)
    requires RegistryOk(e.reg) && ReaperOk(e.reg, me)
    ensures var t := ReaperStep(e, me, choice);
            Keeps(e.reg, t.env.reg) && RegistryOk(t.env.reg) && ReaperOk(t.env.reg, t.me)
  {
    hide Keeps, RegistryOk;
    KeepsSelf(e.reg);
    match me.pc {
      case RMark(id, _) =>
        RecordIn(e.reg, id);
        TransitionKeeps(e.reg, id, Lost, me.now);
      case RAggWrite(p, state) =>
        RecordIn(e.reg, p);
        if !IsTerminal(e.reg.records[p].state) {
          RecordMoved(e.reg, p, e.reg.records[p].(state := state, updatedAt := me.now));
        }
      case RIdle =>
        if choice.RScan? && choice.id in e.reg.records { RecordIn(e.reg, choice.id); }
        if choice.RAggregate? && choice.p in e.reg.records { RecordIn(e.reg, choice.p); }
      case _ =>
    }
  }

  lemma AbortKeeps(e: Env, pc: AbortPc)
    requires RegistryOk(e.reg) && AbortOk(e.reg, pc)
    ensures var t := AbortStep(e, pc);
            Keeps(e.reg, t.env.reg) && RegistryOk(t.env.reg) && AbortOk(t.env.reg, t.me)
  {
    hide Keeps, RegistryOk;
    var t := AbortStep(e, pc);
    KeepsSelf(e.reg);
    match pc {
      case BLoad(id) => if id in e.reg.records { RecordIn(e.reg, id); }
      case BUp(id, p, loaded) => if p in e.reg.records { RecordIn(e.reg, p); }
      case BList(p, i, kids) => RecordIn(e.reg, p);
      case BEach(p, kids, i) =>
        if i < |kids| {
          RecordIn(e.reg, kids[i].id);
          AbortSingleKeeps(e, kids[i].id, kids[i].loaded);
        }
      case BSolo(id, loaded) => AbortSingleKeeps(e, id, loaded);
      case BParent(p) => TransitionKeeps(e.reg, p, Aborted, e.reg.clock);
      case _ =>
    }
    AbortStays(e.reg, t.env.reg, pc);
  }

  // ---------------------------------------------------------------- every step, every run

  lemma ActorsStay(s: System, g': Registry)
    requires Core(s) && Keeps(s.env.reg, g')
    ensures forall w :: w in s.workers ==> WorkerOk(g', s.workers[w])
    ensures forall r :: r in s.reapers ==> ReaperOk(g', s.reapers[r])
    ensures forall b :: b in s.aborts ==> AbortOk(g', s.aborts[b])
  {
    hide Keeps, WorkerOk, ReaperOk, AbortOk, RegistryOk;
    forall w | w in s.workers ensures WorkerOk(g', s.workers[w]) { WorkerStays(s.env.reg, g', s.workers[w]); }
    forall r | r in s.reapers ensures ReaperOk(g', s.reapers[r]) { ReaperStays(s.env.reg, g', s.reapers[r]); }
    forall b | b in s.aborts ensures AbortOk(g', s.aborts[b]) { AbortStays(s.env.reg, g', s.aborts[b]); }
  }

  lemma TickKeeps(g: Registry, d: nat)
    requires RegistryOk(g)
    ensures var g' := g.(clock := g.clock + d); Keeps(g, g') && RegistryOk(g')
  {
  }

  lemma RenewKeeps(e: Env, w: WorkerId, me: Worker)
    requires WorkerOk(e.reg, me)
    ensures var t := RenewStep(e, w, me); t.env.reg == e.reg && WorkerOk(e.reg, t.me)
  {
  }

  /** The structure is inductive, and no step falsifies what an actor remembers. */
  lemma StepKeeps(cfg: Inventory, s: System, a: Action)
    requires Core(s)
    ensures Core(Step(cfg, s, a)) && Keeps(s.env.reg, Step(cfg, s, a).env.reg)
  {
    hide Keeps, WorkerOk, ReaperOk, AbortOk, RegistryOk, WorkerStep, ReaperStep, AbortStep, AdmitStep;
    hide RenewStep, Reserved;
    var e, s' := s.env, Step(cfg, s, a);
    KeepsSelf(e.reg);
    match a {
      case Tick(d) => TickKeeps(e.reg, d);
      case Admit(x) => AdmitKeeps(e.reg, x);
      case Rewrite(p, path) => RewriteKeeps(e.reg, p, path);
      case Launch(w, id) => if s' != s { Launched(e.reg, id); }
      case Work(w, x) => if w in s.workers { WorkerKeeps(e, w, s.workers[w], x); }
      case Renew(w) => if w in s.workers { RenewKeeps(e, w, s.workers[w]); }
      case StartReaper(r) => if s' != s { ReaperBegun(e.reg); }
      case Reap(r, choice) => if r in s.reapers { ReaperKeeps(e, s.reapers[r], choice); }
      case StartAbort(b, id) => if s' != s { AbortBegun(e.reg, id); }
      case StepAbort(b) => if b in s.aborts { AbortKeeps(e, s.aborts[b]); }
      case _ =>
    }
    ActorsStay(s, s'.env.reg);
  }

  lemma Launched(g: Registry, id: RunId)
    requires id in g.minted
    ensures WorkerOk(g, Worker(id, WLoad, false, false, 0, 0))
  {
  }

  lemma ReaperBegun(g: Registry)
    ensures ReaperOk(g, Reaper(g.clock, RIdle))
  {
  }

  lemma AbortBegun(g: Registry, id: RunId)
    ensures AbortOk(g, BLoad(id))
  {
  }

  lemma EnduresTrans(a: Registry, b: Registry, c: Registry)
    requires Endures(a, b) && Endures(b, c)
    ensures Endures(a, c)
  {
  }

  lemma {:induction false} RunKeeps(cfg: Inventory, s: System, actions: seq<Action>)
    requires Core(s)
    ensures Core(Run(cfg, s, actions)) && Endures(s.env.reg, Run(cfg, s, actions).env.reg)
    decreases |actions|
  {
    hide Core, Endures, Step;
    if actions == [] {
      KeepsSelf(s.env.reg);
    } else {
      var s1 := Step(cfg, s, actions[0]);
      StepKeeps(cfg, s, actions[0]);
      RunKeeps(cfg, s1, actions[1..]);
      EnduresTrans(s.env.reg, s1.env.reg, Run(cfg, s, actions).env.reg);
    }
  }

  lemma {:induction false} RunAppend(cfg: Inventory, s: System, a: seq<Action>, b: seq<Action>)
    ensures Run(cfg, s, a + b) == Run(cfg, Run(cfg, s, a), b)
    decreases |a|
  {
    hide Step;
    if a == [] {
      assert a + b == b;
    } else {
      assert (a + b)[1..] == a[1..] + b;
      RunAppend(cfg, Step(cfg, s, a[0]), a[1..], b);
    }
  }

  lemma InitialCore()
    ensures Core(INITIAL)
  {
  }

  // ---------------------------------------------------------------- one target over a run

  ghost predicate OnRecord(g: Registry, id: RunId) { id in g.records && IsTarget(g.records[id]) }

  /** A target that was rolled back never comes back. */
  lemma {:induction false} GoneForGood(cfg: Inventory, s: System, actions: seq<Action>, id: RunId)
    requires Core(s) && id in s.env.reg.minted && s.env.reg.minted[id] != "" && id !in s.env.reg.records
    ensures id !in Run(cfg, s, actions).env.reg.records
    decreases |actions|
  {
    hide Core, Step;
    if actions != [] {
      StepKeeps(cfg, s, actions[0]);
      GoneForGood(cfg, Step(cfg, s, actions[0]), actions[1..], id);
    }
  }

  /** How often the run changes a target's state while it is on record. */
  ghost function StateChanges(cfg: Inventory, s: System, actions: seq<Action>, id: RunId): nat
    decreases |actions|
  {
    if actions == [] then 0
    else
      var s1 := Step(cfg, s, actions[0]);
      var changed := OnRecord(s.env.reg, id) && OnRecord(s1.env.reg, id)
                     && s1.env.reg.records[id].state != s.env.reg.records[id].state;
      (if changed then 1 else 0) + StateChanges(cfg, s1, actions[1..], id)
  }

  lemma {:induction false} NoChangesWhenGone(cfg: Inventory, s: System, actions: seq<Action>, id: RunId)
    requires Core(s) && id in s.env.reg.minted && s.env.reg.minted[id] != "" && id !in s.env.reg.records
    ensures StateChanges(cfg, s, actions, id) == 0
    decreases |actions|
  {
    hide Core, Step;
    if actions != [] {
      StepKeeps(cfg, s, actions[0]);
      NoChangesWhenGone(cfg, Step(cfg, s, actions[0]), actions[1..], id);
    }
  }

  lemma TargetMinted(s: System, id: RunId)
    requires Core(s) && OnRecord(s.env.reg, id)
    ensures id in s.env.reg.minted && s.env.reg.minted[id] != ""
  {
    RecordIn(s.env.reg, id);
  }

  /** A target never moves back, and changes state no more often than its rank rises: four times at most. It can
    * only leave the record by the rollback of the admission that is still creating it, and then for good. */
  lemma {:induction false} TargetMovesForward(cfg: Inventory, s: System, actions: seq<Action>, id: RunId)
    requires Core(s) && OnRecord(s.env.reg, id)
    ensures var g, g' := s.env.reg, Run(cfg, s, actions).env.reg;
            var rank := Rank(g.records[id].state);
            && StateChanges(cfg, s, actions, id) <= 4 - rank
            && (Settled(g, id) ==> Settled(g', id))
            && (id in g'.records ==>
                  && OnRecord(g', id) && Advances(g.records[id], g'.records[id])
                  && StateChanges(cfg, s, actions, id) <= Rank(g'.records[id].state) - rank)
    decreases |actions|
  {
    hide Core, Step;
    RunKeeps(cfg, s, actions);
    TargetMinted(s, id);
    if actions != [] {
      StepKeeps(cfg, s, actions[0]);
      var s1 := Step(cfg, s, actions[0]);
      if id in s1.env.reg.records {
        TargetMovesForward(cfg, s1, actions[1..], id);
      } else {
        GoneForGood(cfg, s1, actions[1..], id);
        NoChangesWhenGone(cfg, s1, actions[1..], id);
      }
    }
  }
}
