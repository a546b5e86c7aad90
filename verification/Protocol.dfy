/** The coordinator run protocol: every process acting on the shared durable state, one step at a time.
  * Each section under `run.lock` or the scheduler lock is one step, and so is each unlocked read, so an
  * actor always acts on observations that may already be stale. A crashed actor is one that takes no
  * further step. Admission holds the scheduler lock across many steps. */
module Protocol {
  import opened RunModel
  import opened Records
  import opened StateDirectory
  import opened Chooser
  import opened Scheduler

  /** Reaper grace past a lease's expiry (10 minutes) and past a reservation (60 seconds). */
  const RENEWAL_GRACE: Time := 600
  const PRE_START_GRACE: Time := 60

  // ---------------------------------------------------------------- actors

  /** Admission, in the order it works: busy scan, record creation, rollback after a failed save. */
  datatype Admission =
    | Scanning(machines: seq<string>, remaining: set<RunId>)
    | Creating(machines: seq<string>, parentId: RunId, created: seq<RunId>)
    | RollingBack(parentId: RunId, created: seq<RunId>)

  datatype Outcome = Outcome(exitCode: int, execError: bool, unavailable: bool)

  /** Where a worker is in executing its prepared run. */
  datatype WorkerPc =
    | WLoad
    | WSlot(loaded: RunState)
    | WPromote
    | WClaim
    | WRecheck
    | WPreCancel
    | WPopulate
    | WPopulateFailed
    | WPostCancel
    | WStart
    | WExec
    | WJudge(outcome: Outcome)
    | WCommit(res: BuildResult)
    | WPublish(res: BuildResult)
    | WFinish(res: BuildResult)
    | WAbortOut
    | WLostOut
    | WReleaseLease
    | WReleaseSlot
    | WDone

  /** `started`: moved its run to running. `lost`: a renewal failed. `leaseUntil`: expiry of its lease
    * as last written. `endedAt`: when it gave the lease up. */
  datatype Worker = Worker(run: RunId, pc: WorkerPc, started: bool, lost: bool, leaseUntil: Time, endedAt: Time)

  datatype ReaperPc =
    | RIdle
    | RSlot(id: RunId)
    | RDrop(id: RunId)
    | RLease(id: RunId, loaded: RunState)
    | RReservation(id: RunId)
    | RMark(id: RunId, loaded: RunState)
    | RAgg(p: RunId, i: nat, seen: seq<RunState>)
    | RAggWrite(p: RunId, state: RunState)

  /** A pass uses the time it began with throughout. */
  datatype Reaper = Reaper(now: Time, pc: ReaperPc)

  datatype Kid = Kid(id: RunId, loaded: RunState)

  datatype AbortPc =
    | BLoad(id: RunId)
    | BUp(id: RunId, parent: RunId, loaded: RunState)
    | BList(p: RunId, i: nat, kids: seq<Kid>)
    | BEach(p: RunId, kids: seq<Kid>, i: nat)
    | BDrop(p: RunId, kids: seq<Kid>, i: nat)
    | BParent(p: RunId)
    | BDone(p: RunId)
    | BSolo(id: RunId, loaded: RunState)
    | BFree(id: RunId)
    | BEnd

  /** The run directory with the clock and the scheduler lock's holder. `minted` remembers each run id
    * ever issued with its machine ("" for a build request); `pending` holds the copies of build requests
    * that submissions will still save. */
  datatype Registry = Registry(
    clock: Time,
    records: RecordMap,
    minted: map<RunId, string>,
    admission: Option<Admission>,
    pending: map<RunId, RunRecord>)

  /** Everything the processes share. */
  datatype Env = Env(reg: Registry, leases: LeaseMap, results: ResultMap, claims: ClaimMap)

  datatype System = System(
    env: Env, workers: map<WorkerId, Worker>, reapers: map<nat, Reaper>, aborts: map<nat, AbortPc>)

  const INITIAL := System(Env(Registry(0, map[], map[], None, map[]), map[], map[], map[]), map[], map[], map[])

  // ---------------------------------------------------------------- actions

  datatype AdmitInput =
    | AStart(machines: seq<string>)
    | AScan(id: RunId)
    | ABegin(parentId: RunId)
    | AChild(childId: RunId, path: string)
    | AFail
    | AUndo
    | AParent(source: string, submission: bool)
    | ACrash

  /** What the environment decides about a worker's step. */
  datatype WorkerInput = WorkerInput(ok: bool, renameFailed: bool, cancelled: bool, outcome: Outcome)

  datatype ReaperInput = RScan(id: RunId) | RSweep | RAggregate(p: RunId)

  datatype Action =
    | Tick(d: nat)
    | Admit(input: AdmitInput)
    | Rewrite(p: RunId, path: string)
    | ReserveSlot(id: RunId, now: Time)
    | DropSlot(id: RunId)
    | Launch(w: WorkerId, id: RunId)
    | Work(w: WorkerId, x: WorkerInput)
    | Renew(w: WorkerId)
    | StartReaper(r: nat)
    | Reap(r: nat, choice: ReaperInput)
    | StartAbort(b: nat, id: RunId)
    | StepAbort(b: nat)

  predicate Locked(e: Env) { e.reg.admission.Some? }

  function MachineOf(e: Env, id: RunId): string { if id in e.reg.minted then e.reg.minted[id] else "" }

  function SlotOf(e: Env, id: RunId): Slot { Slot(MachineOf(e, id), id) }

  predicate CancelSeen(e: Env, id: RunId) { id in e.reg.records && e.reg.records[id].cancelAt.Some? }

  /** Saves the records an operation left behind, if it succeeded. */
  function Save(e: Env, rs: Option<RecordMap>): Env {
    if rs.Some? then e.(reg := e.reg.(records := rs.value)) else e
  }

  function FreeSlot(e: Env, id: RunId): Env { e.(claims := Released(e.claims, MachineOf(e, id), id)) }

  predicate DistinctStrings(xs: seq<string>) { forall i, j :: 0 <= i < j < |xs| ==> xs[i] != xs[j] }

  /** What configuration validation promises of a project's machine list. */
  predicate ValidMachines(ms: seq<string>) { ms != [] && DistinctStrings(ms) && "" !in ms }

  // ---------------------------------------------------------------- admission

  function AdmitStep(g: Registry, x: AdmitInput): Registry {
    match x
    case AStart(machines) =>
      if g.admission.None? && ValidMachines(machines) then g.(admission := Some(Scanning(machines, g.records.Keys)))
      else g
    case AScan(id) =>
      (match g.admission
       case Some(Scanning(machines, remaining)) =>
         if id !in remaining then g
         else if id in g.records && Live(g.records[id]) then g.(admission := None)
         else g.(admission := Some(Scanning(machines, remaining - {id})))
       case _ => g)
    case ABegin(pid) =>
      (match g.admission
       case Some(Scanning(machines, remaining)) =>
         if remaining == {} && pid !in g.minted then
           g.(minted := g.minted[pid := ""], admission := Some(Creating(machines, pid, [])))
         else g
       case _ => g)
    case AChild(cid, path) =>
      (match g.admission
       case Some(Creating(machines, pid, created)) =>
         if cid !in g.minted && |created| < |machines| then CreateChild(g, machines, pid, created, cid, path) else g
       case _ => g)
    case AFail =>
      (match g.admission
       case Some(Creating(_, pid, created)) => g.(admission := Some(RollingBack(pid, created)))
       case _ => g)
    case AUndo =>
      (match g.admission
       case Some(RollingBack(pid, created)) =>
         if created == [] then g.(admission := None)
         else g.(records := g.records - {created[0]}, admission := Some(RollingBack(pid, created[1..])))
       case _ => g)
    case AParent(path, submission) =>
      (match g.admission
       case Some(Creating(machines, pid, created)) =>
         if |created| == |machines| then SaveParent(g, pid, created, path, submission) else g
       case _ => g)
    case ACrash => g.(admission := None)
  }

  function CreateChild(g: Registry, machines: seq<string>, pid: RunId, created: seq<RunId>, cid: RunId,
                       path: string): Registry
    requires |created| < |machines|
  {
    var machine := machines[|created|];
    g.(minted := g.minted[cid := machine],
       records := g.records[cid := RunRecord(machine, Queued, g.clock, None, Some(pid), [], path)],
       admission := Some(Creating(machines, pid, created + [cid])))
  }

  function SaveParent(g: Registry, pid: RunId, created: seq<RunId>, path: string, submission: bool): Registry {
    var parent := RunRecord("", Queued, g.clock, None, None, created, path);
    g.(records := g.records[pid := parent], admission := None,
       pending := if submission then g.pending[pid := parent] else g.pending)
  }

  /** A rollback removes the whole run directory. */
  function AdmitEnv(e: Env, x: AdmitInput): Env {
    var g := AdmitStep(e.reg, x);
    var gone := e.reg.records.Keys - g.records.Keys;
    Env(g, e.leases - gone, e.results - gone, e.claims)
  }

  // ---------------------------------------------------------------- workers

  /** An actor's step: the shared state and its own state afterwards. */
  datatype Acted<T> = Acted(env: Env, me: T)

  function Goto(e: Env, me: Worker, pc: WorkerPc): Acted<Worker> { Acted(e, me.(pc := pc)) }

  function TryTransition(e: Env, me: Worker, to: RunState, onOk: WorkerPc, onError: WorkerPc): Acted<Worker> {
    var rs := Transitioned(e.reg.records, me.run, to, e.reg.clock);
    Goto(Save(e, rs), me, if rs.Some? then onOk else onError)
  }

  /** The state and exit code a worker reports. */
  function Judged(o: Outcome, cancelled: bool): BuildResult {
    BuildResult(
      if cancelled then Aborted
      else if o.execError then (if o.unavailable then Unavailable else Failed)
      else if o.exitCode != 0 then Failed
      else Succeeded,
      o.exitCode)
  }

  function WorkerStep(e: Env, w: WorkerId, me: Worker, x: WorkerInput): Acted<Worker> {
    var id := me.run;
    match me.pc
    case WLoad =>
      if id !in e.reg.records || e.reg.records[id].parent.None? || e.reg.records[id].state.Aborted? then
        Goto(e, me, WDone)
      else Goto(e, me, WSlot(e.reg.records[id].state))
    case WSlot(loaded) =>
      if Locked(e) then Acted(e, me)
      else if SlotOf(e, id) !in e.claims then Goto(e, me, WDone)
      else Goto(e, me, if loaded.Queued? then WPromote else if loaded.Staging? then WClaim else WDone)
    case WPromote => TryTransition(e, me, Staging, WClaim, WDone)
    case WClaim => ClaimLease(e, w, me)
    case WRecheck =>
      Goto(e, me, if id in e.reg.records && e.reg.records[id].state.Staging? && x.ok then WPreCancel else WReleaseLease)
    case WPreCancel => Goto(e, me, if CancelSeen(e, id) then WAbortOut else WPopulate)
    case WPopulate => Goto(e, me, if x.ok then WPostCancel else if x.renameFailed then WLostOut else WPopulateFailed)
    case WPopulateFailed => Goto(e, me, if CancelSeen(e, id) then WAbortOut else WLostOut)
    case WPostCancel => Goto(e, me, if CancelSeen(e, id) then WAbortOut else WStart)
    case WStart =>
      var rs := Transitioned(e.reg.records, id, Running, e.reg.clock);
      Acted(Save(e, rs), if rs.Some? then me.(pc := WExec, started := true) else me.(pc := WReleaseLease))
    case WExec => Goto(e, me, if me.lost || !x.ok then WReleaseLease else WJudge(x.outcome))
    case WJudge(o) => Goto(e, me, WCommit(Judged(o, x.cancelled || CancelSeen(e, id))))
    case WCommit(res) => TryTransition(e, me, Committing, WPublish(res), WReleaseLease)
    case WPublish(res) =>
      var rs := Published(e.reg.records, e.results, id, res);
      if rs.Some? then Goto(e.(results := rs.value), me, WFinish(res)) else Goto(e, me, WReleaseLease)
    case WFinish(res) => TryTransition(e, me, res.state, WReleaseLease, WReleaseLease)
    case WAbortOut => TryTransition(e, me, Aborted, WReleaseLease, WReleaseLease)
    case WLostOut => TryTransition(e, me, Lost, WReleaseLease, WReleaseLease)
    case WReleaseLease =>
      var ls := LeaseReleased(e.leases, id, w);
      Acted(if ls.Some? then e.(leases := ls.value) else e, me.(pc := WReleaseSlot, endedAt := e.reg.clock))
    case WReleaseSlot => if Locked(e) then Acted(e, me) else Goto(FreeSlot(e, id), me, WDone)
    case WDone => Acted(e, me)
  }

  function ClaimLease(e: Env, w: WorkerId, me: Worker): Acted<Worker> {
    var ls := LeaseClaimed(e.leases, me.run, w, e.reg.clock, LEASE_TTL);
    if ls.Some? then Acted(e.(leases := ls.value), me.(pc := WRecheck, leaseUntil := e.reg.clock + LEASE_TTL))
    else Goto(e, me, WReleaseSlot)
  }

  /** A lease file may be this worker's from its claim until it gives the lease up. */
  predicate Holding(pc: WorkerPc) {
    !(pc.WLoad? || pc.WSlot? || pc.WPromote? || pc.WClaim? || pc.WReleaseSlot? || pc.WDone?)
  }

  function RenewStep(e: Env, w: WorkerId, me: Worker): Acted<Worker> {
    if !Holding(me.pc) then Acted(e, me)
    else
      var ls := LeaseRenewed(e.leases, me.run, w, e.reg.clock, LEASE_TTL);
      if ls.Some? then Acted(e.(leases := ls.value), me.(leaseUntil := e.reg.clock + LEASE_TTL))
      else Acted(e, me.(lost := true))
  }

  // ---------------------------------------------------------------- reaper

  function RGoto(e: Env, me: Reaper, pc: ReaperPc): Acted<Reaper> { Acted(e, me.(pc := pc)) }

  /** The run's slot was claimed less than the pre-start grace ago. */
  predicate Recent(e: Env, me: Reaper, id: RunId) {
    SlotOf(e, id) in e.claims && me.now - e.claims[SlotOf(e, id)] < PRE_START_GRACE
  }

  function ReaperStep(e: Env, me: Reaper, choice: ReaperInput): Acted<Reaper> {
    match me.pc
    case RIdle => ReaperPick(e, me, choice)
    case RSlot(id) =>
      if Locked(e) then Acted(e, me)
      else RGoto(e, me, if SlotOf(e, id) in e.claims && !Recent(e, me, id) then RDrop(id) else RIdle)
    case RDrop(id) => if Locked(e) then Acted(e, me) else RGoto(FreeSlot(e, id), me, RIdle)
    case RLease(id, loaded) =>
      if id in e.leases then
        RGoto(e, me, if e.leases[id].expiresAt > me.now - RENEWAL_GRACE then RIdle else RMark(id, loaded))
      else RGoto(e, me, if loaded.Staging? then RReservation(id) else RMark(id, loaded))
    case RReservation(id) =>
      if Locked(e) then Acted(e, me)
      else RGoto(e, me, if Recent(e, me, id) then RIdle else RMark(id, Staging))
    case RMark(id, _) => RGoto(Save(e, Transitioned(e.reg.records, id, Lost, me.now)), me, RIdle)
    case RAgg(p, i, seen) => AggregateStep(e, me, p, i, seen)
    case RAggWrite(p, state) => RGoto(Save(e, AggregateWritten(e.reg.records, p, state, me.now)), me, RIdle)
  }

  function ReaperPick(e: Env, me: Reaper, choice: ReaperInput): Acted<Reaper> {
    var rs := e.reg.records;
    match choice
    case RScan(id) =>
      if id in rs && rs[id].state.Queued? && IsTarget(rs[id]) then RGoto(e, me, RSlot(id))
      else if id in rs && (rs[id].state.Staging? || rs[id].state.Running? || rs[id].state.Committing?) then
        RGoto(e, me, RLease(id, rs[id].state))
      else Acted(e, me)
    case RSweep => if Locked(e) then Acted(e, me) else Acted(e.(claims := Reaped(e.claims, rs)), me)
    case RAggregate(p) =>
      if p in rs && rs[p].children != [] && !IsTerminal(rs[p].state) then RGoto(e, me, RAgg(p, 0, [])) else Acted(e, me)
  }

  /** Reads one target, or reduces what was read. */
  function AggregateStep(e: Env, me: Reaper, p: RunId, i: nat, seen: seq<RunState>): Acted<Reaper> {
    var rs := e.reg.records;
    if p !in rs then RGoto(e, me, RIdle)
    else if i < |rs[p].children| then
      var c := rs[p].children[i];
      RGoto(e, me, RAgg(p, i + 1, if c in rs then seen + [rs[c].state] else seen))
    else RGoto(e, me, if Aggregate(seen).0.Aggregating? then RIdle else RAggWrite(p, Aggregate(seen).0))
  }

  /** The callback leaves a terminal build request as it is. */
  function AggregateWritten(rs: RecordMap, p: RunId, state: RunState, now: Time): Option<RecordMap> {
    if p in rs && !IsTerminal(rs[p].state) then Some(rs[p := rs[p].(state := state, updatedAt := now)]) else None
  }

  // ---------------------------------------------------------------- abort

  function AbortStep(e: Env, pc: AbortPc): Acted<AbortPc> {
    var rs := e.reg.records;
    match pc
    case BLoad(id) =>
      if id !in rs then Acted(e, BEnd)
      else Acted(e, if rs[id].parent.Some? then BUp(id, rs[id].parent.value, rs[id].state) else BList(id, 0, []))
    case BUp(id, p, loaded) => Acted(e, if p in rs then BList(p, 0, []) else BSolo(id, loaded))
    case BList(p, i, kids) =>
      if p !in rs then Acted(e, BEnd)
      else if i < |rs[p].children| then
        var c := rs[p].children[i];
        Acted(e, BList(p, i + 1, if c in rs then kids + [Kid(c, rs[c].state)] else kids))
      else Acted(e, BEach(p, kids, 0))
    case BEach(p, kids, i) =>
      if i >= |kids| then Acted(e, BParent(p))
      else
        var cancelled := AbortSingle(e, kids[i].id, kids[i].loaded);
        Acted(Save(e, cancelled), if cancelled.Some? then BDrop(p, kids, i) else BEach(p, kids, i + 1))
    case BDrop(p, kids, i) =>
      if Locked(e) || i >= |kids| then Acted(e, pc) else Acted(FreeSlot(e, kids[i].id), BEach(p, kids, i + 1))
    case BParent(p) => Acted(Save(e, Transitioned(rs, p, Aborted, e.reg.clock)), BDone(p))
    case BSolo(id, loaded) =>
      var cancelled := AbortSingle(e, id, loaded);
      Acted(Save(e, cancelled), if loaded.Lost? || (loaded.Queued? && cancelled.Some?) then BFree(id) else BEnd)
    case BFree(id) => if Locked(e) then Acted(e, pc) else Acted(FreeSlot(e, id), BEnd)
    case BDone(_) => Acted(e, pc)
    case BEnd => Acted(e, pc)
  }

  /** Cancels one target by the state it was loaded in; terminal targets are passed over. */
  function AbortSingle(e: Env, id: RunId, loaded: RunState): Option<RecordMap> {
    CancelledAs(e.reg.records, id, loaded, e.reg.clock)
  }

  // ---------------------------------------------------------------- the whole system

  /** A submission saves its stale copy of the build request over whatever is there. */
  function RewriteParent(g: Registry, p: RunId, path: string): Registry {
    if p in g.pending then
      g.(records := g.records[p := g.pending[p].(sourcePath := path)], pending := g.pending - {p})
    else g
  }

  function ReserveEnv(cfg: Inventory, e: Env, id: RunId, now: Time): Env {
    if Locked(e) || id !in e.reg.minted || now > e.reg.clock then e
    else e.(claims := Reserved(cfg, e.claims, e.reg.records, e.reg.minted[id], id, now).0)
  }

  /** One step of one process. An action that is not enabled leaves everything as it is. */
  function Step(cfg: Inventory, s: System, a: Action): System {
    match a
    case Tick(d) => s.(env := s.env.(reg := s.env.reg.(clock := s.env.reg.clock + d)))
    case Admit(x) => s.(env := AdmitEnv(s.env, x))
    case Rewrite(p, path) => s.(env := s.env.(reg := RewriteParent(s.env.reg, p, path)))
    case ReserveSlot(id, now) => s.(env := ReserveEnv(cfg, s.env, id, now))
    case DropSlot(id) => if Locked(s.env) then s else s.(env := FreeSlot(s.env, id))
    case Launch(w, id) =>
      if w in s.workers || id !in s.env.reg.minted then s
      else s.(workers := s.workers[w := Worker(id, WLoad, false, false, 0, 0)])
    case Work(w, x) => if w in s.workers then AfterWorker(s, w, WorkerStep(s.env, w, s.workers[w], x)) else s
    case Renew(w) => if w in s.workers then AfterWorker(s, w, RenewStep(s.env, w, s.workers[w])) else s
    case StartReaper(r) => if r in s.reapers then s else s.(reapers := s.reapers[r := Reaper(s.env.reg.clock, RIdle)])
    case Reap(r, choice) =>
      if r in s.reapers then
        var t := ReaperStep(s.env, s.reapers[r], choice);
        s.(env := t.env, reapers := s.reapers[r := t.me])
      else s
    case StartAbort(b, id) => if b in s.aborts then s else s.(aborts := s.aborts[b := BLoad(id)])
    case StepAbort(b) =>
      if b in s.aborts then
        var t := AbortStep(s.env, s.aborts[b]);
        s.(env := t.env, aborts := s.aborts[b := t.me])
      else s
  }

  function AfterWorker(s: System, w: WorkerId, t: Acted<Worker>): System {
    s.(env := t.env, workers := s.workers[w := t.me])
  }

  /** Where a run of the system ends; every interleaving is some sequence of actions. */
  function Run(cfg: Inventory, s: System, actions: seq<Action>): System
    decreases |actions|
  {
    if actions == [] then s else Run(cfg, Step(cfg, s, actions[0]), actions[1..])
  }
}
