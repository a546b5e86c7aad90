/** Build admission and dispatch as the coordinator runs them, in place on its state. */
module AdmissionOps {
  import opened RunModel
  import opened Records
  import opened StateDirectory
  import opened Chooser
  import opened Scheduler
  import opened Protocol

  /** The check configuration validation makes of a project's machine list. */
  method ValidateProjectMachines(machines: seq<string>, cfg: Inventory) returns (ok: bool)
    ensures ok <==> machines != [] && DistinctStrings(machines) && forall m :: m in machines ==> m in cfg
  {
    if machines == [] { return false; }
    var seen := {};
    for i := 0 to |machines|
      invariant forall m :: m in seen <==> m in machines[..i]
      invariant DistinctStrings(machines[..i])
      invariant forall m :: m in machines[..i] ==> m in cfg
    {
      var m := machines[i];
      if m in seen {
        var j :| 0 <= j < i && machines[j] == m;
        return false;
      }
      seen := seen + {m};
      if m !in cfg { return false; }
    }
    assert machines[..|machines|] == machines;
    return true;
  }

  // ---------------------------------------------------------------- staging a build

  function TargetRecord(machine: string, parent: RunId, path: string, now: Time): RunRecord {
    RunRecord(machine, Queued, now, None, Some(parent), [], path)
  }

  function RequestRecord(children: seq<RunId>, path: string, now: Time): RunRecord {
    RunRecord("", Queued, now, None, None, children, path)
  }

  /** Fresh ids: one for the request, then one per machine. */
  predicate FreshIds(rs: RecordMap, ids: seq<RunId>) {
    (forall id :: id in ids ==> id !in rs) && forall i, j :: 0 <= i < j < |ids| ==> ids[i] != ids[j]
  }

  function WithTargets(rs: RecordMap, machines: seq<string>, ids: seq<RunId>, path: string, now: Time,
                       n: nat): RecordMap
    requires n <= |machines| && |ids| == |machines| + 1
  {
    if n == 0 then rs
    else WithTargets(rs, machines, ids, path, now, n - 1)[ids[n] := TargetRecord(machines[n-1], ids[0], path, now)]
  }

  /** The records of a whole staged build. */
  function Staged(rs: RecordMap, machines: seq<string>, ids: seq<RunId>, path: string, now: Time): RecordMap
    requires |ids| == |machines| + 1
  {
    WithTargets(rs, machines, ids, path, now, |machines|)[ids[0] := RequestRecord(ids[1..], path, now)]
  }

  lemma {:induction false} WithTargetsAt(rs: RecordMap, machines: seq<string>, ids: seq<RunId>, path: string,
                                         now: Time, n: nat)
    requires n <= |machines| && |ids| == |machines| + 1 && FreshIds(rs, ids)
    ensures var rs' := WithTargets(rs, machines, ids, path, now, n);
            && rs'.Keys == rs.Keys + (set i | 1 <= i <= n :: ids[i])
            && (forall id :: id in rs ==> rs'[id] == rs[id])
            && (forall i :: 1 <= i <= n ==> rs'[ids[i]] == TargetRecord(machines[i-1], ids[0], path, now))
  {
    if n > 0 {
      WithTargetsAt(rs, machines, ids, path, now, n - 1);
      assert ids[n] in ids;
      forall i | 1 <= i < n ensures ids[i] != ids[n] {}
      assert (set i | 1 <= i <= n :: ids[i]) == (set i | 1 <= i <= n - 1 :: ids[i]) + {ids[n]};
    }
  }

  function Ids(xs: seq<RunId>): set<RunId> { set x | x in xs }

  /** Removes each run's directory: its record, its lease and its result. */
  method RollbackRuns(d: StateDir, created: seq<RunId>)
    modifies d`records, d`leases, d`results
    ensures d.records == old(d.records) - Ids(created)
    ensures d.leases == old(d.leases) - Ids(created) && d.results == old(d.results) - Ids(created)
  {
    for i := 0 to |created|
      invariant d.records == old(d.records) - Ids(created[..i])
      invariant d.leases == old(d.leases) - Ids(created[..i]) && d.results == old(d.results) - Ids(created[..i])
    {
      d.records, d.leases, d.results := d.records - {created[i]}, d.leases - {created[i]}, d.results - {created[i]};
      assert Ids(created[..i+1]) == Ids(created[..i]) + {created[i]};
    }
    assert created[..|created|] == created;
  }

  /** No directory exists for a fresh id, so no lease and no result either. */
  ghost predicate NoDirectories(d: StateDir, ids: seq<RunId>)
    reads d
  {
    FreshIds(d.records, ids) && forall id :: id in ids ==> id !in d.leases && id !in d.results
  }

  /** All or nothing: every record of the build is saved, or none is left. `failAt` is the save that fails. */
  method StageFanout(d: StateDir, machines: seq<string>, ids: seq<RunId>, path: string, now: Time, failAt: Option<nat>)
    returns (request: Option<RunId>)
    requires |ids| == |machines| + 1 && NoDirectories(d, ids)
    modifies d`records, d`leases, d`results
    ensures d.leases == old(d.leases) && d.results == old(d.results)
    ensures request.None? ==> d.records == old(d.records)
    ensures request.Some? ==> request.value == ids[0]
    ensures request.Some? ==> d.records == Staged(old(d.records), machines, ids, path, now)
    ensures request.None? <==> failAt.Some? && failAt.value <= |machines|
  {
    ghost var rs := d.records;
    var created := [];
    for i := 0 to |machines|
      invariant created == ids[1..i+1]
      invariant d.records == WithTargets(rs, machines, ids, path, now, i)
      invariant failAt.Some? ==> failAt.value >= i
      invariant d.leases == old(d.leases) && d.results == old(d.results)
    {
      if failAt == Some(i) {
        Unstaged(rs, machines, ids, path, now, i);
        RollbackRuns(d, created);
        return None;
      }
      d.records := d.records[ids[i+1] := TargetRecord(machines[i], ids[0], path, now)];
      created := created + [ids[i+1]];
    }
    if failAt == Some(|machines|) {
      Unstaged(rs, machines, ids, path, now, |machines|);
      RollbackRuns(d, created);
      return None;
    }
    assert created == ids[1..];
    d.records := d.records[ids[0] := RequestRecord(created, path, now)];
    return Some(ids[0]);
  }

  /** Removing what was created restores what was there. */
  lemma Unstaged(rs: RecordMap, machines: seq<string>, ids: seq<RunId>, path: string, now: Time, n: nat)
    requires n <= |machines| && |ids| == |machines| + 1 && FreshIds(rs, ids)
    ensures WithTargets(rs, machines, ids, path, now, n) - Ids(ids[1..n+1]) == rs
    ensures Ids(ids[1..n+1]) <= Ids(ids)
  {
  }

  /** The live targets after admission are the new build's, each on its own machine. */
  lemma AdmittedAlone(rs: RecordMap, machines: seq<string>, ids: seq<RunId>, path: string, now: Time, a: RunId,
                      b: RunId)
    requires |ids| == |machines| + 1 && FreshIds(rs, ids) && DistinctStrings(machines)
    requires forall id :: id in rs ==> !Live(rs[id])
    requires var rs' := Staged(rs, machines, ids, path, now);
             a in rs' && b in rs' && Live(rs'[a]) && Live(rs'[b])
    ensures var rs' := Staged(rs, machines, ids, path, now);
            && rs'[a].parent == Some(ids[0]) && a in rs'[ids[0]].children
            && (rs'[a].machine == rs'[b].machine ==> a == b)
  {
    WithTargetsAt(rs, machines, ids, path, now, |machines|);
    var i :| 1 <= i <= |machines| && a == ids[i];
    var j :| 1 <= j <= |machines| && b == ids[j];
    assert ids[1..][i-1] == a;
    assert machines[i-1] == machines[j-1] ==> i == j;
  }

  /** Every live target is a target of `p`, and no two are on one machine. */
  ghost predicate OnlyBuild(rs: RecordMap, p: RunId)
    requires p in rs
  {
    forall a, b :: a in rs && b in rs && Live(rs[a]) && Live(rs[b]) ==>
      rs[a].parent == Some(p) && a in rs[p].children && (rs[a].machine == rs[b].machine ==> a == b)
  }

  /** Admission under the scheduler lock: refused while a build is live, otherwise all or nothing. */
  method AdmitAndStage(d: StateDir, machines: seq<string>, ids: seq<RunId>, path: string, now: Time,
                       failAt: Option<nat>)
    returns (busy: Option<RunId>, request: Option<RunId>)
    requires |ids| == |machines| + 1 && NoDirectories(d, ids) && DistinctStrings(machines)
    modifies d`records, d`leases, d`results
    ensures d.leases == old(d.leases) && d.results == old(d.results)
    ensures request.Some? <==> busy.None? && (failAt.Some? ==> failAt.value > |machines|)
    ensures busy.None? <==> forall id :: id in old(d.records) ==> !Live(old(d.records)[id])
    ensures request.None? ==> d.records == old(d.records)
    ensures request.Some? ==> d.records == Staged(old(d.records), machines, ids, path, now)
    ensures request.Some? ==> request.value in d.records && OnlyBuild(d.records, request.value)
  {
    busy := d.HasLiveBuild();
    if busy.Some? { return busy, None; }
    ghost var rs := d.records;
    request := StageFanout(d, machines, ids, path, now, failAt);
    if request.Some? {
      forall a, b | a in d.records && b in d.records && Live(d.records[a]) && Live(d.records[b])
        ensures d.records[a].parent == request && a in d.records[request.value].children
                && (d.records[a].machine == d.records[b].machine ==> a == b)
      {
        AdmittedAlone(rs, machines, ids, path, now, a, b);
      }
    }
  }

  // ---------------------------------------------------------------- dispatch

  predicate Swept(rs: RecordMap, claims: ClaimMap) { forall k :: k in claims ==> Holds(rs, k) }

  predicate Full(cfg: Inventory, claims: ClaimMap, machine: string) {
    machine in cfg ==> Active(claims, machine) >= EffectiveCapacity(cfg[machine])
  }

  /** What one reservation for a waiting run does: sweeps, keeps live claims, and fails only on a full machine. */
  lemma ReserveOne(cfg: Inventory, claims: ClaimMap, rs: RecordMap, machine: string, id: RunId, now: Time)
    requires machine in cfg && Holds(rs, Slot(machine, id))
    ensures var (after, ok) := Reserved(cfg, claims, rs, machine, id, now);
            && Swept(rs, after) && (forall k :: k in claims && Holds(rs, k) ==> k in after)
            && (forall k :: k in after && k != Slot(machine, id) ==> k in claims && after[k] == claims[k])
            && (if ok then Slot(machine, id) in after && after[Slot(machine, id)] == now else Full(cfg, after, machine))
            && (Swept(rs, claims) ==> forall m :: Full(cfg, claims, m) ==> Full(cfg, after, m))
  {
    var (after, ok) := Reserved(cfg, claims, rs, machine, id, now);
    if Swept(rs, claims) {
      assert Reaped(claims, rs) == claims;
      AddClaim(claims, Slot(machine, id), now);
    }
  }

  ghost predicate Waiting(rs: RecordMap, id: RunId) { id in rs && IsTarget(rs[id]) && rs[id].state.Queued? }

  predicate ReservedFor(rs: RecordMap, claims: ClaimMap, id: RunId, at: Time) {
    id in rs && Slot(rs[id].machine, id) in claims && claims[Slot(rs[id].machine, id)] == at
  }

  /** One run's turn: reserve, launch, and give the slot back when the launch fails. */
  function Dispatched(cfg: Inventory, claims: ClaimMap, rs: RecordMap, machine: string, id: RunId, now: Time,
                      fails: bool): (ClaimMap, bool)
  {
    var (after, ok) := Reserved(cfg, claims, rs, machine, id, now);
    (if ok && fails then Released(after, machine, id) else after, ok && !fails)
  }

  /** A queued run that holds its slot is launched again exactly while its machine has room once swept, so never at
    * capacity one. */
  lemma RelaunchedExactly(cfg: Inventory, claims: ClaimMap, rs: RecordMap, id: RunId, now: Time, fails: bool)
    requires Waiting(rs, id) && rs[id].machine in cfg && Slot(rs[id].machine, id) in claims
    ensures var machine := rs[id].machine;
            && (Dispatched(cfg, claims, rs, machine, id, now, fails).1 <==>
                  Active(Reaped(claims, rs), machine) < EffectiveCapacity(cfg[machine]) && !fails)
            && (EffectiveCapacity(cfg[machine]) == 1 ==> !Dispatched(cfg, claims, rs, machine, id, now, fails).1)
  {
    assert Slot(rs[id].machine, id) in SlotsOn(Reaped(claims, rs), rs[id].machine);
  }

  /** At capacity two, the run that holds the machine's only claim is launched again. */
  lemma RelaunchedAtCapacityTwo(rs: RecordMap, id: RunId, now: Time, later: Time)
    requires Waiting(rs, id)
    ensures var cfg, machine := map[rs[id].machine := 2], rs[id].machine;
            var (claims, first) := Dispatched(cfg, map[], rs, machine, id, now, false);
            first && Dispatched(cfg, claims, rs, machine, id, later, false).1
  {
    var cfg, machine, none: ClaimMap := map[rs[id].machine := 2], rs[id].machine, map[];
    assert Reaped(none, rs) == none && SlotsOn(none, machine) == {};
    var claims := Dispatched(cfg, none, rs, machine, id, now, false).0;
    assert Reaped(claims, rs) == claims && SlotsOn(claims, machine) == {Slot(machine, id)};
  }

  function OwnSlot(rs: RecordMap, id: RunId): Slot
    requires id in rs
  {
    Slot(rs[id].machine, id)
  }

  /** The run was refused because its machine is full or unknown, or its launch failed and its slot was given back. */
  predicate LeftBehind(cfg: Inventory, rs: RecordMap, claims: ClaimMap, fails: set<RunId>, id: RunId)
    requires id in rs
  {
    Full(cfg, claims, rs[id].machine) || (id in fails && OwnSlot(rs, id) !in claims)
  }

  /** Claims that are new were made for launched runs; live claims that are gone belonged to failed launches. */
  ghost predicate OnlyDispatched(rs: RecordMap, before: ClaimMap, claims: ClaimMap, launched: set<RunId>,
                                 fails: set<RunId>)
  {
    && (forall k :: k in claims ==> MadeFor(rs, launched, k) || (k in before && claims[k] == before[k]))
    && (forall k :: k in before && Holds(rs, k) && k !in claims ==> MadeFor(rs, fails, k))
  }

  predicate MadeFor(rs: RecordMap, ids: set<RunId>, k: Slot) { k.run in ids && k.run in rs && k == OwnSlot(rs, k.run) }

  /** Where dispatch stands after the runs in `done`. */
  ghost predicate Progress(cfg: Inventory, rs: RecordMap, before: ClaimMap, claims: ClaimMap, now: Time,
                           done: seq<RunId>, launched: set<RunId>, fails: set<RunId>)
  {
    && (forall id :: id in launched ==> id in done && id !in fails && ReservedFor(rs, claims, id, now))
    && (Swept(rs, claims) || (launched == {} && forall id :: id in done && id in rs ==> rs[id].machine !in cfg))
    && (forall id :: id in done && id in rs && id !in launched ==> LeftBehind(cfg, rs, claims, fails, id))
    && OnlyDispatched(rs, before, claims, launched, fails)
  }

  /** What one turn does to the claims, to every machine's room and to the turns before it. */
  lemma TurnTaken(cfg: Inventory, claims: ClaimMap, rs: RecordMap, id: RunId, now: Time, fails: bool)
    requires Waiting(rs, id) && rs[id].machine in cfg
    ensures var (after, ok) := Dispatched(cfg, claims, rs, rs[id].machine, id, now, fails);
            var own := OwnSlot(rs, id);
            && Swept(rs, after)
            && (forall k :: k in after && k != own ==> k in claims && after[k] == claims[k])
            && (forall k :: k in claims && Holds(rs, k) && k != own ==> k in after)
            && (if ok then !fails && own in after && after[own] == now
                else if own in after then own in claims && after[own] == claims[own] && Full(cfg, after, rs[id].machine)
                else Full(cfg, after, rs[id].machine) || fails)
            && (!ok && own in claims && own !in after ==> fails)
            && (Swept(rs, claims) ==> forall m :: Full(cfg, claims, m) ==> Full(cfg, after, m))
  {
    var machine, own := rs[id].machine, OwnSlot(rs, id);
    var (reserved, ok) := Reserved(cfg, claims, rs, machine, id, now);
    ReserveOne(cfg, claims, rs, machine, id, now);
    var after := Dispatched(cfg, claims, rs, machine, id, now, fails).0;
    if ok && fails && Swept(rs, claims) {
      assert Reaped(claims, rs) == claims;
      forall m | Full(cfg, claims, m) ensures Full(cfg, after, m) {
        if m in cfg {
          assert m != machine;
          assert SlotsOn(after, m) == SlotsOn(claims, m);
        }
      }
    }
  }

  lemma DispatchOne(cfg: Inventory, rs: RecordMap, before: ClaimMap, claims: ClaimMap, now: Time, done: seq<RunId>,
                    launched: set<RunId>, fails: set<RunId>, id: RunId)
    requires Progress(cfg, rs, before, claims, now, done, launched, fails) && Waiting(rs, id) && id !in done
    ensures var (after, ok) := Dispatched(cfg, claims, rs, rs[id].machine, id, now, id in fails);
            Progress(cfg, rs, before, after, now, done + [id], if ok then launched + {id} else launched, fails)
  {
    hide LeftBehind, OnlyDispatched, ReservedFor;
    if rs[id].machine in cfg {
      TurnTaken(cfg, claims, rs, id, now, id in fails);
      EarlierTurns(cfg, rs, claims, done, launched, fails, id, now);
      OwnTurn(cfg, rs, before, claims, launched, fails, id, now);
    } else {
      UnknownMachine(cfg, claims, rs, rs[id].machine, id, now);
      assert LeftBehind(cfg, rs, claims, fails, id) by { UnknownLeft(cfg, rs, claims, fails, id); }
    }
  }

  lemma UnknownLeft(cfg: Inventory, rs: RecordMap, claims: ClaimMap, fails: set<RunId>, id: RunId)
    requires id in rs && rs[id].machine !in cfg
    ensures LeftBehind(cfg, rs, claims, fails, id)
  {
  }

  /** The run whose turn it is, the runs launched before, and whose claims came and went. */
  lemma OwnTurn(cfg: Inventory, rs: RecordMap, before: ClaimMap, claims: ClaimMap, launched: set<RunId>,
                fails: set<RunId>, id: RunId, now: Time)
    requires Waiting(rs, id) && rs[id].machine in cfg && id !in launched
    requires OnlyDispatched(rs, before, claims, launched, fails)
    requires forall r :: r in launched ==> ReservedFor(rs, claims, r, now)
    requires Swept(rs, claims) || launched == {}
    ensures var (after, ok) := Dispatched(cfg, claims, rs, rs[id].machine, id, now, id in fails);
            var launched' := if ok then launched + {id} else launched;
            && OnlyDispatched(rs, before, after, launched', fails)
            && (forall r :: r in launched' ==> ReservedFor(rs, after, r, now))
            && (if ok then id !in fails else LeftBehind(cfg, rs, after, fails, id))
  {
    OwnClaims(cfg, rs, before, claims, launched, fails, id, now);
    TurnTaken(cfg, claims, rs, id, now, id in fails);
    hide Dispatched, Full, OnlyDispatched;
  }

  lemma OwnClaims(cfg: Inventory, rs: RecordMap, before: ClaimMap, claims: ClaimMap, launched: set<RunId>,
                  fails: set<RunId>, id: RunId, now: Time)
    requires Waiting(rs, id) && rs[id].machine in cfg && OnlyDispatched(rs, before, claims, launched, fails)
    ensures var (after, ok) := Dispatched(cfg, claims, rs, rs[id].machine, id, now, id in fails);
            OnlyDispatched(rs, before, after, if ok then launched + {id} else launched, fails)
  {
    TurnTaken(cfg, claims, rs, id, now, id in fails);
    hide Dispatched, Full, Swept;
  }

  /** A run left behind earlier is still left behind. */
  lemma EarlierTurns(cfg: Inventory, rs: RecordMap, claims: ClaimMap, done: seq<RunId>, launched: set<RunId>,
                     fails: set<RunId>, id: RunId, now: Time)
    requires Waiting(rs, id) && rs[id].machine in cfg && id !in done
    requires Swept(rs, claims) || (launched == {} && forall r :: r in done && r in rs ==> rs[r].machine !in cfg)
    requires forall r :: r in done && r in rs && r !in launched ==> LeftBehind(cfg, rs, claims, fails, r)
    ensures var after := Dispatched(cfg, claims, rs, rs[id].machine, id, now, id in fails).0;
            forall r :: r in done && r in rs && r !in launched ==> LeftBehind(cfg, rs, after, fails, r)
  {
    TurnTaken(cfg, claims, rs, id, now, id in fails);
    hide Dispatched, Active, EffectiveCapacity;
  }

  lemma UnknownMachine(cfg: Inventory, claims: ClaimMap, rs: RecordMap, machine: string, id: RunId, now: Time)
    requires machine !in cfg
    ensures Reserved(cfg, claims, rs, machine, id, now) == (claims, false) && Full(cfg, claims, machine)
  {
  }

  method DispatchRun(d: StateDir, cfg: Inventory, machine: string, id: RunId, now: Time, fails: bool)
    returns (launched: bool)
    modifies d`claims
    ensures old(WithinCapacity(cfg, d.claims)) ==> WithinCapacity(cfg, d.claims)
    ensures (d.claims, launched) == Dispatched(cfg, old(d.claims), d.records, machine, id, now, fails)
  {
    hide WithinCapacity, Reserved;
    if WithinCapacity(cfg, d.claims) { ReserveWithinCapacity(cfg, d.claims, d.records, machine, id, now); }
    launched := Reserve(d, cfg, machine, id, now);
    if launched && fails {
      if WithinCapacity(cfg, d.claims) { FewerClaims(cfg, d.claims, Released(d.claims, machine, id)); }
      ReleaseSlot(d, machine, id);
      launched := false;
    }
  }

  /**
   * Reserves and launches what fits, whichever launches fail. Every waiting run ends in one of three ways:
   * launched, holding a claim made now; refused, its machine being full or unknown; or failed to launch, its
   * slot given back. Nobody else's claim is touched, except that claims of finished runs are swept.
   */
  method DispatchPending(d: StateDir, cfg: Inventory, now: Time, launchFails: set<RunId>) returns (launched: set<RunId>)
    modifies d`claims
    ensures old(WithinCapacity(cfg, d.claims)) ==> WithinCapacity(cfg, d.claims)
    ensures launched !! launchFails
    ensures forall id :: id in launched ==> Waiting(d.records, id) && ReservedFor(d.records, d.claims, id, now)
    ensures forall id :: Waiting(d.records, id) && id !in launched ==>
      LeftBehind(cfg, d.records, d.claims, launchFails, id)
    ensures OnlyDispatched(d.records, old(d.claims), d.claims, launched, launchFails)
  {
    var queued := d.LoadQueuedChildren();
    launched := {};
    ghost var rs, before := d.records, d.claims;
    assert Progress(cfg, rs, before, d.claims, now, queued[..0], launched, launchFails);
    hide Full, WithinCapacity, Dispatched, LeftBehind, OnlyDispatched;
    for i := 0 to |queued|
      invariant WithinCapacity(cfg, before) ==> WithinCapacity(cfg, d.claims)
      invariant Progress(cfg, rs, before, d.claims, now, queued[..i], launched, launchFails)
    {
      hide Progress;
      var id := queued[i];
      assert id in queued && id !in queued[..i];
      assert queued[..i+1] == queued[..i] + [id];
      var machine := d.records[id].machine;
      DispatchOne(cfg, rs, before, d.claims, now, queued[..i], launched, launchFails, id);
      var ok := DispatchRun(d, cfg, machine, id, now, id in launchFails);
      if ok { launched := launched + {id}; }
    }
    assert queued[..|queued|] == queued;
    hide *;
    DispatchDone(cfg, rs, before, d.claims, now, queued, launched, launchFails);
  }

  lemma DispatchDone(cfg: Inventory, rs: RecordMap, before: ClaimMap, claims: ClaimMap, now: Time, queued: seq<RunId>,
                     launched: set<RunId>, fails: set<RunId>)
    requires Progress(cfg, rs, before, claims, now, queued, launched, fails)
    requires forall id :: id in queued <==> id in rs && IsTarget(rs[id]) && rs[id].state.Queued?
    ensures launched !! fails && OnlyDispatched(rs, before, claims, launched, fails)
    ensures forall id :: id in launched ==> Waiting(rs, id) && ReservedFor(rs, claims, id, now)
    ensures forall id :: Waiting(rs, id) && id !in launched ==> LeftBehind(cfg, rs, claims, fails, id)
  {
    hide Full, LeftBehind, OnlyDispatched;
  }

  /** What staging leaves, field by field: the request lists its targets, one queued target per machine in order, all
    * of the same source and time; every earlier record is as it was. */
  lemma StagedBuild(rs: RecordMap, machines: seq<string>, ids: seq<RunId>, path: string, now: Time)
    requires |ids| == |machines| + 1 && FreshIds(rs, ids)
    ensures var rs' := Staged(rs, machines, ids, path, now);
            && (forall id :: id in rs' <==> id in rs || id in ids) && (forall id :: id in rs ==> rs'[id] == rs[id])
            && rs'[ids[0]].children == ids[1..] && rs'[ids[0]].machine == "" && rs'[ids[0]].parent.None?
            && (forall i :: 0 <= i < |machines| ==>
                  && rs'[ids[i+1]].machine == machines[i] && rs'[ids[i+1]].parent == Some(ids[0])
                  && rs'[ids[i+1]].children == [])
            && forall id :: id in ids ==>
                 && rs'[id].state.Queued? && rs'[id].cancelAt.None? && rs'[id].updatedAt == now
                 && rs'[id].sourcePath == path
  {
    WithTargetsAt(rs, machines, ids, path, now, |machines|);
    forall id | id in ids ensures exists i :: 0 <= i < |ids| && ids[i] == id { }
    assert forall i :: 0 <= i < |ids| ==> ids[i] in ids;
    assert forall i :: 1 <= i < |ids| ==> ids[i] != ids[0];
  }
}
