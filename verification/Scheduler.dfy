/** Machine slot reservations: claim files changed under the scheduler lock. */
module Scheduler {
  import opened RunModel
  import opened Records
  import opened StateDirectory
  import opened Chooser

  function SlotsOn(claims: ClaimMap, machine: string): set<Slot> {
    set k | k in claims && k.machine == machine
  }

  /** Slots in use on a machine. */
  function Active(claims: ClaimMap, machine: string): nat { |SlotsOn(claims, machine)| }

  predicate Holds(rs: RecordMap, k: Slot) { k.run in rs && !IsTerminal(rs[k.run].state) }

  /** The claims a sweep keeps: those whose run record exists and is not terminal. */
  function Reaped(claims: ClaimMap, rs: RecordMap): ClaimMap {
    map k | k in claims && Holds(rs, k) :: claims[k]
  }

  /** The claims after `Reserve`, and whether it succeeded. A full machine still gets swept. */
  function Reserved(cfg: Inventory, claims: ClaimMap, rs: RecordMap, machine: string, id: RunId,
                    now: Time): (ClaimMap, bool)
  {
    if machine !in cfg then (claims, false)
    else
      var kept := Reaped(claims, rs);
      if Active(kept, machine) >= EffectiveCapacity(cfg[machine]) then (kept, false)
      else (kept[Slot(machine, id) := now], true)
  }

  function Released(claims: ClaimMap, machine: string, id: RunId): ClaimMap {
    claims - {Slot(machine, id)}
  }

  // ---------------------------------------------------------------- operations in place

  /** The claims left once the sweep has looked at the ones in `done`. */
  function SweptSoFar(claims: ClaimMap, rs: RecordMap, done: set<Slot>): ClaimMap {
    map k | k in claims && (k in done ==> Holds(rs, k)) :: claims[k]
  }

  lemma SweepOne(claims: ClaimMap, rs: RecordMap, done: set<Slot>, c: Slot)
    requires c in claims && c !in done
    ensures var now, next := SweptSoFar(claims, rs, done), SweptSoFar(claims, rs, done + {c});
            if Holds(rs, c) then next == now else next == now - {c} && |next| == |now| - 1
  {
  }

  method ReapClaims(d: StateDir) returns (removed: nat)
    modifies d`claims
    ensures d.claims == Reaped(old(d.claims), d.records)
    ensures removed == |old(d.claims)| - |d.claims|
  {
    var rest := d.claims.Keys;
    removed := 0;
    ghost var all := d.claims;
    assert SweptSoFar(all, d.records, all.Keys - rest) == all;
    while rest != {}
      invariant rest <= all.Keys
      invariant d.claims == SweptSoFar(all, d.records, all.Keys - rest)
      invariant removed + |d.claims| == |all|
      decreases rest
    {
      var c :| c in rest;
      SweepOne(all, d.records, all.Keys - rest, c);
      assert all.Keys - rest + {c} == all.Keys - (rest - {c});
      rest := rest - {c};
      if Holds(d.records, c) { continue; }
      d.claims := d.claims - {c};
      removed := removed + 1;
    }
    assert d.claims == Reaped(all, d.records);
  }

  method CountActiveByMachine(d: StateDir) returns (counts: map<string, nat>)
    ensures forall m :: ActiveOf(counts, m) == Active(d.claims, m)
  {
    var rest := d.claims.Keys;
    counts := map[];
    ghost var seen: ClaimMap := map[];
    while rest != {}
      invariant rest <= d.claims.Keys
      invariant seen.Keys == d.claims.Keys - rest
      invariant forall m :: ActiveOf(counts, m) == Active(seen, m)
      decreases rest
    {
      var c :| c in rest;
      AddClaim(seen, c, 0);
      ghost var before := counts;
      counts := counts[c.machine := ActiveOf(counts, c.machine) + 1];
      assert forall m :: ActiveOf(counts, m) == ActiveOf(before, m) + if m == c.machine then 1 else 0;
      seen := seen[c := 0];
      rest := rest - {c};
    }
    forall m ensures Active(seen, m) == Active(d.claims, m) {
      assert SlotsOn(seen, m) == SlotsOn(d.claims, m);
    }
  }

  method Reserve(d: StateDir, cfg: Inventory, machine: string, id: RunId, now: Time) returns (ok: bool)
    modifies d`claims
    ensures (d.claims, ok) == Reserved(cfg, old(d.claims), d.records, machine, id, now)
  {
    if machine !in cfg { return false; }
    var _ := ReapClaims(d);
    var active := CountActiveByMachine(d);
    if ActiveOf(active, machine) >= EffectiveCapacity(cfg[machine]) { return false; }
    d.claims := d.claims[Slot(machine, id) := now];
    return true;
  }

  /** The caller's publish step: what it makes of the records for the chosen machine, and whether it succeeds. */
  type Publish = (RecordMap, string) -> (RecordMap, bool)

  /** Chooses, claims and publishes in one section. A failed publish takes the claim back, and only the claim. */
  method ReserveAndPublish(d: StateDir, cfg: Inventory, id: RunId, candidates: seq<string>, now: Time,
                           publish: Publish) returns (machine: Option<string>)
    modifies d`claims, d`records
    ensures PublishedBy(cfg, old(d.claims), old(d.records), id, candidates, now, publish, d.claims, d.records, machine)
  {
    if candidates == [] || exists c :: c in candidates && c !in cfg { return None; }
    var _ := ReapClaims(d);
    var active := CountActiveByMachine(d);
    var choice := ChooseSlot(active, cfg, candidates);
    ChoiceFromClaims(active, d.claims, cfg, candidates, choice);
    if choice.None? { return None; }
    d.claims := d.claims[Slot(choice.value.name, id) := now];
    var (after, ok) := publish(d.records, choice.value.name);
    d.records := after;
    if !ok {
      d.claims := d.claims - {Slot(choice.value.name, id)};
      return None;
    }
    return Some(choice.value.name);
  }

  method ReleaseSlot(d: StateDir, machine: string, id: RunId)
    modifies d`claims
    ensures d.claims == Released(old(d.claims), machine, id)
  {
    if Slot(machine, id) !in d.claims { return; }
    d.claims := d.claims - {Slot(machine, id)};
  }

  // ---------------------------------------------------------------- choice over claims

  function Loads(claims: ClaimMap): map<string, nat> {
    map m | m in (set k | k in claims :: k.machine) :: Active(claims, m)
  }

  /** Counting a machine with no claim as zero or leaving it out makes the same choice. */
  lemma ChoiceFromClaims(active: map<string, nat>, claims: ClaimMap, cfg: Inventory, candidates: seq<string>,
                         r: Option<Snapshot>)
    requires forall m :: ActiveOf(active, m) == Active(claims, m)
    requires IsChoice(active, cfg, candidates, r)
    ensures IsChoice(Loads(claims), cfg, candidates, r)
  {
    forall m ensures ActiveOf(Loads(claims), m) == ActiveOf(active, m) { LoadIsActive(claims, m); }
    assert forall m :: Eligible(Loads(claims), cfg, candidates, m) <==> Eligible(active, cfg, candidates, m);
    assert forall m :: m in cfg ==> SnapshotOf(Loads(claims), cfg, m) == SnapshotOf(active, cfg, m);
  }

  /** The section with everything it changes. */
  ghost predicate PublishedBy(cfg: Inventory, claims: ClaimMap, rs: RecordMap, id: RunId, candidates: seq<string>,
                              now: Time, publish: Publish, claims': ClaimMap, rs': RecordMap, machine: Option<string>)
  {
    if candidates == [] || exists c :: c in candidates && c !in cfg then
      claims' == claims && rs' == rs && machine == None
    else
      var kept := Reaped(claims, rs);
      exists choice :: IsChoice(Loads(kept), cfg, candidates, choice) &&
        match choice
        case None => claims' == kept && rs' == rs && machine == None
        case Some(s) =>
          && rs' == publish(rs, s.name).0
          && if publish(rs, s.name).1 then claims' == kept[Slot(s.name, id) := now] && machine == Some(s.name)
             else claims' == kept - {Slot(s.name, id)} && machine == None
  }

  /** The machine a publication lands on is the least loaded free candidate by the claims that survive the sweep. */
  lemma PublishedOnLeastLoaded(cfg: Inventory, claims: ClaimMap, rs: RecordMap, id: RunId, candidates: seq<string>,
                               now: Time, publish: Publish, claims': ClaimMap, rs': RecordMap, machine: string)
    requires PublishedBy(cfg, claims, rs, id, candidates, now, publish, claims', rs', Some(machine))
    ensures LeastLoaded(Loads(Reaped(claims, rs)), cfg, candidates, machine)
    ensures forall m :: ActiveOf(Loads(Reaped(claims, rs)), m) == Active(Reaped(claims, rs), m)
  {
    var kept := Reaped(claims, rs);
    forall m ensures ActiveOf(Loads(kept), m) == Active(kept, m) { LoadIsActive(kept, m); }
    hide Reaped, Loads, LeastLoaded;
    var s: Snapshot :| IsChoice(Loads(kept), cfg, candidates, Some(s)) && s.name == machine;
    ChoiceIsLeastLoaded(Loads(kept), cfg, candidates, s);
  }

  /** Its effect on the claims, which does not depend on what the publish step wrote. */
  ghost predicate ReservedAndPublished(cfg: Inventory, claims: ClaimMap, rs: RecordMap, id: RunId,
                                       candidates: seq<string>, now: Time, publishOk: bool, claims': ClaimMap,
                                       machine: Option<string>)
  {
    if candidates == [] || exists c :: c in candidates && c !in cfg then
      claims' == claims && machine == None
    else
      var kept := Reaped(claims, rs);
      exists choice :: IsChoice(Loads(kept), cfg, candidates, choice) &&
        match choice
        case None => claims' == kept && machine == None
        case Some(s) =>
          if publishOk then claims' == kept[Slot(s.name, id) := now] && machine == Some(s.name)
          else claims' == kept - {Slot(s.name, id)} && machine == None
  }

  // ---------------------------------------------------------------- capacity

  /** Every claim is on an inventory machine, and no machine is over its capacity. */
  predicate WithinCapacity(cfg: Inventory, claims: ClaimMap) {
    && (forall k :: k in claims ==> k.machine in cfg)
    && (forall m :: m in cfg ==> Active(claims, m) <= EffectiveCapacity(cfg[m]))
  }

  lemma AddClaim(claims: ClaimMap, k: Slot, now: Time)
    ensures forall m :: Active(claims[k := now], m) ==
              Active(claims, m) + if m == k.machine && k !in claims then 1 else 0
  {
    forall m ensures Active(claims[k := now], m) ==
                       Active(claims, m) + if m == k.machine && k !in claims then 1 else 0 {
      AddClaimOn(claims, k, now, m);
    }
  }

  lemma AddClaimOn(claims: ClaimMap, k: Slot, now: Time, m: string)
    ensures Active(claims[k := now], m) == Active(claims, m) + if m == k.machine && k !in claims then 1 else 0
  {
    var before, after := SlotsOn(claims, m), SlotsOn(claims[k := now], m);
    if m == k.machine && k !in claims {
      assert after == before + {k};
    } else {
      assert after == before;
    }
  }

  lemma FewerClaims(cfg: Inventory, claims: ClaimMap, claims': ClaimMap)
    requires WithinCapacity(cfg, claims) && claims'.Keys <= claims.Keys
    ensures WithinCapacity(cfg, claims')
  {
    forall m | m in cfg ensures Active(claims', m) <= Active(claims, m) {
      SubsetSize(SlotsOn(claims', m), SlotsOn(claims, m));
    }
  }

  lemma SubsetSize<T>(a: set<T>, b: set<T>)
    requires a <= b
    ensures |a| <= |b|
  {
    assert b == a + (b - a);
  }

  lemma ReserveWithinCapacity(cfg: Inventory, claims: ClaimMap, rs: RecordMap, machine: string, id: RunId, now: Time)
    requires WithinCapacity(cfg, claims)
    ensures WithinCapacity(cfg, Reserved(cfg, claims, rs, machine, id, now).0)
  {
    var kept := Reaped(claims, rs);
    FewerClaims(cfg, claims, kept);
    AddClaim(kept, Slot(machine, id), now);
  }

  /** One scheduler section; each sees whatever run records exist when it runs. */
  datatype SchedulerOp =
    | OpReserve(machine: string, id: RunId, now: Time)
    | OpReserveAndPublish(rid: RunId, candidates: seq<string>, at: Time, publishOk: bool)
    | OpRelease(m: string, run: RunId)
    | OpReap
    | OpStatus

  ghost predicate OpStep(cfg: Inventory, rs: RecordMap, op: SchedulerOp, claims: ClaimMap, claims': ClaimMap) {
    match op
    case OpReserve(m, id, now) => claims' == Reserved(cfg, claims, rs, m, id, now).0
    case OpReserveAndPublish(id, candidates, now, publishOk) =>
      exists machine :: ReservedAndPublished(cfg, claims, rs, id, candidates, now, publishOk, claims', machine)
    case OpRelease(m, id) => claims' == Released(claims, m, id)
    case OpReap => claims' == Reaped(claims, rs)
    case OpStatus => claims' == Reaped(claims, rs)
  }

  /** Whatever the publish step does, the section is one of the operations that keep within capacity. */
  lemma PublishIsAnOp(cfg: Inventory, claims: ClaimMap, rs: RecordMap, id: RunId, candidates: seq<string>, now: Time,
                      publish: Publish, claims': ClaimMap, rs': RecordMap, machine: Option<string>)
    requires PublishedBy(cfg, claims, rs, id, candidates, now, publish, claims', rs', machine)
    ensures exists ok :: OpStep(cfg, rs, OpReserveAndPublish(id, candidates, now, ok), claims, claims')
  {
    hide IsChoice, Loads, Reaped;
    if ReservedAndPublished(cfg, claims, rs, id, candidates, now, true, claims', machine) {
      assert OpStep(cfg, rs, OpReserveAndPublish(id, candidates, now, true), claims, claims');
    } else {
      assert ReservedAndPublished(cfg, claims, rs, id, candidates, now, false, claims', machine);
      assert OpStep(cfg, rs, OpReserveAndPublish(id, candidates, now, false), claims, claims');
    }
  }

  /** The claims are as before, swept, or swept with one claim added on a machine that had room. */
  lemma PublishOutcome(cfg: Inventory, claims: ClaimMap, rs: RecordMap, id: RunId, candidates: seq<string>,
                       now: Time, publishOk: bool, claims': ClaimMap, machine: Option<string>) returns (m: string)
    requires ReservedAndPublished(cfg, claims, rs, id, candidates, now, publishOk, claims', machine)
    ensures var kept := Reaped(claims, rs);
            || claims' == claims || claims' == kept || claims' == kept - {Slot(m, id)}
            || (claims' == kept[Slot(m, id) := now] && Eligible(Loads(kept), cfg, candidates, m))
  {
    var kept := Reaped(claims, rs);
    m := "";
    if claims' != claims && claims' != kept {
      hide Reaped, Loads;
      var s: Snapshot :| IsChoice(Loads(kept), cfg, candidates, Some(s))
                         && (claims' == kept[Slot(s.name, id) := now] || claims' == kept - {Slot(s.name, id)});
      m := s.name;
    }
  }

  lemma PublishWithinCapacity(cfg: Inventory, claims: ClaimMap, rs: RecordMap, id: RunId, candidates: seq<string>,
                              now: Time, publishOk: bool, claims': ClaimMap, machine: Option<string>)
    requires WithinCapacity(cfg, claims)
    requires ReservedAndPublished(cfg, claims, rs, id, candidates, now, publishOk, claims', machine)
    ensures WithinCapacity(cfg, claims')
  {
    hide ReservedAndPublished;
    var m := PublishOutcome(cfg, claims, rs, id, candidates, now, publishOk, claims', machine);
    var kept := Reaped(claims, rs);
    FewerClaims(cfg, claims, kept);
    LoadIsActive(kept, m);
    AddClaim(kept, Slot(m, id), now);
    FewerClaims(cfg, kept, kept - {Slot(m, id)});
  }

  lemma LoadIsActive(claims: ClaimMap, m: string)
    ensures ActiveOf(Loads(claims), m) == Active(claims, m)
  {
  }

  lemma OpWithinCapacity(cfg: Inventory, rs: RecordMap, op: SchedulerOp, claims: ClaimMap, claims': ClaimMap)
    requires WithinCapacity(cfg, claims) && OpStep(cfg, rs, op, claims, claims')
    ensures WithinCapacity(cfg, claims')
  {
    hide WithinCapacity, ReservedAndPublished, Reserved;
    match op {
      case OpReserve(m, id, now) => ReserveWithinCapacity(cfg, claims, rs, m, id, now);
      case OpReserveAndPublish(id, candidates, now, publishOk) =>
        var machine :| ReservedAndPublished(cfg, claims, rs, id, candidates, now, publishOk, claims', machine);
        PublishWithinCapacity(cfg, claims, rs, id, candidates, now, publishOk, claims', machine);
      case _ => FewerClaims(cfg, claims, claims');
    }
  }

  /** Over any sequence of sections by any processes, no machine is ever over its capacity. */
  lemma {:induction false} CapacityNeverExceeded(cfg: Inventory, views: seq<RecordMap>, ops: seq<SchedulerOp>,
                                                 states: seq<ClaimMap>)
    requires |states| == |ops| + 1 && |views| == |ops|
    requires WithinCapacity(cfg, states[0])
    requires forall i :: 0 <= i < |ops| ==> OpStep(cfg, views[i], ops[i], states[i], states[i+1])
    ensures forall i :: 0 <= i < |states| ==> WithinCapacity(cfg, states[i])
  {
    for n := 0 to |ops|
      invariant forall i :: 0 <= i <= n ==> WithinCapacity(cfg, states[i])
    {
      OpWithinCapacity(cfg, views[n], ops[n], states[n], states[n+1]);
    }
  }
}
