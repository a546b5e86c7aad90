/** One uninterrupted reaper pass: decide every run, sweep the claims, then settle the build requests. */
module ReaperPass {
  import opened RunModel
  import opened Records
  import opened StateDirectory
  import opened Scheduler
  import opened Protocol

  datatype Decision = Keep | FreeSlot | MarkLost | AbortQueued

  function ReservedAt(rs: RecordMap, claims: ClaimMap, id: RunId): Option<Time>
    requires id in rs
  {
    if Slot(rs[id].machine, id) in claims then Some(claims[Slot(rs[id].machine, id)]) else None
  }

  /** What the pass does about one run, by what it reads at time `now`. */
  function Decide(rs: RecordMap, leases: LeaseMap, claims: ClaimMap, id: RunId, now: Time): Decision
    requires id in rs
  {
    var r, reserved := rs[id], ReservedAt(rs, claims, id);
    if r.state.Queued? then
      if r.parent.Some? then (if reserved.Some? && now - reserved.value >= PRE_START_GRACE then FreeSlot else Keep)
      else if r.children == [] && id !in leases then AbortQueued
      else Keep
    else if !r.state.Staging? && !r.state.Running? && !r.state.Committing? then Keep
    else if id in leases then (if leases[id].expiresAt > now - RENEWAL_GRACE then Keep else MarkLost)
    else if r.state.Staging? && reserved.Some? && now - reserved.value < PRE_START_GRACE then Keep
    else MarkLost
  }

  function Marked(r: RunRecord, d: Decision, now: Time): RunRecord {
    match d
    case MarkLost => r.(state := Lost, updatedAt := now)
    case AbortQueued => r.(state := Aborted, updatedAt := now)
    case _ => r
  }

  /** The records once the runs in `done` have been decided. */
  function DecidedRecords(rs: RecordMap, leases: LeaseMap, claims: ClaimMap, now: Time, done: set<RunId>): RecordMap {
    map id | id in rs :: if id in done then Marked(rs[id], Decide(rs, leases, claims, id, now), now) else rs[id]
  }

  predicate Freed(rs: RecordMap, leases: LeaseMap, claims: ClaimMap, now: Time, k: Slot) {
    k.run in rs && k.machine == rs[k.run].machine && Decide(rs, leases, claims, k.run, now).FreeSlot?
  }

  function DecidedClaims(rs: RecordMap, leases: LeaseMap, claims: ClaimMap, now: Time, done: set<RunId>): ClaimMap {
    map k | k in claims && !(k.run in done && Freed(rs, leases, claims, now, k)) :: claims[k]
  }

  // ---------------------------------------------------------------- the build requests

  predicate IsRequest(r: RunRecord) { r.children != [] }

  /** Targets are not themselves requests. */
  predicate Flat(rs: RecordMap) {
    forall p, c :: p in rs && c in rs[p].children && c in rs ==> !IsRequest(rs[c])
  }

  function StatesOf(loaded: seq<RunRecord>): seq<RunState> {
    seq(|loaded|, i requires 0 <= i < |loaded| => loaded[i].state)
  }

  /** A request whose targets are all terminal gets their aggregate; every other record stays. */
  function Aggregated(rs: RecordMap, now: Time, p: RunId): RunRecord
    requires p in rs
  {
    var verdict := Aggregate(StatesOf(LoadedChildren(rs, rs[p].children))).0;
    if IsRequest(rs[p]) && !IsTerminal(rs[p].state) && !verdict.Aggregating? then
      rs[p].(state := verdict, updatedAt := now)
    else rs[p]
  }

  function AggregatedRecords(rs: RecordMap, now: Time, done: set<RunId>): RecordMap {
    map p | p in rs :: if p in done then Aggregated(rs, now, p) else rs[p]
  }

  // ---------------------------------------------------------------- the pass in place

  method ReapRun(d: StateDir, id: RunId, now: Time) returns (lost: bool, aborted: bool)
    requires id in d.records
    modifies d`records, d`claims
    ensures var decision := Decide(old(d.records), d.leases, old(d.claims), id, now);
            && d.records == old(d.records)[id := Marked(old(d.records)[id], decision, now)]
            && d.claims == (if decision.FreeSlot? then Released(old(d.claims), old(d.records)[id].machine, id)
                            else old(d.claims))
            && lost == decision.MarkLost? && aborted == decision.AbortQueued?
  {
    lost, aborted := false, false;
    var record := d.records[id];
    var slot := Slot(record.machine, id);
    if record.state.Queued? {
      if record.parent.Some? {
        if slot in d.claims && now - d.claims[slot] >= PRE_START_GRACE { ReleaseSlot(d, record.machine, id); }
        return;
      }
      if record.children == [] && id !in d.leases { aborted := d.Transition(id, Aborted, now); }
      return;
    }
    if !record.state.Staging? && !record.state.Running? && !record.state.Committing? { return; }
    if id in d.leases {
      if d.leases[id].expiresAt > now - RENEWAL_GRACE { return; }
      lost := d.Transition(id, Lost, now);
      return;
    }
    if record.state.Staging? {
      if slot !in d.claims { lost := d.Transition(id, Lost, now); return; }
      if now - d.claims[slot] < PRE_START_GRACE { return; }
      lost := d.Transition(id, Lost, now);
      return;
    }
    lost := d.Transition(id, Lost, now);
  }

  /** Deciding one run more: its own record and claim change, nobody else's decision does. */
  lemma DecideOne(rs: RecordMap, leases: LeaseMap, claims: ClaimMap, now: Time, done: set<RunId>, id: RunId)
    requires id in rs && id !in done
    ensures var rs1, cs1 := DecidedRecords(rs, leases, claims, now, done), DecidedClaims(rs, leases, claims, now, done);
            var decision := Decide(rs, leases, claims, id, now);
            && id in rs1 && rs1[id] == rs[id] && Decide(rs1, leases, cs1, id, now) == decision
            && DecidedRecords(rs, leases, claims, now, done + {id}) == rs1[id := Marked(rs[id], decision, now)]
            && DecidedClaims(rs, leases, claims, now, done + {id}) ==
                 (if decision.FreeSlot? then Released(cs1, rs[id].machine, id) else cs1)
  {
  }

  /** The runs in `done` the pass decided `what` about. */
  function DecidedAs(rs: RecordMap, leases: LeaseMap, claims: ClaimMap, now: Time, done: set<RunId>,
                     what: Decision): set<RunId>
  {
    set id | id in rs && id in done && Decide(rs, leases, claims, id, now) == what
  }

  lemma CountOne(rs: RecordMap, leases: LeaseMap, claims: ClaimMap, now: Time, done: set<RunId>, id: RunId,
                 what: Decision)
    requires id in rs && id !in done
    ensures |DecidedAs(rs, leases, claims, now, done + {id}, what)| ==
              |DecidedAs(rs, leases, claims, now, done, what)|
              + if Decide(rs, leases, claims, id, now) == what then 1 else 0
  {
    var before := DecidedAs(rs, leases, claims, now, done, what);
    var after := DecidedAs(rs, leases, claims, now, done + {id}, what);
    hide Decide;
    if Decide(rs, leases, claims, id, now) == what {
      assert after == before + {id};
    } else {
      assert after == before;
    }
  }

  method ReapRuns(d: StateDir, now: Time) returns (lost: nat, aborted: nat)
    modifies d`records, d`claims
    ensures lost == |DecidedAs(old(d.records), d.leases, old(d.claims), now, old(d.records).Keys, MarkLost)|
    ensures aborted == |DecidedAs(old(d.records), d.leases, old(d.claims), now, old(d.records).Keys, AbortQueued)|
    ensures d.records == DecidedRecords(old(d.records), d.leases, old(d.claims), now, old(d.records).Keys)
    ensures d.claims == DecidedClaims(old(d.records), d.leases, old(d.claims), now, old(d.records).Keys)
  {
    ghost var rs, cs := d.records, d.claims;
    var rest := d.records.Keys;
    lost, aborted := 0, 0;
    assert DecidedRecords(rs, d.leases, cs, now, {}) == rs && DecidedClaims(rs, d.leases, cs, now, {}) == cs;
    assert rs.Keys - rest == {};
    hide Decide;
    while rest != {}
      invariant rest <= rs.Keys
      invariant d.records == DecidedRecords(rs, d.leases, cs, now, rs.Keys - rest)
      invariant d.claims == DecidedClaims(rs, d.leases, cs, now, rs.Keys - rest)
      invariant lost == |DecidedAs(rs, d.leases, cs, now, rs.Keys - rest, MarkLost)|
      invariant aborted == |DecidedAs(rs, d.leases, cs, now, rs.Keys - rest, AbortQueued)|
      decreases rest
    {
      var id :| id in rest;
      CountOne(rs, d.leases, cs, now, rs.Keys - rest, id, MarkLost);
      CountOne(rs, d.leases, cs, now, rs.Keys - rest, id, AbortQueued);
      DecideOne(rs, d.leases, cs, now, rs.Keys - rest, id);
      assert rs.Keys - rest + {id} == rs.Keys - (rest - {id});
      var l, a := ReapRun(d, id, now);
      if l { lost := lost + 1; }
      if a { aborted := aborted + 1; }
      rest := rest - {id};
    }
    assert rs.Keys - rest == rs.Keys;
  }

  /** Settling one request more: it reads targets only, and no target was rewritten. */
  lemma AggregateOne(rs: RecordMap, now: Time, done: set<RunId>, p: RunId)
    requires Flat(rs) && p in rs && p !in done
    ensures var rs1 := AggregatedRecords(rs, now, done);
            && p in rs1 && rs1[p] == rs[p] && Aggregated(rs1, now, p) == Aggregated(rs, now, p)
            && AggregatedRecords(rs, now, done + {p}) == rs1[p := Aggregated(rs, now, p)]
  {
    var rs1 := AggregatedRecords(rs, now, done);
    SameChildren(rs, rs1, rs[p].children);
  }

  lemma {:induction false} SameChildren(rs: RecordMap, rs': RecordMap, ids: seq<RunId>)
    requires forall c :: c in ids ==> (c in rs <==> c in rs') && (c in rs ==> rs'[c] == rs[c])
    ensures LoadedChildren(rs', ids) == LoadedChildren(rs, ids)
  {
    if ids != [] { SameChildren(rs, rs', ids[..|ids|-1]); }
  }

  method AggregateParents(d: StateDir, now: Time)
    requires Flat(d.records)
    modifies d`records
    ensures d.records == AggregatedRecords(old(d.records), now, old(d.records).Keys)
  {
    ghost var rs := d.records;
    var rest := d.records.Keys;
    assert AggregatedRecords(rs, now, rs.Keys - rest) == rs;
    while rest != {}
      invariant rest <= rs.Keys
      invariant d.records == AggregatedRecords(rs, now, rs.Keys - rest)
      decreases rest
    {
      var p :| p in rest;
      AggregateOne(rs, now, rs.Keys - rest, p);
      assert rs.Keys - rest + {p} == rs.Keys - (rest - {p});
      rest := rest - {p};
      SettleRequest(d, p, now);
    }
    assert rs.Keys - rest == rs.Keys;
  }

  method SettleRequest(d: StateDir, p: RunId, now: Time)
    requires p in d.records
    modifies d`records
    ensures d.records == old(d.records)[p := Aggregated(old(d.records), now, p)]
  {
    var parent := d.records[p];
    if parent.children == [] || IsTerminal(parent.state) { return; }
    var children := d.LoadChildren(p);
    var state, _ := AggregateState(StatesOf(children.value), parent.state.Aborted?);
    if state.Aggregating? { return; }
    var _ := d.Mutate(p, (r: RunRecord) =>
      if IsTerminal(r.state) then Some(r) else Some(r.(state := state, updatedAt := now)));
  }

  datatype Report = Report(markedLost: nat, queuedAborted: nat, claimsReleased: nat)

  function PassRecords(rs: RecordMap, leases: LeaseMap, claims: ClaimMap, now: Time): RecordMap {
    DecidedRecords(rs, leases, claims, now, rs.Keys)
  }

  function PassClaims(rs: RecordMap, leases: LeaseMap, claims: ClaimMap, now: Time): ClaimMap {
    Reaped(DecidedClaims(rs, leases, claims, now, rs.Keys), PassRecords(rs, leases, claims, now))
  }

  /** The counts a pass reports; the release of a reservation that never started is not among them. */
  function ReportOf(rs: RecordMap, leases: LeaseMap, claims: ClaimMap, now: Time): Report {
    SweepShrinks(DecidedClaims(rs, leases, claims, now, rs.Keys), PassRecords(rs, leases, claims, now));
    Report(|DecidedAs(rs, leases, claims, now, rs.Keys, MarkLost)|,
           |DecidedAs(rs, leases, claims, now, rs.Keys, AbortQueued)|,
           |DecidedClaims(rs, leases, claims, now, rs.Keys)| - |PassClaims(rs, leases, claims, now)|)
  }

  lemma SweepShrinks(claims: ClaimMap, rs: RecordMap)
    ensures |Reaped(claims, rs)| <= |claims|
  {
    SubsetSize(Reaped(claims, rs).Keys, claims.Keys);
    assert |Reaped(claims, rs).Keys| == |Reaped(claims, rs)| && |claims.Keys| == |claims|;
  }

  method RunPass(d: StateDir, now: Time) returns (report: Report)
    requires Flat(d.records)
    modifies d`records, d`claims
    ensures d.claims == PassClaims(old(d.records), d.leases, old(d.claims), now)
    ensures var decided := PassRecords(old(d.records), d.leases, old(d.claims), now);
            d.records == AggregatedRecords(decided, now, decided.Keys)
    ensures report == ReportOf(old(d.records), d.leases, old(d.claims), now)
  {
    var lost, aborted := ReapRuns(d, now);
    var released := ReapClaims(d);
    AggregateParents(d, now);
    return Report(lost, aborted, released);
  }

  // ---------------------------------------------------------------- what a pass leaves

  /** A target's claim is on the target's machine. */
  predicate ClaimsPlaced(rs: RecordMap, claims: ClaimMap) {
    forall k :: k in claims && k.run in rs && IsTarget(rs[k.run]) ==> k.machine == rs[k.run].machine
  }

  /** Targets have no targets of their own, and aggregating is never a recorded state. */
  predicate TargetsPlain(rs: RecordMap) {
    forall id :: id in rs && IsTarget(rs[id]) ==> rs[id].children == [] && !rs[id].state.Aggregating?
  }

  predicate WithinGrace(leases: LeaseMap, id: RunId, now: Time) {
    id in leases && leases[id].expiresAt > now - RENEWAL_GRACE
  }

  /** No slot leaks: after a pass at `now`, a claim belongs to a live run, and a target's claim either is younger
    * than the pre-start grace on a run no worker has started, or backs a lease within the renewal grace. */
  lemma NoSlotLeaks(rs: RecordMap, leases: LeaseMap, claims: ClaimMap, now: Time, k: Slot)
    requires ClaimsPlaced(rs, claims) && TargetsPlain(rs) && k in PassClaims(rs, leases, claims, now)
    ensures var rs' := AggregatedRecords(PassRecords(rs, leases, claims, now), now, rs.Keys);
            && k.run in rs' && k in claims && PassClaims(rs, leases, claims, now)[k] == claims[k]
            && (IsTarget(rs'[k.run]) ==>
                  || ((rs'[k.run].state.Queued? || rs'[k.run].state.Staging?) && now - claims[k] < PRE_START_GRACE)
                  || (!IsTerminal(rs'[k.run].state) && WithinGrace(leases, k.run, now)))
  {
  }

  // ---------------------------------------------------------------- and no more than that

  /** The records and claims after a pass. */
  function RecordsAfter(rs: RecordMap, leases: LeaseMap, claims: ClaimMap, now: Time): RecordMap {
    AggregatedRecords(PassRecords(rs, leases, claims, now), now, rs.Keys)
  }

  predicate Begun(s: RunState) { s.Staging? || s.Running? || s.Committing? }

  /** The target's worker may still be on its way to the lease: no lease yet, and reserved less than a minute ago. */
  predicate AboutToStart(rs: RecordMap, leases: LeaseMap, claims: ClaimMap, id: RunId, now: Time)
    requires id in rs
  {
    && rs[id].state.Staging? && id !in leases
    && Slot(rs[id].machine, id) in claims && now - claims[Slot(rs[id].machine, id)] < 60
  }

  /** A pass marks a target lost if and only if it has begun, no lease of it is within ten minutes of its expiry, and
    * it is not a staging run reserved less than a minute ago; any other target's record is left as it is. */
  lemma MarkedLostExactly(rs: RecordMap, leases: LeaseMap, claims: ClaimMap, now: Time, id: RunId)
    requires TargetsPlain(rs) && id in rs && IsTarget(rs[id])
    ensures var after := RecordsAfter(rs, leases, claims, now);
            var lost := && Begun(rs[id].state) && !AboutToStart(rs, leases, claims, id, now)
                        && !(id in leases && leases[id].expiresAt > now - 600);
            id in after && after[id] == if lost then rs[id].(state := Lost, updatedAt := now) else rs[id]
  {
  }

  /**
   * A pass keeps a target's record and its claim if and only if the run is queued or staging without a lease and
   * was reserved less than a minute ago, or it has begun and its lease is within ten minutes of its expiry, or it
   * is queued with a lease and was reserved less than a minute ago.
   */
  lemma KeptExactly(rs: RecordMap, leases: LeaseMap, claims: ClaimMap, now: Time, id: RunId)
    requires TargetsPlain(rs) && id in rs && IsTarget(rs[id]) && Slot(rs[id].machine, id) in claims
    ensures var k := Slot(rs[id].machine, id);
            var records', claims' := RecordsAfter(rs, leases, claims, now), PassClaims(rs, leases, claims, now);
            var kept := id in records' && records'[id] == rs[id] && k in claims' && claims'[k] == claims[k];
            var young := now - claims[k] < 60;
            kept <==>
              || ((rs[id].state.Queued? || rs[id].state.Staging?) && id !in leases && young)
              || (Begun(rs[id].state) && id in leases && leases[id].expiresAt > now - 600)
              || (rs[id].state.Queued? && id in leases && young)
  {
    MarkedLostExactly(rs, leases, claims, now, id);
    var k := Slot(rs[id].machine, id);
    var decided := PassRecords(rs, leases, claims, now);
    assert id in decided;
    assert k in PassClaims(rs, leases, claims, now) <==>
      !IsTerminal(decided[id].state) && !Freed(rs, leases, claims, now, k);
  }

  /** A target's claim survives a pass exactly when the run is queued and was reserved less than a minute ago, or has
    * begun and is not marked lost. */
  lemma ClaimKeptExactly(rs: RecordMap, leases: LeaseMap, claims: ClaimMap, now: Time, id: RunId)
    requires TargetsPlain(rs) && id in rs && IsTarget(rs[id]) && Slot(rs[id].machine, id) in claims
    ensures var k := Slot(rs[id].machine, id);
            var after := RecordsAfter(rs, leases, claims, now);
            && id in after
            && (k in PassClaims(rs, leases, claims, now) <==>
                  if rs[id].state.Queued? then now - claims[k] < 60 else Begun(rs[id].state) && after[id] == rs[id])
  {
    KeptExactly(rs, leases, claims, now, id);
    MarkedLostExactly(rs, leases, claims, now, id);
    var k := Slot(rs[id].machine, id);
    var decided := PassRecords(rs, leases, claims, now);
    assert id in decided;
    assert k in PassClaims(rs, leases, claims, now) <==>
      !IsTerminal(decided[id].state) && !Freed(rs, leases, claims, now, k);
  }

  lemma ClaimsOnlyShrink(rs: RecordMap, leases: LeaseMap, claims: ClaimMap, now: Time)
    ensures PassClaims(rs, leases, claims, now).Keys <= claims.Keys
  {
    hide Decide;
  }

  /** A run that is neither target nor request is aborted if and only if it is queued without a lease, marked lost by
    * the same rule as a target, and otherwise left as it is. */
  lemma LoneRunExactly(rs: RecordMap, leases: LeaseMap, claims: ClaimMap, now: Time, id: RunId)
    requires id in rs && !IsTarget(rs[id]) && rs[id].children == []
    ensures var after := RecordsAfter(rs, leases, claims, now);
            var lost := && Begun(rs[id].state) && !AboutToStart(rs, leases, claims, id, now)
                        && !(id in leases && leases[id].expiresAt > now - 600);
            id in after && after[id] ==
              if rs[id].state.Queued? && id !in leases then rs[id].(state := Aborted, updatedAt := now)
              else if lost then rs[id].(state := Lost, updatedAt := now) else rs[id]
  {
  }

  /** A request's verdict, said of its targets. */
  predicate AnyBad(rs: RecordMap, ids: seq<RunId>) {
    exists c :: c in ids && c in rs && (rs[c].state.Failed? || rs[c].state.Lost? || rs[c].state.Aborted?)
  }

  predicate AllDone(rs: RecordMap, ids: seq<RunId>) { forall c :: c in ids ==> c in rs && IsTerminal(rs[c].state) }

  lemma StatesAre(rs: RecordMap, ids: seq<RunId>, s: RunState)
    requires forall c :: c in ids ==> c in rs
    ensures |StatesOf(LoadedChildren(rs, ids))| == |ids|
    ensures s in StatesOf(LoadedChildren(rs, ids)) <==> exists c :: c in ids && c in rs && rs[c].state == s
  {
    LoadedAll(rs, ids);
    var states := StatesOf(LoadedChildren(rs, ids));
    if s in states {
      var i :| 0 <= i < |states| && states[i] == s;
      assert ids[i] in ids;
    }
    if c :| c in ids && c in rs && rs[c].state == s {
      var i :| 0 <= i < |ids| && ids[i] == c;
      assert states[i] == s;
    }
  }

  /** Settling a live request: failed if some target failed, was lost or aborted, else succeeded, once all are done. */
  lemma SettledExactly(rs: RecordMap, now: Time, p: RunId)
    requires p in rs && rs[p].children != [] && !IsTerminal(rs[p].state)
    requires forall c :: c in rs[p].children ==> c in rs
    ensures var ids := rs[p].children;
            Aggregated(rs, now, p) ==
              if AllDone(rs, ids) then rs[p].(state := if AnyBad(rs, ids) then Failed else Succeeded, updatedAt := now)
              else rs[p]
  {
    var ids := rs[p].children;
    var states := StatesOf(LoadedChildren(rs, ids));
    forall s ensures s in states <==> exists c :: c in ids && c in rs && rs[c].state == s { StatesAre(rs, ids, s); }
    StatesAre(rs, ids, Failed);
    hide StatesOf, LoadedChildren;
    if AnyBad(rs, ids) {
      var c :| c in ids && c in rs && (rs[c].state.Failed? || rs[c].state.Lost? || rs[c].state.Aborted?);
      assert rs[c].state in states && Failing(rs[c].state);
    }
    assert (exists s :: s in states && Failing(s)) <==> AnyBad(rs, ids);
    assert (forall s :: s in states ==> IsTerminal(s)) <==> AllDone(rs, ids);
  }

  /** A live request whose targets are there is settled by the pass that finds, or leaves, all of them terminal, and
    * is left as it is while one is live. */
  lemma RequestsSettled(rs: RecordMap, leases: LeaseMap, claims: ClaimMap, now: Time, p: RunId)
    requires p in rs && rs[p].children != [] && rs[p].state.Queued? && rs[p].parent.None?
    requires forall c :: c in rs[p].children ==> c in rs && IsTarget(rs[c]) && rs[c].children == []
    ensures var after, ids := RecordsAfter(rs, leases, claims, now), rs[p].children;
            && p in after && after[p] ==
                 if AllDone(after, ids) then
                   rs[p].(state := if AnyBad(after, ids) then Failed else Succeeded, updatedAt := now)
                 else rs[p]
  {
    var decided, after := PassRecords(rs, leases, claims, now), RecordsAfter(rs, leases, claims, now);
    var ids := rs[p].children;
    assert p in decided && decided[p] == rs[p];
    forall c | c in ids ensures c in decided && c in after && after[c] == decided[c] {
      TargetUnsettled(rs, leases, claims, now, c);
    }
    SettledExactly(decided, now, p);
    hide Decide, Aggregated, PassRecords;
    assert AllDone(after, ids) <==> AllDone(decided, ids);
    assert AnyBad(after, ids) <==> AnyBad(decided, ids);
  }

  lemma TargetUnsettled(rs: RecordMap, leases: LeaseMap, claims: ClaimMap, now: Time, c: RunId)
    requires c in rs && rs[c].children == []
    ensures var decided, after := PassRecords(rs, leases, claims, now), RecordsAfter(rs, leases, claims, now);
            c in decided && c in after && after[c] == decided[c]
  {
    hide Decide;
  }
}
