/** Abort as one caller runs it, in place: cancel every live target, then the build request. */
module Lifecycle {
  import opened RunModel
  import opened Records
  import opened StateDirectory
  import opened Scheduler

  predicate Cancellable(s: RunState) { s.Queued? || s.Staging? || s.Running? || s.Committing? }

  /** A cancelled run: aborted at once while queued, else asked to stop. */
  function CancelledRun(r: RunRecord, now: Time): RunRecord {
    if r.state.Queued? then r.(state := Aborted, updatedAt := now)
    else if Cancellable(r.state) && r.cancelAt.None? then r.(cancelAt := Some(now), updatedAt := now)
    else r
  }

  /** As for a build's target, except that a lost run is accepted and left as it is. */
  function Cancellation(rs: RecordMap, id: RunId, loaded: RunState, now: Time): Option<RecordMap> {
    if loaded.Lost? then Some(rs) else CancelledAs(rs, id, loaded, now)
  }

  /** The claims after it. */
  function SlotAfter(rs: RecordMap, claims: ClaimMap, id: RunId, loaded: RunRecord, now: Time): ClaimMap {
    if Cancellation(rs, id, loaded.state, now).Some? && (loaded.state.Queued? || loaded.state.Lost?)
    then Released(claims, loaded.machine, id) else claims
  }

  /** A queued or lost run frees its slot here; a started one leaves that to its worker. */
  method AbortSingle(d: StateDir, id: RunId, loaded: RunRecord, now: Time) returns (ok: bool)
    modifies d`records, d`claims
    ensures ok <==> Cancellation(old(d.records), id, loaded.state, now).Some?
    ensures d.records == if ok then Cancellation(old(d.records), id, loaded.state, now).value else old(d.records)
    ensures d.claims == SlotAfter(old(d.records), old(d.claims), id, loaded, now)
  {
    match loaded.state {
      case Queued =>
        ok := d.Transition(id, Aborted, now);
        if ok { ReleaseSlot(d, loaded.machine, id); }
      case Lost =>
        ReleaseSlot(d, loaded.machine, id);
        ok := true;
      case Staging => ok := d.RequestCancellation(id, now);
      case Running => ok := d.RequestCancellation(id, now);
      case Committing => ok := d.RequestCancellation(id, now);
      case _ => ok := false;
    }
  }

  /** Cancelling one target more, also when it is listed twice. */
  lemma CancelOne(rs: RecordMap, claims: ClaimMap, now: Time, done: set<RunId>, c: RunId)
    requires c in rs && !IsTerminal(rs[c].state) && !rs[c].state.Aggregating?
    ensures var rs1, cs1 := CancelledRecords(rs, now, done), CancelledClaims(rs, claims, done);
            var t := Cancellation(rs1, c, rs[c].state, now);
            && CancelledRecords(rs, now, done + {c}) == (if t.Some? then t.value else rs1)
            && CancelledClaims(rs, claims, done + {c}) == (if t.Some? then Released(cs1, rs[c].machine, c) else cs1)
  {
  }

  /** Missing and terminal targets are passed over. */
  lemma SkipOne(rs: RecordMap, claims: ClaimMap, now: Time, done: set<RunId>, c: RunId)
    requires c in rs ==> IsTerminal(rs[c].state)
    ensures CancelledRecords(rs, now, done + {c}) == CancelledRecords(rs, now, done)
    ensures CancelledClaims(rs, claims, done + {c}) == CancelledClaims(rs, claims, done)
  {
  }

  /** The request whose targets an abort of `id` cancels: its build when that is on record, else itself. */
  function RequestOf(rs: RecordMap, id: RunId): RunId
    requires id in rs
  {
    if rs[id].parent.Some? && rs[id].parent.value in rs then rs[id].parent.value else id
  }

  /** The records once the targets in `done` have been cancelled. */
  function CancelledRecords(rs: RecordMap, now: Time, done: set<RunId>): RecordMap {
    map id | id in rs :: if id in done then CancelledRun(rs[id], now) else rs[id]
  }

  /** The claims once the live targets in `done` have lost theirs. */
  function CancelledClaims(rs: RecordMap, claims: ClaimMap, done: set<RunId>): ClaimMap {
    map k | k in claims && !(k.run in done && HeldByLive(rs, k)) :: claims[k]
  }

  predicate HeldByLive(rs: RecordMap, k: Slot) {
    k.run in rs && k.machine == rs[k.run].machine && !IsTerminal(rs[k.run].state)
  }

  function Targets(ids: seq<RunId>): set<RunId> { set id | id in ids }

  datatype AbortResult = AbortResult(records: RecordMap, claims: ClaimMap, ok: bool)

  /** What an abort of `id` leaves behind: every live target of its request cancelled without its slot and the request
    * aborted if it was live; a run without targets is cancelled alone. */
  function AfterAbort(rs: RecordMap, claims: ClaimMap, id: RunId, now: Time): AbortResult
    requires id in rs
  {
    var p := RequestOf(rs, id);
    if rs[p].children == [] then
      var single := Cancellation(rs, p, rs[p].state, now);
      AbortResult(if single.Some? then single.value else rs, SlotAfter(rs, claims, p, rs[p], now), single.Some?)
    else
      var targets := Targets(rs[p].children);
      var cancelled := CancelledRecords(rs, now, targets);
      var ended := Transitioned(cancelled, p, Aborted, now);
      AbortResult(if ended.Some? then ended.value else cancelled, CancelledClaims(rs, claims, targets), ended.Some?)
  }

  /** Without interference an abort stops every target of the build and ends aborted exactly when the request
    * was live. */
  method Abort(d: StateDir, id: RunId, now: Time) returns (ok: bool)
    requires forall r :: r in d.records ==> !d.records[r].state.Aggregating?
    requires forall p :: p in d.records ==> p !in d.records[p].children
    modifies d`records, d`claims
    ensures id !in old(d.records) ==> !ok && d.records == old(d.records) && d.claims == old(d.claims)
    ensures id in old(d.records) ==>
        AbortResult(d.records, d.claims, ok) == AfterAbort(old(d.records), old(d.claims), id, now)
    ensures id in old(d.records) ==>
      var rs, p := old(d.records), RequestOf(old(d.records), id);
      rs[p].children != [] ==>
        && ok == !IsTerminal(rs[p].state)
        && (ok ==> d.records[p].state.Aborted?)
        && forall c :: c in rs[p].children && c in rs ==> Stopped(d.records[c])
  {
    if id !in d.records { return false; }
    var rs := d.records;
    var p := id;
    if rs[id].parent.Some? && rs[id].parent.value in rs { p := rs[id].parent.value; }
    if rs[p].children == [] {
      ok := AbortSingle(d, p, rs[p], now);
      return;
    }
    CancelTargets(d, rs[p].children, now);
    ok := d.Transition(p, Aborted, now);
  }

  /** The loop over the loaded targets: each is judged by the state it was loaded in. */
  method CancelTargets(d: StateDir, children: seq<RunId>, now: Time)
    requires forall r :: r in d.records ==> !d.records[r].state.Aggregating?
    modifies d`records, d`claims
    ensures d.records == CancelledRecords(old(d.records), now, Targets(children))
    ensures d.claims == CancelledClaims(old(d.records), old(d.claims), Targets(children))
    ensures forall c :: c in children && c in old(d.records) ==> c in d.records && Stopped(d.records[c])
  {
    var loaded := d.records;
    ghost var cs := d.claims;
    assert CancelledRecords(loaded, now, {}) == loaded && CancelledClaims(loaded, cs, {}) == cs;
    assert Targets(children[..0]) == {};
    for i := 0 to |children|
      invariant d.records == CancelledRecords(loaded, now, Targets(children[..i]))
      invariant d.claims == CancelledClaims(loaded, cs, Targets(children[..i]))
    {
      var c := children[i];
      assert Targets(children[..i+1]) == Targets(children[..i]) + {c};
      if c !in loaded || IsTerminal(loaded[c].state) {
        SkipOne(loaded, cs, now, Targets(children[..i]), c);
        continue;
      }
      CancelOne(loaded, cs, now, Targets(children[..i]), c);
      var ok := AbortSingle(d, c, loaded[c], now);
      if ok { ReleaseSlot(d, loaded[c].machine, c); }
    }
    assert children[..|children|] == children;
  }

  // ---------------------------------------------------------------- what an abort means

  /** The abort of `id` is the abort of `p`: its request, or itself when it has none on record. */
  predicate Heads(rs: RecordMap, id: RunId, p: RunId) {
    && id in rs && p in rs
    && (rs[id].parent == Some(p) || (id == p && (rs[id].parent.Some? ==> rs[id].parent.value !in rs)))
  }

  /** Aborting a request or any of its targets: queued targets end at once, begun ones are asked to stop unless they
    * were asked before, live ones lose their slots, a live request ends, and no other record or claim changes. */
  lemma AbortedBuild(rs: RecordMap, claims: ClaimMap, id: RunId, p: RunId, now: Time, c: RunId)
    requires Heads(rs, id, p) && rs[p].children != [] && p !in rs[p].children && c in rs
    ensures var a := AfterAbort(rs, claims, id, now);
            var r, st := rs[c], rs[c].state;
            var r', begun := a.records[c], st.Staging? || st.Running? || st.Committing?;
            && a.records.Keys == rs.Keys && (a.ok <==> !IsTerminal(rs[p].state) && !rs[p].state.Aggregating?)
            && (c in rs[p].children && r.state.Queued? ==> r' == r.(state := Aborted, updatedAt := now))
            && (c in rs[p].children && begun ==>
                  r' == if r.cancelAt.Some? then r else r.(cancelAt := Some(now), updatedAt := now))
            && (c == p ==> r' == if a.ok then r.(state := Aborted, updatedAt := now) else r)
            && (c != p && (c !in rs[p].children || IsTerminal(r.state)) ==> r' == r)
  {
  }

  /** An abort takes exactly the slots of its live targets. */
  lemma AbortedClaims(rs: RecordMap, claims: ClaimMap, id: RunId, p: RunId, now: Time, k: Slot)
    requires Heads(rs, id, p) && rs[p].children != [] && k in claims
    ensures var a := AfterAbort(rs, claims, id, now);
            && a.claims.Keys <= claims.Keys && (k in a.claims ==> a.claims[k] == claims[k])
            && (k !in a.claims <==> && k.run in rs[p].children && k.run in rs && !IsTerminal(rs[k.run].state)
                                    && k.machine == rs[k.run].machine)
  {
  }

  /** Aborting a run without targets: it ends at once and frees its slot if queued, is asked to stop if it has begun,
    * frees its slot if lost, and refuses otherwise. */
  lemma AbortedAlone(rs: RecordMap, claims: ClaimMap, id: RunId, now: Time)
    requires Heads(rs, id, id) && rs[id].children == []
    ensures var a, r, st := AfterAbort(rs, claims, id, now), rs[id], rs[id].state;
            var asked := if r.cancelAt.Some? then r else r.(cancelAt := Some(now), updatedAt := now);
            && (a.ok <==> st.Queued? || st.Staging? || st.Running? || st.Committing? || st.Lost?)
            && a.records == rs[id := if st.Queued? then r.(state := Aborted, updatedAt := now)
                                     else if st.Staging? || st.Running? || st.Committing? then asked else r]
            && a.claims == if st.Queued? || st.Lost? then claims - {Slot(r.machine, id)} else claims
  {
  }
}
