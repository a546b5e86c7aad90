/** The coordinator's durable state and the store operations that change it in place. */
module StateDirectory {
  import opened RunModel
  import opened Records

  /** A slot claim is one file, named by its machine and its run. */
  datatype Slot = Slot(machine: string, run: RunId)
  type ClaimMap = map<Slot, Time>

  predicate IsTarget(r: RunRecord) { r.parent.Some? }

  predicate Live(r: RunRecord) { IsTarget(r) && !IsTerminal(r.state) }

  /** Lists a directory's entries; the order is whatever the iteration yields. */
  method ReadDir<K>(keys: set<K>) returns (entries: seq<K>)
    ensures forall k :: k in entries <==> k in keys
    ensures forall i, j :: 0 <= i < j < |entries| ==> entries[i] != entries[j]
  {
    entries := [];
    var rest := keys;
    while rest != {}
      invariant rest <= keys
      invariant forall k :: k in entries <==> k in keys - rest
      invariant forall i, j :: 0 <= i < j < |entries| ==> entries[i] != entries[j]
      decreases rest
    {
      var k :| k in rest;
      assert k !in entries;
      ghost var before := entries;
      entries := entries + [k];
      rest := rest - {k};
      assert forall x :: x in entries <==> x in before || x == k;
    }
  }

  class StateDir {
    var records: RecordMap
    var leases: LeaseMap
    var results: ResultMap
    var claims: ClaimMap

    constructor ()
      ensures records == map[] && leases == map[] && results == map[] && claims == map[]
    {
      records, leases, results, claims := map[], map[], map[], map[];
    }

    /** Load, apply `fn`, refuse to change a terminal record, save. */
    method Mutate(id: RunId, fn: RunRecord -> Option<RunRecord>) returns (ok: bool)
      modifies `records
      ensures ok <==> && id in old(records) && fn(old(records)[id]).Some?
                      && (IsTerminal(old(records)[id].state) ==> fn(old(records)[id]).value == old(records)[id])
      ensures records == if ok then old(records)[id := fn(old(records)[id]).value] else old(records)
    {
      if id !in records { return false; }
      var before := records[id];
      var changed := fn(before);
      if changed.None? { return false; }
      if IsTerminal(before.state) && changed.value != before { return false; }
      records := records[id := changed.value];
      return true;
    }

    /** The Lost-to-Aborted edge of the table is cut off here: a terminal record never changes. */
    method Transition(id: RunId, to: RunState, now: Time) returns (ok: bool)
      modifies `records
      ensures ok <==> Transitioned(old(records), id, to, now).Some?
      ensures records == if ok then Transitioned(old(records), id, to, now).value else old(records)
    {
      ok := Mutate(id, (r: RunRecord) =>
        if CanTransition(r.state, to) then Some(r.(state := to, updatedAt := now)) else None);
    }

    method RequestCancellation(id: RunId, now: Time) returns (ok: bool)
      modifies `records
      ensures ok <==> CancelRequested(old(records), id, now).Some?
      ensures records == if ok then CancelRequested(old(records), id, now).value else old(records)
    {
      ok := Mutate(id, (r: RunRecord) =>
        if r.state.Succeeded? || r.state.Failed? || r.state.Aborted? then None
        else if r.cancelAt.None? then Some(r.(cancelAt := Some(now), updatedAt := now))
        else Some(r));
      assert ok && old(records)[id].cancelAt.Some? ==> records == old(records);
    }

    method PublishResult(id: RunId, value: BuildResult) returns (ok: bool)
      modifies `results
      ensures ok <==> Published(records, old(results), id, value).Some?
      ensures results == if ok then Published(records, old(results), id, value).value else old(results)
    {
      if id !in records { return false; }
      if IsTerminal(records[id].state) { return false; }
      if id in results { return false; }
      results := results[id := value];
      return true;
    }

    method Claim(id: RunId, owner: WorkerId, now: Time, ttl: Time) returns (ok: bool)
      modifies `leases
      ensures ok <==> LeaseClaimed(old(leases), id, owner, now, ttl).Some?
      ensures leases == if ok then LeaseClaimed(old(leases), id, owner, now, ttl).value else old(leases)
    {
      if id in leases && leases[id].expiresAt > now { return false; }
      leases := leases[id := Lease(owner, now + ttl)];
      return true;
    }

    method Renew(id: RunId, owner: WorkerId, now: Time, ttl: Time) returns (ok: bool)
      modifies `leases
      ensures ok <==> LeaseRenewed(old(leases), id, owner, now, ttl).Some?
      ensures leases == if ok then LeaseRenewed(old(leases), id, owner, now, ttl).value else old(leases)
    {
      if id !in leases { return false; }
      var current := leases[id];
      if current.owner != owner || !(current.expiresAt > now) { return false; }
      current := current.(expiresAt := now + ttl);
      leases := leases[id := current];
      return true;
    }

    method Release(id: RunId, owner: WorkerId) returns (ok: bool)
      modifies `leases
      ensures ok <==> LeaseReleased(old(leases), id, owner).Some?
      ensures leases == if ok then LeaseReleased(old(leases), id, owner).value else old(leases)
    {
      if id !in leases { return false; }
      if leases[id].owner != owner { return false; }
      leases := leases - {id};
      return true;
    }

    /** Names the parent of some live target, exactly when there is one. */
    method HasLiveBuild() returns (live: Option<RunId>)
      ensures live.None? <==> forall id :: id in records ==> !Live(records[id])
      ensures live.Some? ==> exists id :: id in records && Live(records[id]) && records[id].parent == live
    {
      var entries := ReadDir(records.Keys);
      for i := 0 to |entries|
        invariant forall j :: 0 <= j < i ==> entries[j] in records && !Live(records[entries[j]])
      {
        var meta := records[entries[i]];
        if meta.parent.None? || IsTerminal(meta.state) { continue; }
        return meta.parent;
      }
      return None;
    }

    /** Every queued target, once, as its current record. */
    method LoadQueuedChildren() returns (queued: seq<RunId>)
      ensures forall id :: id in queued <==> id in records && IsTarget(records[id]) && records[id].state.Queued?
      ensures forall i, j :: 0 <= i < j < |queued| ==> queued[i] != queued[j]
    {
      var entries := ReadDir(records.Keys);
      queued := [];
      for i := 0 to |entries|
        invariant forall id :: id in queued <==>
            id in entries[..i] && id in records && IsTarget(records[id]) && records[id].state.Queued?
        invariant forall j, k :: 0 <= j < k < |queued| ==> queued[j] != queued[k]
      {
        var r := records[entries[i]];
        if r.state.Queued? && r.parent.Some? { queued := queued + [entries[i]]; }
      }
      assert entries[..|entries|] == entries;
    }

    /** The targets of a build request in stored order, unreadable ones skipped. */
    method LoadChildren(parent: RunId) returns (out: Option<seq<RunRecord>>)
      ensures out.None? <==> parent !in records
      ensures out.Some? ==> out.value == LoadedChildren(records, records[parent].children)
    {
      if parent !in records { return None; }
      var children := records[parent].children;
      var loaded := [];
      for i := 0 to |children|
        invariant loaded == LoadedChildren(records, children[..i])
      {
        assert children[..i+1][..i] == children[..i];
        if children[i] !in records { continue; }
        loaded := loaded + [records[children[i]]];
      }
      assert children[..|children|] == children;
      return Some(loaded);
    }
  }

  function LoadedChildren(rs: RecordMap, ids: seq<RunId>): seq<RunRecord> {
    if ids == [] then []
    else
      var init := LoadedChildren(rs, ids[..|ids|-1]);
      if ids[|ids|-1] in rs then init + [rs[ids[|ids|-1]]] else init
  }

  function Present(rs: RecordMap, ids: seq<RunId>): nat {
    if ids == [] then 0 else Present(rs, ids[..|ids|-1]) + if ids[|ids|-1] in rs then 1 else 0
  }

  /** The targets that are there load, each after those listed before it, and no other record does. */
  lemma {:induction false} LoadedAt(rs: RecordMap, ids: seq<RunId>)
    ensures |LoadedChildren(rs, ids)| == Present(rs, ids) <= |ids|
    ensures forall i :: 0 <= i < |ids| && ids[i] in rs ==>
      Present(rs, ids[..i]) < Present(rs, ids) && LoadedChildren(rs, ids)[Present(rs, ids[..i])] == rs[ids[i]]
  {
    if ids != [] {
      var init := ids[..|ids|-1];
      LoadedAt(rs, init);
      assert forall i :: 0 <= i < |init| ==> init[..i] == ids[..i];
    }
  }

  /** When every target is there, all of them load, in order. */
  lemma {:induction false} LoadedAll(rs: RecordMap, ids: seq<RunId>)
    requires forall id :: id in ids ==> id in rs
    ensures |LoadedChildren(rs, ids)| == |ids|
    ensures forall i :: 0 <= i < |ids| ==> LoadedChildren(rs, ids)[i] == rs[ids[i]]
  {
    if ids != [] {
      var init := ids[..|ids|-1];
      assert ids == init + [ids[|ids|-1]];
      LoadedAll(rs, init);
    }
  }

  /** The counting loop computes the declarative aggregate. */
  method AggregateState(children: seq<RunState>, parentAborted: bool) returns (state: RunState, noMachine: bool)
    ensures parentAborted ==> state.Aborted? && !noMachine
    ensures !parentAborted ==> (state, noMachine) == Aggregate(children)
    ensures state.Succeeded? <==>
              !parentAborted && children != [] && forall s :: s in children ==> s.Succeeded? || s.Unavailable?
    ensures noMachine <==> !parentAborted && children != [] && forall s :: s in children ==> s.Unavailable?
  {
    AggregateMeans(children);
    if parentAborted { return Aborted, false; }
    var failed, lost, aborted, unavailable, terminal := 0, 0, 0, 0, 0;
    for i := 0 to |children|
      invariant terminal == i && 0 <= unavailable <= terminal
      invariant 0 <= failed && 0 <= lost && 0 <= aborted
      invariant forall s :: s in children[..i] ==> IsTerminal(s)
      invariant failed > 0 || lost > 0 || aborted > 0 <==> exists s :: s in children[..i] && Failing(s)
      invariant unavailable == terminal <==> forall s :: s in children[..i] ==> s.Unavailable?
    {
      var c := children[i];
      assert children[..i+1] == children[..i] + [c];
      assert c in children[..i+1];
      assert forall s :: s in children[..i] ==> s in children[..i+1];
      if !IsTerminal(c) {
        assert c in children;
        return Aggregating, false;
      }
      terminal := terminal + 1;
      match c {
        case Failed => failed := failed + 1;
        case Lost => lost := lost + 1;
        case Aborted => aborted := aborted + 1;
        case Unavailable => unavailable := unavailable + 1;
        case _ =>
      }
    }
    assert children[..|children|] == children;
    if terminal == 0 { return Aggregating, false; }
    if failed > 0 || lost > 0 || aborted > 0 { return Failed, false; }
    return Succeeded, unavailable == terminal;
  }
}
