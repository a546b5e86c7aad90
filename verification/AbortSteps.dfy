/** An abort's separate steps, when nothing comes between them, add up to the abort coded as one loop. */
module AbortSteps {
  import opened RunModel
  import opened Records
  import opened StateDirectory
  import opened Chooser
  import opened Scheduler
  import opened Protocol
  import opened ProtocolCore
  import opened Lifecycle

  /** Where an abort caller gets in `n` steps. */
  function Steps(e: Env, pc: AbortPc, n: nat): Acted<AbortPc>
    decreases n
  {
    if n == 0 then Acted(e, pc)
    else
      var t := AbortStep(e, pc);
      Steps(t.env, t.me, n - 1)
  }

  lemma {:induction false} StepsAdd(e: Env, pc: AbortPc, m: nat, n: nat)
    ensures var t := Steps(e, pc, m); Steps(e, pc, m + n) == Steps(t.env, t.me, n)
    decreases m
  {
    hide AbortStep;
    if m > 0 {
      var t := AbortStep(e, pc);
      StepsAdd(t.env, t.me, m - 1, n);
    }
  }

  function Alone(b: nat, n: nat): seq<Action> { seq(n, _ => StepAbort(b)) }

  /** The steps as actions of caller `b` alone. */
  lemma {:induction false} AloneSteps(cfg: Inventory, s: System, b: nat, n: nat)
    requires b in s.aborts
    ensures var t := Steps(s.env, s.aborts[b], n);
            Run(cfg, s, Alone(b, n)) == s.(env := t.env, aborts := s.aborts[b := t.me])
    decreases n
  {
    hide AbortStep;
    if n == 0 {
      assert s.aborts[b := s.aborts[b]] == s.aborts;
    } else {
      var t := AbortStep(s.env, s.aborts[b]);
      var s' := s.(env := t.env, aborts := s.aborts[b := t.me]);
      assert Alone(b, n)[1..] == Alone(b, n - 1);
      AloneSteps(cfg, s', b, n - 1);
      var me := Steps(t.env, t.me, n - 1).me;
      assert s'.aborts[b := me] == s.aborts[b := me];
    }
  }

  // ---------------------------------------------------------------- listing the targets

  function Kids(rs: RecordMap, ids: seq<RunId>): seq<Kid>
    requires forall c :: c in ids ==> c in rs
  {
    seq(|ids|, i requires 0 <= i < |ids| => Kid(ids[i], rs[ids[i]].state))
  }

  lemma {:induction false} Listed(e: Env, p: RunId, i: nat)
    requires p in e.reg.records && i <= |e.reg.records[p].children|
    requires forall c :: c in e.reg.records[p].children ==> c in e.reg.records
    ensures var rs, ids := e.reg.records, e.reg.records[p].children;
            Steps(e, BList(p, i, Kids(rs, ids[..i])), |ids| - i + 1) == Acted(e, BEach(p, Kids(rs, ids), 0))
    decreases |e.reg.records[p].children| - i
  {
    var rs, ids := e.reg.records, e.reg.records[p].children;
    var at := BList(p, i, Kids(rs, ids[..i]));
    if i == |ids| {
      assert ids[..i] == ids;
      assert Steps(e, at, 1) == Steps(e, BEach(p, Kids(rs, ids), 0), 0);
    } else {
      var next := BList(p, i + 1, Kids(rs, ids[..i+1]));
      assert ids[i] in ids;
      assert Kids(rs, ids[..i+1]) == Kids(rs, ids[..i]) + [Kid(ids[i], rs[ids[i]].state)];
      assert AbortStep(e, at) == Acted(e, next);
      hide AbortStep, Kids;
      Listed(e, p, i + 1);
    }
  }

  // ---------------------------------------------------------------- cancelling them

  /** The shared state once the targets in `done` have been cancelled. */
  function CancelledEnv(e: Env, done: set<RunId>): Env {
    e.(reg := e.reg.(records := CancelledRecords(e.reg.records, e.reg.clock, done)),
       claims := CancelledClaims(e.reg.records, e.claims, done))
  }

  /** The targets have records that name the machine they were made for. */
  predicate TargetsPlaced(g: Registry, ids: seq<RunId>) {
    forall c :: c in ids ==>
      c in g.records && c in g.minted && g.minted[c] == g.records[c].machine && !g.records[c].state.Aggregating?
  }

  lemma CancelNext(e: Env, p: RunId, ids: seq<RunId>, i: nat) returns (n: nat)
    requires !Locked(e) && TargetsPlaced(e.reg, ids) && i < |ids|
    ensures var kids := Kids(e.reg.records, ids);
            Steps(CancelledEnv(e, Targets(ids[..i])), BEach(p, kids, i), n) ==
              Acted(CancelledEnv(e, Targets(ids[..i+1])), BEach(p, kids, i + 1))
  {
    var rs, kids, c := e.reg.records, Kids(e.reg.records, ids), ids[i];
    var done := Targets(ids[..i]);
    assert c in ids && kids[i] == Kid(c, rs[c].state);
    assert Targets(ids[..i+1]) == done + {c};
    var e1, e2 := CancelledEnv(e, done), CancelledEnv(e, done + {c});
    if IsTerminal(rs[c].state) {
      SkipOne(rs, e.claims, e.reg.clock, done, c);
      assert AbortStep(e1, BEach(p, kids, i)) == Acted(e1, BEach(p, kids, i + 1));
      n := 1;
      assert Steps(e1, BEach(p, kids, i), 1) == Steps(e1, BEach(p, kids, i + 1), 0);
    } else {
      CancelOne(rs, e.claims, e.reg.clock, done, c);
      n := CancelLive(e1, e2, p, kids, i);
    }
  }

  /** One or two steps: the record, then the slot if the record was changed. */
  lemma CancelLive(e: Env, e': Env, p: RunId, kids: seq<Kid>, i: nat) returns (n: nat)
    requires !Locked(e) && i < |kids| && kids[i].id in e.reg.minted && !kids[i].loaded.Lost?
    requires var t := CancelledAs(e.reg.records, kids[i].id, kids[i].loaded, e.reg.clock);
             var free := Released(e.claims, MachineOf(e, kids[i].id), kids[i].id);
             e' == if t.Some? then e.(reg := e.reg.(records := t.value), claims := free) else e
    ensures Steps(e, BEach(p, kids, i), n) == Acted(e', BEach(p, kids, i + 1))
  {
    hide CancelledAs, Released;
    var t := CancelledAs(e.reg.records, kids[i].id, kids[i].loaded, e.reg.clock);
    if t.Some? {
      var saved := e.(reg := e.reg.(records := t.value));
      assert AbortStep(e, BEach(p, kids, i)) == Acted(saved, BDrop(p, kids, i));
      assert AbortStep(saved, BDrop(p, kids, i)) == Acted(e', BEach(p, kids, i + 1));
      n := 2;
      assert Steps(e, BEach(p, kids, i), 2) == Steps(saved, BDrop(p, kids, i), 1) ==
        Steps(e', BEach(p, kids, i + 1), 0);
    } else {
      n := 1;
      assert Steps(e, BEach(p, kids, i), 1) == Steps(e', BEach(p, kids, i + 1), 0);
    }
  }

  lemma {:induction false} CancelAll(e: Env, p: RunId, ids: seq<RunId>, i: nat) returns (n: nat)
    requires !Locked(e) && TargetsPlaced(e.reg, ids) && i <= |ids|
    ensures var kids := Kids(e.reg.records, ids);
            Steps(CancelledEnv(e, Targets(ids[..i])), BEach(p, kids, i), n) ==
              Acted(CancelledEnv(e, Targets(ids)), BEach(p, kids, |ids|))
    decreases |ids| - i
  {
    hide AbortStep, CancelledEnv;
    if i == |ids| {
      assert ids[..i] == ids;
      n := 0;
    } else {
      var one := CancelNext(e, p, ids, i);
      var others := CancelAll(e, p, ids, i + 1);
      StepsAdd(CancelledEnv(e, Targets(ids[..i])), BEach(p, Kids(e.reg.records, ids), i), one, others);
      n := one + others;
    }
  }

  // ---------------------------------------------------------------- the whole abort

  /** The shared state an uninterrupted abort leaves. */
  function AbortedEnv(e: Env, id: RunId): Env
    requires id in e.reg.records
  {
    var after := AfterAbort(e.reg.records, e.claims, id, e.reg.clock);
    e.(reg := e.reg.(records := after.records), claims := after.claims)
  }

  /** Listing, cancelling and recording the request as aborted. */
  lemma AbortRequest(e: Env, p: RunId) returns (n: nat)
    requires !Locked(e) && p in e.reg.records && TargetsPlaced(e.reg, e.reg.records[p].children)
    ensures var cancelled := CancelledEnv(e, Targets(e.reg.records[p].children));
            Steps(e, BList(p, 0, []), n) ==
              Acted(Save(cancelled, Transitioned(cancelled.reg.records, p, Aborted, e.reg.clock)), BDone(p))
  {
    var rs, ids := e.reg.records, e.reg.records[p].children;
    Listed(e, p, 0);
    assert Kids(rs, ids[..0]) == [] && Targets(ids[..0]) == {};
    var each := CancelAll(e, p, ids, 0);
    NothingCancelled(e);
    var cancelled := CancelledEnv(e, Targets(ids));
    var done := Acted(Save(cancelled, Transitioned(cancelled.reg.records, p, Aborted, e.reg.clock)), BDone(p));
    var kids := Kids(rs, ids);
    assert AbortStep(cancelled, BEach(p, kids, |ids|)) == Acted(cancelled, BParent(p));
    assert AbortStep(cancelled, BParent(p)) == done;
    hide AbortStep, CancelledEnv, Save, Kids;
    assert Steps(cancelled, BEach(p, kids, |ids|), 2) == Steps(cancelled, BParent(p), 1) == Steps(done.env, done.me, 0);
    StepsAdd(e, BEach(p, kids, 0), each, 2);
    StepsAdd(e, BList(p, 0, []), |ids| + 1, each + 2);
    n := |ids| + 1 + (each + 2);
  }

  lemma NothingCancelled(e: Env)
    ensures CancelledEnv(e, {}) == e
  {
    assert CancelledRecords(e.reg.records, e.reg.clock, {}) == e.reg.records;
    assert CancelledClaims(e.reg.records, e.claims, {}) == e.claims;
  }

  /** A target whose request is not on record. */
  lemma AbortAlone(e: Env, id: RunId) returns (n: nat)
    requires !Locked(e) && TargetsPlaced(e.reg, [id]) && RequestOf(e.reg.records, id) == id
    requires e.reg.records[id].children == []
    ensures Steps(e, BSolo(id, e.reg.records[id].state), n) == Acted(AbortedEnv(e, id), BEnd)
  {
    assert id in [id];
    var rs, loaded := e.reg.records, e.reg.records[id].state;
    var t := AbortStep(e, BSolo(id, loaded));
    assert Steps(e, BSolo(id, loaded), 1) == Steps(t.env, t.me, 0);
    if t.me.BFree? {
      var u := AbortStep(t.env, t.me);
      assert Steps(e, BSolo(id, loaded), 2) == Steps(t.env, t.me, 1) == Steps(u.env, u.me, 0);
      n := 2;
    } else {
      n := 1;
    }
  }

  lemma RunsPlaced(g: Registry, id: RunId)
    requires RegistryOk(g) && id in g.records
    ensures IsTarget(g.records[id]) <==> g.records[id].children == []
    ensures TargetsPlaced(g, [id]) && TargetsPlaced(g, g.records[id].children)
    ensures IsTarget(g.records[id]) && g.records[id].parent.value in g.records ==>
        !IsTarget(g.records[g.records[id].parent.value])
  {
    RecordIn(g, id);
    var p := RequestOf(g.records, id);
    RecordIn(g, p);
    forall c | c in g.records[id].children
      ensures c in g.records && c in g.minted && g.minted[c] == g.records[c].machine && !g.records[c].state.Aggregating?
    {
      RecordIn(g, c);
    }
  }

  /** From the load on: the request of a target whose request is on record, the request itself, or the run alone. */
  lemma AbortFrom(e: Env, id: RunId) returns (n: nat)
    requires RegistryOk(e.reg) && !Locked(e) && id in e.reg.records
    ensures var p := RequestOf(e.reg.records, id);
            Steps(e, BLoad(id), n) ==
              Acted(AbortedEnv(e, id), if e.reg.records[p].children == [] then BEnd else BDone(p))
  {
    var p := RequestOf(e.reg.records, id);
    RunsPlaced(e.reg, id);
    RunsPlaced(e.reg, p);
    hide RegistryOk, TargetsPlaced, AbortedEnv, AbortStep;
    var first, next := Begins(e, id);
    var rest := 0;
    if next.BSolo? {
      rest := AbortAlone(e, id);
    } else {
      rest := AbortRequestOf(e, id);
    }
    StepsAdd(e, BLoad(id), first, rest);
    n := first + rest;
  }

  lemma Begins(e: Env, id: RunId) returns (n: nat, next: AbortPc)
    requires id in e.reg.records
    ensures Steps(e, BLoad(id), n) == Acted(e, next)
    ensures var rs, p := e.reg.records, RequestOf(e.reg.records, id);
            var alone := IsTarget(rs[id]) && p == id && rs[id].parent.value !in rs;
            next == if alone then BSolo(id, rs[id].state) else BList(p, 0, [])
  {
    var begin := AbortStep(e, BLoad(id)).me;
    n, next := 1, begin;
    assert Steps(e, BLoad(id), 1) == Steps(e, begin, 0);
    if begin.BUp? {
      n, next := 2, AbortStep(e, begin).me;
      assert Steps(e, BLoad(id), 2) == Steps(e, begin, 1) == Steps(e, next, 0);
    }
  }

  lemma AbortRequestOf(e: Env, id: RunId) returns (n: nat)
    requires !Locked(e) && id in e.reg.records
    requires var p := RequestOf(e.reg.records, id);
             e.reg.records[p].children != [] && TargetsPlaced(e.reg, e.reg.records[p].children)
    ensures var p := RequestOf(e.reg.records, id); Steps(e, BList(p, 0, []), n) == Acted(AbortedEnv(e, id), BDone(p))
  {
    hide AbortStep;
    n := AbortRequest(e, RequestOf(e.reg.records, id));
  }

  /** From every reachable state without an admission in progress, an abort caller taking its steps with nothing in
    * between ends with exactly the records and claims of the abort coded as one loop, and changes nothing else. */
  lemma AbortAsSteps(cfg: Inventory, before: seq<Action>, b: nat, id: RunId) returns (n: nat)
    requires var s := Run(cfg, INITIAL, before);
             b in s.aborts && s.aborts[b] == BLoad(id) && id in s.env.reg.records && !Locked(s.env)
    ensures var s := Run(cfg, INITIAL, before);
            var p := RequestOf(s.env.reg.records, id);
            Run(cfg, s, Alone(b, n)) ==
              s.(env := AbortedEnv(s.env, id),
                 aborts := s.aborts[b := if s.env.reg.records[p].children == [] then BEnd else BDone(p)])
  {
    hide Step, AbortedEnv;
    InitialCore();
    RunKeeps(cfg, INITIAL, before);
    var s := Run(cfg, INITIAL, before);
    n := AbortFrom(s.env, id);
    AloneSteps(cfg, s, b, n);
  }
}
