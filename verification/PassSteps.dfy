/** The reaper's separate steps, when nothing comes between them, add up to the pass coded as one loop. */
module PassSteps {
  import opened RunModel
  import opened Records
  import opened StateDirectory
  import opened Chooser
  import opened Scheduler
  import opened Protocol
  import opened ProtocolCore
  import opened ReaperPass

  /** Records know the machine they were made for, and a run that is no target has targets. */
  predicate Placed(g: Registry) {
    forall id :: id in g.records ==>
      && id in g.minted && g.minted[id] == g.records[id].machine
      && (IsTarget(g.records[id]) || g.records[id].children != [])
  }

  /** Where a reaper gets by these choices, one step each. */
  function Choose(e: Env, me: Reaper, cs: seq<ReaperInput>): Acted<Reaper>
    decreases |cs|
  {
    if cs == [] then Acted(e, me)
    else
      var t := ReaperStep(e, me, cs[0]);
      Choose(t.env, t.me, cs[1..])
  }

  lemma {:induction false} ChooseAppend(e: Env, me: Reaper, a: seq<ReaperInput>, b: seq<ReaperInput>)
    ensures var t := Choose(e, me, a); Choose(e, me, a + b) == Choose(t.env, t.me, b)
    decreases |a|
  {
    hide ReaperStep;
    if a == [] {
      assert a + b == b;
    } else {
      assert (a + b)[1..] == a[1..] + b;
      var t := ReaperStep(e, me, a[0]);
      ChooseAppend(t.env, t.me, a[1..], b);
    }
  }

  function Reaps(r: nat, cs: seq<ReaperInput>): seq<Action> { seq(|cs|, i requires 0 <= i < |cs| => Reap(r, cs[i])) }

  /** The choices as actions of reaper `r` alone. */
  lemma {:induction false} ReapsAreChoices(cfg: Inventory, s: System, r: nat, cs: seq<ReaperInput>)
    requires r in s.reapers
    ensures var t := Choose(s.env, s.reapers[r], cs);
            Run(cfg, s, Reaps(r, cs)) == s.(env := t.env, reapers := s.reapers[r := t.me])
    decreases |cs|
  {
    hide ReaperStep;
    if cs == [] {
      assert s.reapers[r := s.reapers[r]] == s.reapers;
    } else {
      var t := ReaperStep(s.env, s.reapers[r], cs[0]);
      var s' := s.(env := t.env, reapers := s.reapers[r := t.me]);
      assert Reaps(r, cs)[1..] == Reaps(r, cs[1..]);
      ReapsAreChoices(cfg, s', r, cs[1..]);
      assert s'.reapers[r := Choose(t.env, t.me, cs[1..]).me] == s.reapers[r := Choose(t.env, t.me, cs[1..]).me];
    }
  }

  // ---------------------------------------------------------------- one run

  /** Lets a reaper finish what it began, for at most `n` steps. */
  function Finish(e: Env, me: Reaper, n: nat): Acted<Reaper>
    decreases n
  {
    if n == 0 || me.pc.RIdle? then Acted(e, me)
    else
      var t := ReaperStep(e, me, RSweep);
      Finish(t.env, t.me, n - 1)
  }

  /** The reaper is idle again and has done to `id` what the pass decides. */
  ghost predicate DoneAsDecided(e: Env, now: Time, id: RunId, last: Acted<Reaper>)
    requires id in e.reg.records
  {
    var rs := e.reg.records;
    var decision := Decide(rs, e.leases, e.claims, id, now);
    && last.me == Reaper(now, RIdle)
    && last.env == e.(reg := e.reg.(records := rs[id := Marked(rs[id], decision, now)]),
                      claims := if decision.FreeSlot? then Released(e.claims, rs[id].machine, id) else e.claims)
  }

  /** Scanning a run and stepping on until idle does what the pass decides about it, in one go. */
  lemma PassDecidesAsSteps(e: Env, now: Time, id: RunId)
    requires Placed(e.reg) && !Locked(e) && id in e.reg.records
    ensures var first := ReaperStep(e, Reaper(now, RIdle), RScan(id));
            DoneAsDecided(e, now, id, Finish(first.env, first.me, 3))
  {
    hide Finish, DoneAsDecided;
    var state := e.reg.records[id].state;
    if state.Staging? {
      StagingSteps(e, now, id);
    } else if state.Running? || state.Committing? {
      StartedSteps(e, now, id);
    } else if state.Queued? && IsTarget(e.reg.records[id]) {
      QueuedSteps(e, now, id);
    } else {
      NoSteps(e, now, id);
    }
  }

  lemma NoSteps(e: Env, now: Time, id: RunId)
    requires id in e.reg.records && Decide(e.reg.records, e.leases, e.claims, id, now).Keep?
    ensures DoneAsDecided(e, now, id, Finish(e, Reaper(now, RIdle), 3))
  {
  }

  lemma QueuedSteps(e: Env, now: Time, id: RunId)
    requires !Locked(e) && id in e.reg.records && e.reg.records[id].state.Queued? && IsTarget(e.reg.records[id])
    requires id in e.reg.minted && e.reg.minted[id] == e.reg.records[id].machine
    ensures DoneAsDecided(e, now, id, Finish(e, Reaper(now, RSlot(id)), 3))
  {
  }

  lemma StartedSteps(e: Env, now: Time, id: RunId)
    requires id in e.reg.records && (e.reg.records[id].state.Running? || e.reg.records[id].state.Committing?)
    ensures DoneAsDecided(e, now, id, Finish(e, Reaper(now, RLease(id, e.reg.records[id].state)), 3))
  {
    var rs, loaded := e.reg.records, e.reg.records[id].state;
    var marked := Acted(Save(e, Transitioned(rs, id, Lost, now)), Reaper(now, RIdle));
    var reading, marking := Reaper(now, RLease(id, loaded)), Reaper(now, RMark(id, loaded));
    assert rs[id := rs[id]] == rs;
    assert Finish(e, marking, 2) == Finish(marked.env, marked.me, 1) == marked;
    var read := ReaperStep(e, reading, RSweep);
    assert Finish(e, reading, 3) == Finish(read.env, read.me, 2);
  }

  lemma StagingSteps(e: Env, now: Time, id: RunId)
    requires !Locked(e) && id in e.reg.records && e.reg.records[id].state.Staging?
    requires id in e.reg.minted && e.reg.minted[id] == e.reg.records[id].machine
    ensures DoneAsDecided(e, now, id, Finish(e, Reaper(now, RLease(id, Staging)), 3))
  {
    var rs := e.reg.records;
    var marked := Acted(Save(e, Transitioned(rs, id, Lost, now)), Reaper(now, RIdle));
    var reading, checking, marking :=
      Reaper(now, RLease(id, Staging)), Reaper(now, RReservation(id)), Reaper(now, RMark(id, Staging));
    assert rs[id := rs[id]] == rs;
    assert ReaperStep(e, marking, RSweep) == marked;
    assert Finish(e, marking, 1) == Finish(marked.env, marked.me, 0) == marked;
    assert Finish(e, marking, 2) == Finish(marked.env, marked.me, 1) == marked;
    var checked, read := ReaperStep(e, checking, RSweep), ReaperStep(e, reading, RSweep);
    assert Finish(e, checking, 2) == Finish(checked.env, checked.me, 1);
    assert Finish(e, reading, 3) == Finish(read.env, read.me, 2);
  }

  lemma {:induction false} FinishChosen(e: Env, me: Reaper, n: nat) returns (cs: seq<ReaperInput>)
    ensures Choose(e, me, cs) == Finish(e, me, n)
    decreases n
  {
    hide ReaperStep;
    cs := [];
    if n > 0 && !me.pc.RIdle? {
      var t := ReaperStep(e, me, RSweep);
      var rest := FinishChosen(t.env, t.me, n - 1);
      cs := [RSweep] + rest;
      assert cs[1..] == rest;
    }
  }

  // ---------------------------------------------------------------- all runs

  /** The shared state once the runs in `done` have been decided by what was there before. */
  function DecidedEnv(e: Env, now: Time, done: set<RunId>): Env {
    e.(reg := e.reg.(records := DecidedRecords(e.reg.records, e.leases, e.claims, now, done)),
       claims := DecidedClaims(e.reg.records, e.leases, e.claims, now, done))
  }

  lemma DecideNext(e: Env, now: Time, done: set<RunId>, id: RunId) returns (cs: seq<ReaperInput>)
    requires Placed(e.reg) && !Locked(e) && id in e.reg.records && id !in done
    ensures Choose(DecidedEnv(e, now, done), Reaper(now, RIdle), cs) ==
        Acted(DecidedEnv(e, now, done + {id}), Reaper(now, RIdle))
  {
    var e1 := DecidedEnv(e, now, done);
    DecideOne(e.reg.records, e.leases, e.claims, now, done, id);
    assert Placed(e1.reg);
    PassDecidesAsSteps(e1, now, id);
    var first := ReaperStep(e1, Reaper(now, RIdle), RScan(id));
    var rest := FinishChosen(first.env, first.me, 3);
    hide ReaperStep, Decide;
    cs := [RScan(id)] + rest;
    assert cs[1..] == rest;
  }

  lemma {:induction false} DecideAll(e: Env, now: Time, rest: set<RunId>) returns (cs: seq<ReaperInput>)
    requires Placed(e.reg) && !Locked(e) && rest <= e.reg.records.Keys
    ensures Choose(DecidedEnv(e, now, e.reg.records.Keys - rest), Reaper(now, RIdle), cs) ==
              Acted(DecidedEnv(e, now, e.reg.records.Keys), Reaper(now, RIdle))
    decreases rest
  {
    hide DecidedEnv, ReaperStep;
    var all := e.reg.records.Keys;
    if rest == {} {
      assert all - rest == all;
      cs := [];
    } else {
      var id :| id in rest;
      var one := DecideNext(e, now, all - rest, id);
      assert all - rest + {id} == all - (rest - {id});
      var others := DecideAll(e, now, rest - {id});
      ChooseAppend(DecidedEnv(e, now, all - rest), Reaper(now, RIdle), one, others);
      cs := one + others;
    }
  }

  // ---------------------------------------------------------------- the build requests

  /** Reading the targets one by one gathers the states of those that load. */
  lemma {:induction false} ReadTargets(e: Env, now: Time, p: RunId, i: nat) returns (cs: seq<ReaperInput>)
    requires p in e.reg.records && i <= |e.reg.records[p].children|
    ensures var rs, kids := e.reg.records, e.reg.records[p].children;
            Choose(e, Reaper(now, RAgg(p, i, StatesOf(LoadedChildren(rs, kids[..i])))), cs) ==
              Acted(e, Reaper(now, RAgg(p, |kids|, StatesOf(LoadedChildren(rs, kids)))))
    decreases |e.reg.records[p].children| - i
  {
    var rs, kids := e.reg.records, e.reg.records[p].children;
    if i == |kids| {
      assert kids[..i] == kids;
      cs := [];
    } else {
      var seen, next := StatesOf(LoadedChildren(rs, kids[..i])), StatesOf(LoadedChildren(rs, kids[..i+1]));
      assert kids[..i+1][..i] == kids[..i];
      assert next == if kids[i] in rs then seen + [rs[kids[i]].state] else seen;
      assert ReaperStep(e, Reaper(now, RAgg(p, i, seen)), RSweep) == Acted(e, Reaper(now, RAgg(p, i + 1, next)));
      hide ReaperStep, StatesOf, LoadedChildren;
      var rest := ReadTargets(e, now, p, i + 1);
      cs := [RSweep] + rest;
      assert cs[1..] == rest;
    }
  }

  function AggregatedEnv(e: Env, now: Time, done: set<RunId>): Env {
    e.(reg := e.reg.(records := AggregatedRecords(e.reg.records, now, done)))
  }

  /** Reducing what was read and writing it, if there is something to write. */
  lemma WriteVerdict(e: Env, now: Time, p: RunId) returns (cs: seq<ReaperInput>)
    requires p in e.reg.records && IsRequest(e.reg.records[p]) && !IsTerminal(e.reg.records[p].state)
    ensures var rs, kids := e.reg.records, e.reg.records[p].children;
            Choose(e, Reaper(now, RAgg(p, |kids|, StatesOf(LoadedChildren(rs, kids)))), cs) ==
              Acted(e.(reg := e.reg.(records := rs[p := Aggregated(rs, now, p)])), Reaper(now, RIdle))
  {
    var rs, kids := e.reg.records, e.reg.records[p].children;
    var seen := StatesOf(LoadedChildren(rs, kids));
    var atEnd := Reaper(now, RAgg(p, |kids|, seen));
    hide StatesOf, LoadedChildren, Aggregate;
    var verdict := Aggregate(seen).0;
    if verdict.Aggregating? {
      assert rs[p := Aggregated(rs, now, p)] == rs;
      assert ReaperStep(e, atEnd, RSweep) == Acted(e, Reaper(now, RIdle));
      cs := [RSweep];
    } else {
      var writing := Reaper(now, RAggWrite(p, verdict));
      assert ReaperStep(e, atEnd, RSweep) == Acted(e, writing);
      cs := [RSweep, RSweep];
      assert cs[1..] == [RSweep];
    }
    assert [RSweep][1..] == [];
  }

  lemma AggregateNext(e: Env, now: Time, p: RunId) returns (cs: seq<ReaperInput>)
    requires p in e.reg.records
    ensures Choose(e, Reaper(now, RIdle), cs) ==
              Acted(e.(reg := e.reg.(records := e.reg.records[p := Aggregated(e.reg.records, now, p)])),
                    Reaper(now, RIdle))
  {
    var rs := e.reg.records;
    if !IsRequest(rs[p]) || IsTerminal(rs[p].state) {
      assert rs[p := rs[p]] == rs;
      cs := [];
    } else {
      var reading := ReadTargets(e, now, p, 0);
      var writes := WriteVerdict(e, now, p);
      var begun := Reaper(now, RAgg(p, 0, []));
      assert rs[p].children[..0] == [] && StatesOf(LoadedChildren(rs, [])) == [];
      assert ReaperStep(e, Reaper(now, RIdle), RAggregate(p)) == Acted(e, begun);
      hide ReaperStep, Aggregated;
      ChooseAppend(e, begun, reading, writes);
      cs := [RAggregate(p)] + (reading + writes);
      assert cs[1..] == reading + writes;
    }
  }

  lemma {:induction false} AggregateAll(e: Env, now: Time, rest: set<RunId>) returns (cs: seq<ReaperInput>)
    requires Flat(e.reg.records) && rest <= e.reg.records.Keys
    ensures Choose(AggregatedEnv(e, now, e.reg.records.Keys - rest), Reaper(now, RIdle), cs) ==
              Acted(AggregatedEnv(e, now, e.reg.records.Keys), Reaper(now, RIdle))
    decreases rest
  {
    var all := e.reg.records.Keys;
    if rest == {} {
      assert all - rest == all;
      cs := [];
    } else {
      var p :| p in rest;
      AggregateOne(e.reg.records, now, all - rest, p);
      var one := AggregateNext(AggregatedEnv(e, now, all - rest), now, p);
      assert all - rest + {p} == all - (rest - {p});
      hide ReaperStep, AggregatedRecords, Aggregated;
      var others := AggregateAll(e, now, rest - {p});
      ChooseAppend(AggregatedEnv(e, now, all - rest), Reaper(now, RIdle), one, others);
      cs := one + others;
    }
  }

  // ---------------------------------------------------------------- the whole pass

  /** The shared state a pass at `now` leaves. */
  function PassedEnv(e: Env, now: Time): Env {
    var decided := PassRecords(e.reg.records, e.leases, e.claims, now);
    e.(reg := e.reg.(records := AggregatedRecords(decided, now, decided.Keys)),
       claims := PassClaims(e.reg.records, e.leases, e.claims, now))
  }

  lemma WholePass(e: Env, now: Time) returns (cs: seq<ReaperInput>)
    requires Placed(e.reg) && Flat(e.reg.records) && !Locked(e)
    ensures Choose(e, Reaper(now, RIdle), cs) == Acted(PassedEnv(e, now), Reaper(now, RIdle))
  {
    var rs, idle := e.reg.records, Reaper(now, RIdle);
    var decide := DecideAll(e, now, rs.Keys);
    assert rs.Keys - rs.Keys == {};
    NothingDone(e, now);
    var decided := DecidedEnv(e, now, rs.Keys);
    var swept := decided.(claims := Reaped(decided.claims, decided.reg.records));
    assert ReaperStep(decided, idle, RSweep) == Acted(swept, idle);
    assert Flat(swept.reg.records);
    var settle := AggregateAll(swept, now, swept.reg.records.Keys);
    assert swept.reg.records.Keys - swept.reg.records.Keys == {};
    NothingSettled(swept, now);
    assert AggregatedEnv(swept, now, swept.reg.records.Keys) == PassedEnv(e, now);
    hide ReaperStep, DecidedEnv, AggregatedEnv, PassedEnv;
    var later := [RSweep] + settle;
    assert later[1..] == settle;
    ChooseAppend(e, idle, decide, later);
    cs := decide + later;
  }

  lemma NothingDone(e: Env, now: Time)
    ensures DecidedEnv(e, now, {}) == e
  {
    assert DecidedRecords(e.reg.records, e.leases, e.claims, now, {}) == e.reg.records;
    assert DecidedClaims(e.reg.records, e.leases, e.claims, now, {}) == e.claims;
  }

  lemma NothingSettled(e: Env, now: Time)
    ensures AggregatedEnv(e, now, {}) == e
  {
    assert AggregatedRecords(e.reg.records, now, {}) == e.reg.records;
  }

  lemma RecordsPlaced(g: Registry)
    requires RegistryOk(g)
    ensures Placed(g) && Flat(g.records)
  {
    forall id | id in g.records ensures RecordOk(g, id) { RecordIn(g, id); }
  }

  /** From every reachable state without an admission in progress, an idle reaper taking its steps with nothing in
    * between ends with exactly the records and claims of one pass at the time it began with, and changes nothing
    * else. */
  lemma PassAsSteps(cfg: Inventory, before: seq<Action>, r: nat) returns (cs: seq<ReaperInput>)
    requires var s := Run(cfg, INITIAL, before); r in s.reapers && s.reapers[r].pc.RIdle? && !Locked(s.env)
    ensures var s := Run(cfg, INITIAL, before);
            Run(cfg, s, Reaps(r, cs)) == s.(env := PassedEnv(s.env, s.reapers[r].now))
  {
    hide Step, PassedEnv, Placed, Flat;
    InitialCore();
    RunKeeps(cfg, INITIAL, before);
    var s := Run(cfg, INITIAL, before);
    RecordsPlaced(s.env.reg);
    cs := WholePass(s.env, s.reapers[r].now);
    ReapsAreChoices(cfg, s, r, cs);
    assert s.reapers[r := s.reapers[r]] == s.reapers;
  }
}
