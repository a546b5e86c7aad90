/** An admission's separate steps, under the scheduler lock, add up to the staging coded as one loop. */
module AdmissionSteps {
  import opened RunModel
  import opened Records
  import opened StateDirectory
  import opened Chooser
  import opened Protocol
  import opened ProtocolCore
  import opened LeaseSafety
  import opened ResultSafety
  import opened AdmissionOps

  /** Where an admission gets with these inputs, one step each. */
  function Admits(g: Registry, xs: seq<AdmitInput>): Registry
    decreases |xs|
  {
    if xs == [] then g else Admits(AdmitStep(g, xs[0]), xs[1..])
  }

  /** No step on the way removes one of the runs in `kept`. */
  predicate Spares(g: Registry, xs: seq<AdmitInput>, kept: set<RunId>)
    decreases |xs|
  {
    kept <= g.records.Keys && (xs == [] || Spares(AdmitStep(g, xs[0]), xs[1..], kept))
  }

  lemma {:induction false} AdmitsAppend(g: Registry, a: seq<AdmitInput>, b: seq<AdmitInput>, kept: set<RunId>)
    ensures Admits(g, a + b) == Admits(Admits(g, a), b)
    ensures Spares(g, a, kept) && Spares(Admits(g, a), b, kept) ==> Spares(g, a + b, kept)
    decreases |a|
  {
    hide AdmitStep;
    if a == [] {
      assert a + b == b;
    } else {
      assert (a + b)[1..] == a[1..] + b;
      AdmitsAppend(AdmitStep(g, a[0]), a[1..], b, kept);
    }
  }

  function Inputs(xs: seq<AdmitInput>): seq<Action> { seq(|xs|, i requires 0 <= i < |xs| => Admit(xs[i])) }

  /** Leases and results are only of runs on record. */
  predicate Owned(e: Env) { e.leases.Keys <= e.reg.records.Keys && e.results.Keys <= e.reg.records.Keys }

  /** The inputs as actions of the admission alone: nothing but the registry changes. */
  lemma {:induction false} InputsAdmit(cfg: Inventory, s: System, xs: seq<AdmitInput>, kept: set<RunId>)
    requires s.env.leases.Keys <= kept && s.env.results.Keys <= kept && Spares(s.env.reg, xs, kept)
    ensures Run(cfg, s, Inputs(xs)) == s.(env := s.env.(reg := Admits(s.env.reg, xs)))
    decreases |xs|
  {
    hide AdmitStep;
    if xs != [] {
      var g' := AdmitStep(s.env.reg, xs[0]);
      var gone := s.env.reg.records.Keys - g'.records.Keys;
      assert kept <= g'.records.Keys;
      assert s.env.leases - gone == s.env.leases && s.env.results - gone == s.env.results;
      var s' := s.(env := s.env.(reg := g'));
      assert Step(cfg, s, Admit(xs[0])) == s';
      assert Inputs(xs)[1..] == Inputs(xs[1..]);
      InputsAdmit(cfg, s', xs[1..], kept);
    }
  }

  // ---------------------------------------------------------------- the busy scan

  function At(g: Registry, a: Admission): Registry { g.(admission := Some(a)) }

  lemma {:induction false} ScanAll(g: Registry, machines: seq<string>, rest: set<RunId>) returns (xs: seq<AdmitInput>)
    requires rest <= g.records.Keys && forall id :: id in g.records ==> !Live(g.records[id])
    ensures Admits(At(g, Scanning(machines, rest)), xs) == At(g, Scanning(machines, {}))
    ensures Spares(At(g, Scanning(machines, rest)), xs, g.records.Keys)
    decreases rest
  {
    if rest == {} {
      xs := [];
    } else {
      var id :| id in rest;
      assert AdmitStep(At(g, Scanning(machines, rest)), AScan(id)) == At(g, Scanning(machines, rest - {id}));
      hide AdmitStep;
      var others := ScanAll(g, machines, rest - {id});
      xs := [AScan(id)] + others;
      assert xs[1..] == others;
    }
  }

  // ---------------------------------------------------------------- creating the records

  function MintedUpTo(minted: map<RunId, string>, machines: seq<string>, ids: seq<RunId>, n: nat): map<RunId, string>
    requires n <= |machines| && |ids| == |machines| + 1
  {
    if n == 0 then minted[ids[0] := ""] else MintedUpTo(minted, machines, ids, n - 1)[ids[n] := machines[n-1]]
  }

  lemma {:induction false} MintedOnly(minted: map<RunId, string>, machines: seq<string>, ids: seq<RunId>, n: nat)
    requires n <= |machines| && |ids| == |machines| + 1
    ensures forall id :: id in MintedUpTo(minted, machines, ids, n) ==> id in minted || id in ids[..n+1]
  {
    if n == 0 {
      assert ids[0] in ids[..1];
    } else {
      MintedOnly(minted, machines, ids, n - 1);
      assert ids[..n+1] == ids[..n] + [ids[n]];
    }
  }

  /** `n` targets have been created. */
  function CreatingAt(g: Registry, machines: seq<string>, ids: seq<RunId>, path: string, n: nat): Registry
    requires n <= |machines| && |ids| == |machines| + 1
  {
    At(g, Creating(machines, ids[0], ids[1..n+1])).(
      minted := MintedUpTo(g.minted, machines, ids, n),
      records := WithTargets(g.records, machines, ids, path, g.clock, n))
  }

  /** Fresh ids, one for the request and one per machine. */
  predicate NewIds(g: Registry, machines: seq<string>, ids: seq<RunId>) {
    && |ids| == |machines| + 1 && (forall id :: id in ids ==> id !in g.minted && id !in g.records)
    && forall i, j :: 0 <= i < j < |ids| ==> ids[i] != ids[j]
  }

  lemma KeepsRecords(g: Registry, machines: seq<string>, ids: seq<RunId>, path: string, n: nat)
    requires NewIds(g, machines, ids) && n <= |machines|
    ensures g.records.Keys <= CreatingAt(g, machines, ids, path, n).records.Keys
  {
    WithTargetsAt(g.records, machines, ids, path, g.clock, n);
  }

  lemma OneInput(g: Registry, x: AdmitInput, g': Registry, kept: set<RunId>)
    requires AdmitStep(g, x) == g' && kept <= g.records.Keys && kept <= g'.records.Keys
    ensures Admits(g, [x]) == g' && Spares(g, [x], kept)
  {
    hide AdmitStep;
    assert [x][1..] == [];
  }

  lemma {:induction false} CreateUpTo(g: Registry, machines: seq<string>, ids: seq<RunId>, path: string, n: nat)
    returns (xs: seq<AdmitInput>)
    requires NewIds(g, machines, ids) && n <= |machines|
    ensures Admits(At(g, Scanning(machines, {})), xs) == CreatingAt(g, machines, ids, path, n)
    ensures Spares(At(g, Scanning(machines, {})), xs, g.records.Keys)
    decreases n
  {
    assert |ids| == |machines| + 1;
    hide AdmitStep, CreatingAt, NewIds;
    var start, after := At(g, Scanning(machines, {})), CreatingAt(g, machines, ids, path, n);
    KeepsRecords(g, machines, ids, path, n);
    if n == 0 {
      BeginOne(g, machines, ids, path);
      OneInput(start, ABegin(ids[0]), after, g.records.Keys);
      xs := [ABegin(ids[0])];
    } else {
      var before := CreatingAt(g, machines, ids, path, n - 1);
      KeepsRecords(g, machines, ids, path, n - 1);
      CreateOne(g, machines, ids, path, n);
      OneInput(before, AChild(ids[n], path), after, g.records.Keys);
      var earlier := CreateUpTo(g, machines, ids, path, n - 1);
      AdmitsAppend(start, earlier, [AChild(ids[n], path)], g.records.Keys);
      xs := earlier + [AChild(ids[n], path)];
    }
  }

  lemma BeginOne(g: Registry, machines: seq<string>, ids: seq<RunId>, path: string)
    requires NewIds(g, machines, ids)
    ensures AdmitStep(At(g, Scanning(machines, {})), ABegin(ids[0])) == CreatingAt(g, machines, ids, path, 0)
  {
    assert ids[0] in ids && ids[1..1] == [];
  }

  lemma CreateOne(g: Registry, machines: seq<string>, ids: seq<RunId>, path: string, n: nat)
    requires NewIds(g, machines, ids) && 1 <= n <= |machines|
    ensures AdmitStep(CreatingAt(g, machines, ids, path, n - 1), AChild(ids[n], path)) ==
        CreatingAt(g, machines, ids, path, n)
  {
    MintedOnly(g.minted, machines, ids, n - 1);
    assert ids[n] in ids && ids[n] !in ids[..n];
    assert ids[1..n+1] == ids[1..n] + [ids[n]];
  }

  // ---------------------------------------------------------------- rolling back

  lemma {:induction false} UndoAll(g: Registry, pid: RunId, created: seq<RunId>, kept: set<RunId>)
    returns (xs: seq<AdmitInput>)
    requires g.admission == Some(RollingBack(pid, created)) && kept <= g.records.Keys && kept !! Ids(created)
    ensures Admits(g, xs) == g.(records := g.records - Ids(created), admission := None)
    ensures Spares(g, xs, kept)
    decreases |created|
  {
    var next := AdmitStep(g, AUndo);
    if created == [] {
      assert g.records - Ids(created) == g.records;
      xs := [AUndo];
      assert xs[1..] == [];
    } else {
      assert created[0] in Ids(created);
      assert Ids(created) == {created[0]} + Ids(created[1..]) by { assert created == [created[0]] + created[1..]; }
      var others := UndoAll(next, pid, created[1..], kept);
      assert next.records - Ids(created[1..]) == g.records - Ids(created);
      xs := [AUndo] + others;
      assert xs[1..] == others;
    }
  }

  // ---------------------------------------------------------------- the whole admission

  /** The registry once a build is staged. */
  function StagedReg(g: Registry, machines: seq<string>, ids: seq<RunId>, path: string, submission: bool): Registry
    requires |ids| == |machines| + 1
  {
    var request := RequestRecord(ids[1..], path, g.clock);
    g.(records := Staged(g.records, machines, ids, path, g.clock),
       minted := MintedUpTo(g.minted, machines, ids, |machines|),
       pending := if submission then g.pending[ids[0] := request] else g.pending)
  }

  lemma SaveOne(g: Registry, machines: seq<string>, ids: seq<RunId>, path: string, submission: bool)
    requires |ids| == |machines| + 1 && g.admission == None
    ensures AdmitStep(CreatingAt(g, machines, ids, path, |machines|), AParent(path, submission)) ==
              StagedReg(g, machines, ids, path, submission)
  {
    assert ids[1..|machines|+1] == ids[1..];
  }

  lemma StagedKeeps(g: Registry, machines: seq<string>, ids: seq<RunId>, path: string, submission: bool)
    requires NewIds(g, machines, ids)
    ensures g.records.Keys <= StagedReg(g, machines, ids, path, submission).records.Keys
  {
    WithTargetsAt(g.records, machines, ids, path, g.clock, |machines|);
  }

  /** Lock, scan and create `n` of the targets. */
  lemma AdmitUpTo(g: Registry, machines: seq<string>, ids: seq<RunId>, path: string, n: nat)
    returns (xs: seq<AdmitInput>)
    requires g.admission == None && ValidMachines(machines) && NewIds(g, machines, ids) && n <= |machines|
    requires forall id :: id in g.records ==> !Live(g.records[id])
    ensures Admits(g, xs) == CreatingAt(g, machines, ids, path, n) && Spares(g, xs, g.records.Keys)
  {
    var kept, scanning := g.records.Keys, At(g, Scanning(machines, g.records.Keys));
    assert AdmitStep(g, AStart(machines)) == scanning;
    OneInput(g, AStart(machines), scanning, kept);
    hide AdmitStep, CreatingAt, NewIds, ValidMachines;
    var scan := ScanAll(g, machines, kept);
    var create := CreateUpTo(g, machines, ids, path, n);
    AdmitsAppend(scanning, scan, create, kept);
    AdmitsAppend(g, [AStart(machines)], scan + create, kept);
    xs := [AStart(machines)] + (scan + create);
  }

  lemma StagingInputs(g: Registry, machines: seq<string>, ids: seq<RunId>, path: string, submission: bool)
    returns (xs: seq<AdmitInput>)
    requires g.admission == None && ValidMachines(machines) && NewIds(g, machines, ids)
    requires forall id :: id in g.records ==> !Live(g.records[id])
    ensures Admits(g, xs) == StagedReg(g, machines, ids, path, submission) && Spares(g, xs, g.records.Keys)
  {
    var create := AdmitUpTo(g, machines, ids, path, |machines|);
    var created := CreatingAt(g, machines, ids, path, |machines|);
    SaveOne(g, machines, ids, path, submission);
    StagedKeeps(g, machines, ids, path, submission);
    KeepsRecords(g, machines, ids, path, |machines|);
    hide AdmitStep, CreatingAt, NewIds, ValidMachines, StagedReg;
    OneInput(created, AParent(path, submission), StagedReg(g, machines, ids, path, submission), g.records.Keys);
    AdmitsAppend(g, create, [AParent(path, submission)], g.records.Keys);
    xs := create + [AParent(path, submission)];
  }

  lemma RollbackInputs(g: Registry, machines: seq<string>, ids: seq<RunId>, path: string, n: nat)
    returns (xs: seq<AdmitInput>)
    requires g.admission == None && ValidMachines(machines) && NewIds(g, machines, ids) && n <= |machines|
    requires forall id :: id in g.records ==> !Live(g.records[id])
    ensures Admits(g, xs) == g.(minted := MintedUpTo(g.minted, machines, ids, n)) && Spares(g, xs, g.records.Keys)
  {
    var kept := g.records.Keys;
    var create := AdmitUpTo(g, machines, ids, path, n);
    var created := CreatingAt(g, machines, ids, path, n);
    var failed := created.(admission := Some(RollingBack(ids[0], ids[1..n+1])));
    KeepsRecords(g, machines, ids, path, n);
    assert AdmitStep(created, AFail) == failed;
    OneInput(created, AFail, failed, kept);
    Unstaged(g.records, machines, ids, path, g.clock, n);
    assert kept !! Ids(ids[1..n+1]) by { assert forall id :: id in Ids(ids[1..n+1]) ==> id in ids; }
    var undo := UndoAll(failed, ids[0], ids[1..n+1], kept);
    assert Admits(failed, undo) == g.(minted := MintedUpTo(g.minted, machines, ids, n));
    hide AdmitStep, CreatingAt, NewIds, ValidMachines;
    AdmitsAppend(created, [AFail], undo, kept);
    AdmitsAppend(g, create, [AFail] + undo, kept);
    xs := create + ([AFail] + undo);
  }

  lemma ReachableOwned(cfg: Inventory, before: seq<Action>)
    ensures Owned(Run(cfg, INITIAL, before).env)
  {
    hide Step, ExclusiveOk, MarksOk;
    InitialLeases();
    RunLeases(cfg, INITIAL, before);
    InitialResults();
    RunResults(cfg, INITIAL, before);
    var s := Run(cfg, INITIAL, before);
    forall id | id in s.env.leases ensures id in s.env.reg.records {
      assert WorkerOk(s.env.reg, s.workers[s.env.leases[id].owner]);
    }
  }

  /** From every reachable state without a live target, an admission that takes all its steps leaves exactly the
    * records of the staging coded as one loop, and changes nothing but the registry. */
  lemma StagingAsSteps(cfg: Inventory, before: seq<Action>, machines: seq<string>, ids: seq<RunId>, path: string,
                       submission: bool)
    returns (xs: seq<AdmitInput>)
    requires ValidMachines(machines)
    requires var s := Run(cfg, INITIAL, before);
             && !Locked(s.env) && NewIds(s.env.reg, machines, ids)
             && forall id :: id in s.env.reg.records ==> !Live(s.env.reg.records[id])
    ensures var s := Run(cfg, INITIAL, before);
            Run(cfg, s, Inputs(xs)) == s.(env := s.env.(reg := StagedReg(s.env.reg, machines, ids, path, submission)))
  {
    hide AdmitStep, NewIds, ValidMachines, StagedReg, Step;
    var s := Run(cfg, INITIAL, before);
    ReachableOwned(cfg, before);
    xs := StagingInputs(s.env.reg, machines, ids, path, submission);
    InputsAdmit(cfg, s, xs, s.env.reg.records.Keys);
  }

  /** If a save fails after `n` targets, the rollback's steps leave everything as it was, except that ids were used. */
  lemma RollbackAsSteps(cfg: Inventory, before: seq<Action>, machines: seq<string>, ids: seq<RunId>, path: string,
                        n: nat)
    returns (xs: seq<AdmitInput>)
    requires ValidMachines(machines) && n <= |machines|
    requires var s := Run(cfg, INITIAL, before);
             && !Locked(s.env) && NewIds(s.env.reg, machines, ids)
             && forall id :: id in s.env.reg.records ==> !Live(s.env.reg.records[id])
    ensures var s := Run(cfg, INITIAL, before);
            Run(cfg, s, Inputs(xs)) ==
              s.(env := s.env.(reg := s.env.reg.(minted := MintedUpTo(s.env.reg.minted, machines, ids, n))))
  {
    hide AdmitStep, NewIds, ValidMachines, Step;
    var s := Run(cfg, INITIAL, before);
    ReachableOwned(cfg, before);
    xs := RollbackInputs(s.env.reg, machines, ids, path, n);
    InputsAdmit(cfg, s, xs, s.env.reg.records.Keys);
  }
}
