/** Runs from the initial state, built one step at a time, and the one both counterexamples begin with. */
module Traces {
  import opened RunModel
  import opened Records
  import opened StateDirectory
  import opened Chooser
  import opened Protocol
  import opened ProtocolCore

  const CFG: Inventory := map["m" := 1]

  ghost predicate Reaches(actions: seq<Action>, s: System) { Run(CFG, INITIAL, actions) == s }

  lemma Extend(actions: seq<Action>, s: System, a: Action, s': System) returns (longer: seq<Action>)
    requires Reaches(actions, s) && Step(CFG, s, a) == s'
    ensures Reaches(longer, s')
  {
    hide Step;
    RunAppend(CFG, INITIAL, actions, [a]);
    assert [a][1..] == [];
    longer := actions + [a];
  }

  /** A step of the abort by caller 5. */
  lemma AbortStepped(t: seq<Action>, s: System, env': Env, pc: AbortPc) returns (longer: seq<Action>)
    requires Reaches(t, s) && s.aborts.Keys == {5} && AbortStep(s.env, s.aborts[5]) == Acted(env', pc)
    ensures Reaches(longer, s.(env := env', aborts := map[5 := pc]))
  {
    hide AbortStep;
    assert s.aborts[5 := pc] == map[5 := pc];
    longer := Extend(t, s, StepAbort(5), s.(env := env', aborts := map[5 := pc]));
  }

  /** One build request, run 0, with one target, run 1. */
  function Request(state: RunState, path: string): RunRecord { RunRecord("", state, 0, None, None, [1], path) }

  function Target(state: RunState, at: Time): RunRecord { RunRecord("m", state, at, None, Some(0), [], "") }

  /** Only the registry has been touched. */
  function Idle(g: Registry): System { System(Env(g, map[], map[], map[]), map[], map[], map[]) }

  const MINTED: map<RunId, string> := map[0 := "", 1 := "m"]

  /** The build is admitted; a submission keeps its copy of the request. */
  function Admitted(submission: bool): Registry {
    Registry(0, map[0 := Request(Queued, ""), 1 := Target(Queued, 0)], MINTED, None,
             if submission then map[0 := Request(Queued, "")] else map[])
  }

  /** The target is created and the request is not saved yet. */
  const CREATING: Registry :=
    INITIAL.env.reg.(minted := MINTED, records := map[1 := Target(Queued, 0)],
                     admission := Some(Creating(["m"], 0, [1])))

  lemma Created() returns (t: seq<Action>)
    ensures Reaches(t, Idle(CREATING))
  {
    var g0 := INITIAL.env.reg;
    var g1 := g0.(admission := Some(Scanning(["m"], {})));
    var g2 := g0.(minted := map[0 := ""], admission := Some(Creating(["m"], 0, [])));
    assert "m" != "" && ValidMachines(["m"]) && g0.records.Keys == {};
    AdmitOne(g0, AStart(["m"]), g1);
    AdmitOne(g1, ABegin(0), g2);
    assert [] + [1] == [1];
    AdmitOne(g2, AChild(1, ""), CREATING);
    hide Step, AdmitStep;
    t := Extend([], INITIAL, Admit(AStart(["m"])), Idle(g1));
    t := Extend(t, Idle(g1), Admit(ABegin(0)), Idle(g2));
    t := Extend(t, Idle(g2), Admit(AChild(1, "")), Idle(CREATING));
  }

  lemma Admitting(submission: bool) returns (t: seq<Action>)
    ensures Reaches(t, Idle(Admitted(submission)))
  {
    AdmitOne(CREATING, AParent("", submission), Admitted(submission));
    hide Step, AdmitStep;
    t := Created();
    t := Extend(t, Idle(CREATING), Admit(AParent("", submission)), Idle(Admitted(submission)));
  }

  lemma AdmitOne(g: Registry, x: AdmitInput, g': Registry)
    requires AdmitStep(g, x) == g' && g.records.Keys <= g'.records.Keys
    ensures Step(CFG, Idle(g), Admit(x)) == Idle(g')
  {
  }
}
