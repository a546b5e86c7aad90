/** The build summary a caller reads while the coordinator runs: the request first, then target after target. */
module SummaryReads {
  import opened RunModel
  import opened Records
  import opened StateDirectory
  import opened Chooser
  import opened Protocol
  import opened ProtocolCore
  import opened ParentSafety

  /** The states read when `gaps[i]` happens before the `i`-th target is loaded. */
  ghost function Reading(cfg: Inventory, s: System, gaps: seq<seq<Action>>, ids: seq<RunId>): (seen: seq<RunState>)
    requires |gaps| == |ids|
    ensures |seen| == |ids|
    decreases |ids|
  {
    if ids == [] then []
    else
      var s1 := Run(cfg, s, gaps[0]);
      [StateOf(s1.env.reg, ids[0])] + Reading(cfg, s1, gaps[1..], ids[1..])
  }

  /** Where the system is when the last target has been loaded. */
  ghost function After(cfg: Inventory, s: System, gaps: seq<seq<Action>>): System
    decreases |gaps|
  {
    if gaps == [] then s else After(cfg, Run(cfg, s, gaps[0]), gaps[1..])
  }

  /** The state the summary reports: aborted if the request was when it was loaded, else the aggregate of the reads. */
  ghost function SummaryState(cfg: Inventory, s: System, gaps: seq<seq<Action>>, p: RunId): RunState
    requires p in s.env.reg.records && |gaps| == |s.env.reg.records[p].children|
  {
    var request := s.env.reg.records[p];
    if request.state.Aborted? then Aborted else Aggregate(Reading(cfg, s, gaps, request.children)).0
  }

  ghost predicate AllSettled(g: Registry, ids: seq<RunId>) { forall c :: c in ids ==> Settled(g, c) }

  lemma {:induction false} AfterEndures(cfg: Inventory, s: System, gaps: seq<seq<Action>>)
    requires Core(s)
    ensures Core(After(cfg, s, gaps)) && Endures(s.env.reg, After(cfg, s, gaps).env.reg)
    decreases |gaps|
  {
    hide Core, Endures, Run;
    if gaps == [] {
      assert Endures(s.env.reg, s.env.reg) by { KeepsSelf(s.env.reg); }
    } else {
      var s1 := Run(cfg, s, gaps[0]);
      RunKeeps(cfg, s, gaps[0]);
      AfterEndures(cfg, s1, gaps[1..]);
      EnduresTrans(s.env.reg, s1.env.reg, After(cfg, s, gaps).env.reg);
    }
  }

  lemma StateLasts(g: Registry, g': Registry, c: RunId)
    requires Endures(g, g') && Settled(g, c)
    ensures Settled(g', c) && (IsTerminal(StateOf(g, c)) ==> StateOf(g', c) == StateOf(g, c))
  {
  }

  /** A target read as finished is finished with that state when the reading ends, and one that was finished when
    * the reading began is read so. */
  lemma {:induction false} ReadingIsRight(cfg: Inventory, s: System, gaps: seq<seq<Action>>, ids: seq<RunId>, j: nat)
    requires Core(s) && AllSettled(s.env.reg, ids) && |gaps| == |ids| && j < |ids|
    ensures var read := Reading(cfg, s, gaps, ids)[j];
            && (IsTerminal(read) ==> StateOf(After(cfg, s, gaps).env.reg, ids[j]) == read)
            && (IsTerminal(StateOf(s.env.reg, ids[j])) ==> read == StateOf(s.env.reg, ids[j]))
    decreases |ids|
  {
    hide Core, Endures, Run, Settled, StateOf;
    var s1 := Run(cfg, s, gaps[0]);
    RunKeeps(cfg, s, gaps[0]);
    forall c | c in ids ensures Settled(s1.env.reg, c) { StateLasts(s.env.reg, s1.env.reg, c); }
    AfterEndures(cfg, s1, gaps[1..]);
    assert ids[j] in ids;
    StateLasts(s.env.reg, s1.env.reg, ids[j]);
    StateLasts(s1.env.reg, After(cfg, s, gaps).env.reg, ids[j]);
    if j > 0 { ReadingIsRight(cfg, s1, gaps[1..], ids[1..], j - 1); }
  }

  /**
   * However the coordinator moves on while the targets are read: a verdict the summary reports holds of all targets
   * when the reading ends, and so for good; and a request that was finished when it was loaded is reported with its
   * recorded state.
   */
  lemma SummaryIsRight(cfg: Inventory, before: seq<Action>, gaps: seq<seq<Action>>, p: RunId)
    requires var g := Run(cfg, INITIAL, before).env.reg; IsParent(g, p) && |gaps| == |g.records[p].children|
    ensures var s := Run(cfg, INITIAL, before);
            var state, end := SummaryState(cfg, s, gaps, p), After(cfg, s, gaps);
            && (!state.Aggregating? && !state.Aborted? ==> Verdict(end.env.reg, p, state))
            && (Finished(s.env.reg, p) ==> state == s.env.reg.records[p].state)
  {
    var s := Run(cfg, INITIAL, before);
    InitialParents();
    RunParents(cfg, INITIAL, before);
    var kids, end := s.env.reg.records[p].children, After(cfg, s, gaps);
    RecordIn(s.env.reg, p);
    AfterEndures(cfg, s, gaps);
    var seen := Reading(cfg, s, gaps, kids);
    forall j | 0 <= j < |kids|
      ensures (IsTerminal(seen[j]) ==> StateOf(end.env.reg, kids[j]) == seen[j])
              && (IsTerminal(StateOf(s.env.reg, kids[j])) ==> seen[j] == StateOf(s.env.reg, kids[j]))
    {
      ReadingIsRight(cfg, s, gaps, kids, j);
    }
    hide Run, Core, RegistryOk, RecordOk, Endures, Reading, After, Aggregate;
    if !s.env.reg.records[p].state.Aborted? {
      if !Aggregate(seen).0.Aggregating? { ReadingCompletes(end.env.reg, p, seen); }
      if Finished(s.env.reg, p) { RecordedIsRead(s.env.reg, p, seen); }
    }
  }

  lemma RecordedIsRead(g: Registry, p: RunId, seen: seq<RunState>)
    requires ParentsOk(g) && Finished(g, p) && !g.records[p].state.Aborted? && |seen| == |g.records[p].children|
    requires forall j :: 0 <= j < |seen| && IsTerminal(StateOf(g, g.records[p].children[j])) ==>
               seen[j] == StateOf(g, g.records[p].children[j])
    ensures Aggregate(seen).0 == g.records[p].state
  {
    hide Aggregate;
    assert ParentOk(g, p);
    var kids := g.records[p].children;
    forall j | 0 <= j < |kids| ensures IsTerminal(StateOf(g, kids[j])) { assert kids[j] in kids; }
    assert seen == States(g, kids);
  }
}
