/** Machine choice: order machines by load, then take the first free candidate. */
module Chooser {
  import opened Records
  import opened Sorting
  import opened StateDirectory

  /** Configured `max_concurrent` of every machine in the inventory. */
  type Inventory = map<string, int>

  /** A configured capacity counts as it is; a missing or nonsensical one counts as one slot. */
  function EffectiveCapacity(maxConcurrent: int): (c: int)
    ensures c >= 1 && (maxConcurrent >= 1 ==> c == maxConcurrent) && (maxConcurrent < 1 ==> c == 1)
  {
    if maxConcurrent <= 0 then 1 else maxConcurrent
  }

  datatype Snapshot = Snapshot(name: string, capacity: int, active: int)

  predicate Proper(x: Snapshot) { x.capacity >= 1 && x.active >= 0 }

  /** Ratio by cross-multiplication, ties by name. */
  predicate Before(a: Snapshot, b: Snapshot) {
    var l, r := a.active * b.capacity, b.active * a.capacity;
    if l != r then l < r else NameLess(a.name, b.name)
  }

  /** Comparing a*d with b*c over positive capacities compares the ratios, so it chains. */
  lemma RatioTrans(a: Snapshot, b: Snapshot, c: Snapshot)
    requires Proper(a) && Proper(b) && Proper(c)
    requires a.active * b.capacity <= b.active * a.capacity
    requires b.active * c.capacity <= c.active * b.capacity
    ensures a.active * c.capacity <= c.active * a.capacity
    ensures a.active * c.capacity == c.active * a.capacity ==>
              && a.active * b.capacity == b.active * a.capacity
              && b.active * c.capacity == c.active * b.capacity
  {
    Swap(a.active, b.capacity, c.capacity);
    Swap(b.active, a.capacity, c.capacity);
    Swap(c.active, b.capacity, a.capacity);
    Chains(a.active * b.capacity, b.active * a.capacity, b.active * c.capacity, c.active * b.capacity,
           a.active * c.capacity, c.active * a.capacity, a.capacity, b.capacity, c.capacity);
  }

  lemma Swap(x: int, y: int, z: int)
    ensures x * y * z == x * z * y
  {
  }

  /** p <= q and p' <= q', scaled to a common factor, leave x <= y, and equality only from two equalities. */
  lemma Chains(p: int, q: int, p': int, q': int, x: int, y: int, i: int, j: int, k: int)
    requires p <= q && p' <= q' && i >= 1 && j >= 1 && k >= 1
    requires p * k == x * j && q * k == p' * i && q' * i == y * j
    ensures x <= y && (x == y ==> p == q && p' == q')
  {
    Scale(p, q, k);
    Scale(p', q', i);
    if x > y { Scale(y, x, j); }
  }

  lemma {:induction false} Scale(p: int, q: int, k: int)
    requires p <= q && k >= 1
    ensures p * k <= q * k
    ensures p < q ==> p * k < q * k
    decreases k
  {
    if k > 1 {
      Scale(p, q, k - 1);
      assert p * k == p * (k - 1) + p && q * k == q * (k - 1) + q;
    }
  }

  /** The comparison is a strict total order on machines with distinct names. */
  lemma BeforeIsStrictTotalOrder(a: Snapshot, b: Snapshot, c: Snapshot)
    requires Proper(a) && Proper(b) && Proper(c)
    ensures !Before(a, a)
    ensures Before(a, b) ==> !Before(b, a)
    ensures a.name != b.name ==> Before(a, b) || Before(b, a)
    ensures Before(a, b) && Before(b, c) ==> Before(a, c)
  {
    NameOrder(a.name, b.name, c.name);
    if Before(a, b) && Before(b, c) { RatioTrans(a, b, c); }
  }

  function NameOf(x: Snapshot): string { x.name }

  /** Distinct machines are totally ordered, so sorting leaves them strictly in order. */
  lemma SortedSnapshots(xs: seq<Snapshot>)
    requires DistinctBy(NameOf, xs) && forall y :: y in xs ==> Proper(y)
    ensures forall y :: y in Sort(Before, xs) <==> y in xs
    ensures Ascending(Before, Sort(Before, xs))
  {
    forall x, y, z | x in xs && y in xs && z in xs
      ensures !Before(x, x) && (Before(x, y) ==> !Before(y, x)) && (Before(x, y) ==> Before(x, z) || Before(z, y))
    {
      BeforeIsStrictTotalOrder(x, y, z);
      BeforeIsStrictTotalOrder(z, x, y);
      SameNameSame(xs, x, z);
    }
    SortSorts(Before, xs);
    SortPermutes(Before, xs);
    SortDistinct(Before, NameOf, xs);
    var t := Sort(Before, xs);
    forall i, j | 0 <= i < j < |t| ensures Before(t[i], t[j]) {
      assert t[i] in multiset(t) && t[j] in multiset(t);
      assert NameOf(t[i]) != NameOf(t[j]);
      BeforeIsStrictTotalOrder(t[i], t[j], t[i]);
    }
  }

  lemma SameNameSame(xs: seq<Snapshot>, x: Snapshot, z: Snapshot)
    requires DistinctBy(NameOf, xs) && x in xs && z in xs
    ensures x.name == z.name ==> x == z
  {
  }

  function ActiveOf(active: map<string, nat>, name: string): nat {
    if name in active then active[name] else 0
  }

  function SnapshotOf(active: map<string, nat>, cfg: Inventory, name: string): Snapshot
    requires name in cfg
  {
    Snapshot(name, EffectiveCapacity(cfg[name]), ActiveOf(active, name))
  }

  /** One snapshot per machine of the inventory, in load order. */
  method ComputeMachineSnapshots(active: map<string, nat>, cfg: Inventory) returns (out: seq<Snapshot>)
    ensures forall x :: x in out <==> x.name in cfg && x == SnapshotOf(active, cfg, x.name)
    ensures Ascending(Before, out)
  {
    var names := ReadDir(cfg.Keys);
    var unsorted := [];
    for i := 0 to |names|
      invariant |unsorted| == i
      invariant forall j :: 0 <= j < i ==> unsorted[j] == SnapshotOf(active, cfg, names[j])
    {
      unsorted := unsorted + [SnapshotOf(active, cfg, names[i])];
    }
    SortedSnapshots(unsorted);
    forall name | name in cfg ensures SnapshotOf(active, cfg, name) in unsorted {
      var j :| 0 <= j < |names| && names[j] == name;
      assert unsorted[j] == SnapshotOf(active, cfg, name);
    }
    out := Sort(Before, unsorted);
  }

  predicate Eligible(active: map<string, nat>, cfg: Inventory, candidates: seq<string>, name: string) {
    name in cfg && name in candidates && ActiveOf(active, name) < EffectiveCapacity(cfg[name])
  }

  /** The least free candidate, or nothing exactly when every candidate is full. */
  ghost predicate IsChoice(active: map<string, nat>, cfg: Inventory, candidates: seq<string>, r: Option<Snapshot>) {
    match r
    case None => forall name :: !Eligible(active, cfg, candidates, name)
    case Some(best) =>
      && Eligible(active, cfg, candidates, best.name)
      && best == SnapshotOf(active, cfg, best.name)
      && forall name :: Eligible(active, cfg, candidates, name) && name != best.name ==>
                          Before(best, SnapshotOf(active, cfg, name))
  }

  method ChooseSlot(active: map<string, nat>, cfg: Inventory, candidates: seq<string>) returns (r: Option<Snapshot>)
    ensures IsChoice(active, cfg, candidates, r)
    ensures r.Some? ==> LeastLoaded(active, cfg, candidates, r.value.name)
    ensures r.None? <==>
      forall name :: name in cfg && name in candidates ==> ActiveOf(active, name) >= EffectiveCapacity(cfg[name])
  {
    var snaps := ComputeMachineSnapshots(active, cfg);
    for i := 0 to |snaps|
      invariant forall j :: 0 <= j < i ==> !Eligible(active, cfg, candidates, snaps[j].name)
    {
      var snap := snaps[i];
      assert snap in snaps;
      if snap.name !in candidates { continue; }
      if snap.active >= snap.capacity { continue; }
      forall name | Eligible(active, cfg, candidates, name) && name != snap.name
        ensures Before(snap, SnapshotOf(active, cfg, name))
      {
        assert SnapshotOf(active, cfg, name) in snaps;
      }
      ChoiceIsLeastLoaded(active, cfg, candidates, snap);
      return Some(snap);
    }
    assert forall name :: name in cfg ==> SnapshotOf(active, cfg, name) in snaps;
    assert forall name :: !Eligible(active, cfg, candidates, name);
    return None;
  }

  /** Any two iteration orders of the inventory make the same choice. */
  lemma ChoiceIsUnique(active: map<string, nat>, cfg: Inventory, candidates: seq<string>,
                       r: Option<Snapshot>, r': Option<Snapshot>)
    requires IsChoice(active, cfg, candidates, r) && IsChoice(active, cfg, candidates, r')
    ensures r == r'
  {
    if r.Some? && r'.Some? && r.value.name != r'.value.name {
      BeforeIsStrictTotalOrder(r.value, r'.value, r.value);
    }
  }

  // ---------------------------------------------------------------- what the choice means

  /** The part of a machine's slots that is in use. */
  ghost function Load(active: map<string, nat>, cfg: Inventory, name: string): real
    requires name in cfg
  {
    ActiveOf(active, name) as real / EffectiveCapacity(cfg[name]) as real
  }

  lemma Quotients(a: int, b: int, c: int, d: int)
    requires b >= 1 && d >= 1
    ensures a as real / b as real < c as real / d as real <==> a * d < c * b
    ensures a as real / b as real == c as real / d as real <==> a * d == c * b
  {
    var x, y := a as real / b as real, c as real / d as real;
    var p := b as real * d as real;
    assert x * b as real == a as real && y * d as real == c as real;
    assert x * p == (a * d) as real && y * p == (c * b) as real;
    if x < y { Stretch(x, y, p); }
    if y < x { Stretch(y, x, p); }
  }

  lemma Stretch(x: real, y: real, p: real)
    requires x < y && p > 0.0
    ensures x * p < y * p
  {
  }

  /** A free candidate, least loaded, and the first by name among the equally loaded ones. */
  ghost predicate LeastLoaded(active: map<string, nat>, cfg: Inventory, candidates: seq<string>, best: string) {
    && best in cfg && best in candidates && ActiveOf(active, best) < EffectiveCapacity(cfg[best])
    && forall name :: name in cfg && name in candidates && ActiveOf(active, name) < EffectiveCapacity(cfg[name]) ==>
         && Load(active, cfg, best) <= Load(active, cfg, name)
         && (name != best && Load(active, cfg, best) == Load(active, cfg, name) ==> Precedes(best, name))
  }

  /** The comparison by cross-multiplication picks by load and then by name. */
  lemma ChoiceIsLeastLoaded(active: map<string, nat>, cfg: Inventory, candidates: seq<string>, best: Snapshot)
    requires IsChoice(active, cfg, candidates, Some(best))
    ensures LeastLoaded(active, cfg, candidates, best.name)
  {
    forall name | Eligible(active, cfg, candidates, name)
      ensures Load(active, cfg, best.name) <= Load(active, cfg, name)
      ensures name != best.name && Load(active, cfg, best.name) == Load(active, cfg, name) ==> Precedes(best.name, name)
    {
      var other := SnapshotOf(active, cfg, name);
      Quotients(best.active, best.capacity, other.active, other.capacity);
      Quotients(other.active, other.capacity, best.active, best.capacity);
      NameLessExactly(best.name, name);
    }
  }

  /** So among machines of one capacity no free candidate has fewer claims. */
  lemma FewestAmongEquals(active: map<string, nat>, cfg: Inventory, candidates: seq<string>, best: string, name: string)
    requires LeastLoaded(active, cfg, candidates, best) && Eligible(active, cfg, candidates, name)
    requires EffectiveCapacity(cfg[best]) == EffectiveCapacity(cfg[name])
    ensures ActiveOf(active, best) <= ActiveOf(active, name)
  {
    var capacity := EffectiveCapacity(cfg[best]);
    Quotients(ActiveOf(active, name), capacity, ActiveOf(active, best), capacity);
    if ActiveOf(active, best) > ActiveOf(active, name) {
      Scale(ActiveOf(active, name) + 1, ActiveOf(active, best), capacity);
    }
  }
}
