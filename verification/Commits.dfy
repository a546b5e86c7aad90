/** Commit graphs, reachability and the bundles that carry part of a graph between repositories. */
module Commits {
  import opened Records

  type Oid = string

  /** Every commit there is, with its parents in order. Object ids name contents, so it never changes. */
  type History = map<Oid, seq<Oid>>

  predicate WellFormed(g: History) {
    forall c :: c in g ==> forall p :: p in g[c] ==> p in g
  }

  /** A repository's commits are whole when each one's parents are there too. */
  ghost predicate Closed(g: History, s: set<Oid>) {
    forall c :: c in s ==> c in g && forall p :: p in g[c] ==> p in s
  }

  ghost predicate IsPath(g: History, path: seq<Oid>) {
    && |path| > 0
    && (forall i :: 0 <= i < |path| ==> path[i] in g)
    && (forall i :: 0 <= i < |path| - 1 ==> path[i + 1] in g[path[i]])
  }

  ghost predicate Connects(g: History, head: Oid, path: seq<Oid>, c: Oid) {
    IsPath(g, path) && path[0] == head && path[|path| - 1] == c
  }

  /** The commits reachable from `head` through parents. */
  ghost function Reach(g: History, head: Oid): set<Oid> {
    set c | c in g && exists path :: Connects(g, head, path, c)
  }

  lemma ReachSelf(g: History, head: Oid)
    requires head in g
    ensures head in Reach(g, head)
  {
    assert Connects(g, head, [head], head);
  }

  lemma ReachStep(g: History, head: Oid, c: Oid, p: Oid)
    requires WellFormed(g) && c in Reach(g, head) && p in g[c]
    ensures p in Reach(g, head)
  {
    var path :| Connects(g, head, path, c);
    assert Connects(g, head, path + [p], p);
  }

  lemma ReachClosed(g: History, head: Oid)
    requires WellFormed(g)
    ensures Closed(g, Reach(g, head))
  {
    forall c, p | c in Reach(g, head) && p in g[c] ensures p in Reach(g, head) {
      ReachStep(g, head, c, p);
    }
  }

  /** Reachability is the least whole set that holds the head. */
  lemma ReachLeast(g: History, head: Oid, s: set<Oid>)
    requires Closed(g, s) && head in s
    ensures Reach(g, head) <= s
  {
    forall c | c in Reach(g, head) ensures c in s {
      var path :| Connects(g, head, path, c);
      PathStays(g, path, s, |path| - 1);
    }
  }

  lemma {:induction false} PathStays(g: History, path: seq<Oid>, s: set<Oid>, k: nat)
    requires Closed(g, s) && IsPath(g, path) && path[0] in s && k < |path|
    ensures path[k] in s
  {
    if k > 0 { PathStays(g, path, s, k - 1); }
  }

  /** The commit walk behind a revision range. */
  method RevList(g: History, head: Oid) returns (s: set<Oid>)
    requires WellFormed(g) && head in g
    ensures s == Reach(g, head)
  {
    s := {};
    var todo := [head];
    ReachSelf(g, head);
    while todo != []
      invariant head in s || head in todo
      invariant s <= Reach(g, head) && forall c :: c in todo ==> c in Reach(g, head)
      invariant forall c :: c in s ==> forall p :: p in g[c] ==> p in s || p in todo
      decreases |g.Keys - s|, |todo|
    {
      var c := todo[0];
      assert c in todo && c in g;
      ghost var left := todo[1..];
      assert forall x :: x in todo ==> x == c || x in left;
      todo := todo[1..];
      if c !in s {
        forall p | p in g[c] ensures p in Reach(g, head) { ReachStep(g, head, c, p); }
        assert g.Keys - (s + {c}) == (g.Keys - s) - {c};
        s := s + {c};
        todo := todo + g[c];
      }
    }
    ReachLeast(g, head, s);
  }

  /** A bundle file: its commits, the commits its reader must already have, and its size. */
  datatype Bundle = Bundle(commits: set<Oid>, prerequisites: set<Oid>, bytes: nat)

  /** Every parent of a bundled commit is in the bundle or is one of its prerequisites. */
  ghost predicate ValidBundle(g: History, b: Bundle) {
    forall c :: c in b.commits ==> c in g && forall p :: p in g[c] ==> p in b.commits || p in b.prerequisites
  }

  /** `git bundle unbundle`: refused, changing nothing, unless every prerequisite is there. */
  function Unbundled(repo: set<Oid>, b: Bundle): set<Oid> {
    if b.prerequisites <= repo then repo + b.commits else repo
  }

  datatype BundleOutcome = Made(bundle: Bundle) | RangeEmpty | NoSuchCommit

  /** The bundle of what is reachable from `head` and not from `have`. */
  ghost predicate IsRange(g: History, have: Option<Oid>, head: Oid, b: Bundle) {
    var known := if have.Some? then Reach(g, have.value) else {};
    && b.commits == Reach(g, head) - known
    && b.prerequisites == (set p | p in known && exists c :: c in b.commits && p in g[c])
    && ValidBundle(g, b)
  }

  /** A source checkout on the coordinator: whole history, HEAD and refs. */
  class Checkout {
    const history: History
    const objects: set<Oid>
    const head: Oid
    var refs: map<string, Oid>

    ghost predicate Valid() {
      WellFormed(history) && Closed(history, objects) && head in objects
    }

    constructor (history: History, objects: set<Oid>, head: Oid)
      requires WellFormed(history) && Closed(history, objects) && head in objects
      ensures Valid() && this.history == history && this.objects == objects && this.head == head
    {
      this.history, this.objects, this.head, refs := history, objects, head, map[];
    }

    /** HEAD's first parent; a root commit has none. */
    method Base() returns (base: Option<Oid>)
      requires Valid()
      ensures base.None? <==> history[head] == []
      ensures base.Some? ==> base.value == history[head][0] && base.value in objects
    {
      if history[head] == [] { return None; }
      assert history[head][0] in history[head];
      return Some(history[head][0]);
    }

    method UpdateRef(ref: string, c: Oid) returns (ok: bool)
      modifies `refs
      ensures ok == (c in objects)
      ensures refs == if ok then old(refs)[ref := c] else old(refs)
    {
      if c !in objects { return false; }
      refs := refs[ref := c];
      return true;
    }

    /**
     * Points transient refs at the ends of the range, bundles it and takes the refs away again.
     * The namespace is random and so unused; a bundle file is never empty.
     */
    method CreateBundle(have: Option<Oid>, tip: Oid, ns: string, packed: nat) returns (out: BundleOutcome)
      requires Valid() && ns + "head" !in refs && ns + "base" !in refs && packed > 0
      modifies `refs
      ensures refs == old(refs)
      ensures out.RangeEmpty? <==>
        || have == Some(tip)
        || (tip in objects && have.Some? && have.value in objects && tip in Reach(history, have.value))
      ensures out.NoSuchCommit? <==> have != Some(tip) && (tip !in objects || (have.Some? && have.value !in objects))
      ensures out.Made? ==> IsRange(history, have, tip, out.bundle) && tip in out.bundle.commits
      ensures out.Made? ==> out.bundle.bytes == packed
    {
      if have == Some(tip) { return RangeEmpty; }
      var headRef, baseRef := ns + "head", ns + "base";
      var ok := UpdateRef(headRef, tip);
      if !ok { return NoSuchCommit; }
      var commits := RevList(history, refs[headRef]);
      ReachSelf(history, tip);
      ReachClosed(history, tip);
      var known := {};
      if have.Some? {
        ok := UpdateRef(baseRef, have.value);
        if !ok {
          refs := refs - {headRef, baseRef};
          return NoSuchCommit;
        }
        known := RevList(history, refs[baseRef]);
        ReachClosed(history, have.value);
        assert tip in known || tip in commits - known;
        if |commits - known| <= 0 {
          assert commits - known == {};
          refs := refs - {headRef, baseRef};
          return RangeEmpty;
        }
        if tip in known { ReachLeast(history, tip, known); }
      }
      commits := commits - known;
      var boundary := set p | p in known && exists c :: c in commits && p in history[c];
      refs := refs - {headRef, baseRef};
      return Made(Bundle(commits, boundary, packed));
    }
  }
}
