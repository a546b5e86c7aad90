/** The worker's bundle cache: admission, claims, the two LRU evictors and the maintenance pass. */
module BundleCache {
  import opened Records
  import opened StateDirectory
  import opened Sorting
  import opened Commits

  datatype Policy = Policy(maxEntries: int, maxBytes: int, admissionBytes: int)

  /** Zero fields of a configured policy take the documented defaults. */
  function EffectiveBundleCache(p: Policy): (r: Policy)
    ensures r.maxEntries > 0 && r.maxBytes > 0 && r.admissionBytes > 0
    ensures p.maxEntries > 0 ==> r.maxEntries == p.maxEntries
    ensures p.maxBytes > 0 ==> r.maxBytes == p.maxBytes
    ensures p.admissionBytes > 0 ==> r.admissionBytes == p.admissionBytes
    ensures p == Policy(0, 0, 0) ==> r == Policy(5, 5_368_709_120, 52_428_800)
  {
    Policy(if p.maxEntries <= 0 then 5 else p.maxEntries,
           if p.maxBytes <= 0 then 5 * 1024 * 1024 * 1024 else p.maxBytes,
           if p.admissionBytes <= 0 then 50 * 1024 * 1024 else p.admissionBytes)
  }

  /**
   * One entry directory. `bundle` is None while the file is torn, `bytes` and `lastUsed` are the
   * content of meta.json, `mtime` its modification time, and each claim marker has a creation time.
   */
  datatype Cached = Cached(
    bundle: Option<Bundle>, bytes: nat, lastUsed: Time, mtime: Time, complete: bool, claims: map<string, Time>)

  type Entries = map<Oid, Cached>

  function Complete(m: Entries): set<Oid> { set b | b in m && m[b].complete }

  /** A complete entry no claim protects: the only kind an evictor may remove. */
  predicate Free(m: Entries, b: Oid) { b in m && m[b].complete && m[b].claims == map[] }

  ghost function Total(m: Entries, s: set<Oid>): nat
    requires s <= m.Keys
  {
    if s == {} then 0 else var b :| b in s; m[b].bytes + Total(m, s - {b})
  }

  /** Both positive limits hold of the complete entries. */
  ghost predicate Within(p: Policy, m: Entries) {
    && (p.maxEntries > 0 ==> |Complete(m)| <= p.maxEntries)
    && (p.maxBytes > 0 ==> Total(m, Complete(m)) <= p.maxBytes)
  }

  // ---------------------------------------------------------------- what an eviction may do

  /** `after` keeps some entries of `before`, unchanged, and drops only free ones. */
  predicate DropsFree(before: Entries, after: Entries) {
    && after.Keys <= before.Keys
    && (forall b :: b in after ==> after[b] == before[b])
    && (forall b :: b in before && b !in after ==> Free(before, b))
  }

  /** Nothing dropped is newer than a free survivor. */
  ghost predicate OldestFirst(age: Oid -> Time, before: Entries, after: Entries) {
    forall b, c :: b in before && b !in after && Free(after, c) ==> age(b) <= age(c)
  }

  /** `last` is a newest dropped entry, and the limits did not hold while it was there. */
  ghost predicate NeededLast(p: Policy, age: Oid -> Time, before: Entries, after: Entries, last: Oid) {
    && last in before && last !in after
    && (forall b :: b in before && b !in after ==> age(b) <= age(last))
    && !Within(p, after[last := before[last]])
  }

  /** Free entries only, oldest first and no more than needed. */
  ghost predicate Evicting(p: Policy, age: Oid -> Time, before: Entries, after: Entries) {
    && DropsFree(before, after)
    && OldestFirst(age, before, after)
    && (after == before || exists last :: NeededLast(p, age, before, after, last))
  }

  /** Eviction, said without an algorithm: it stops within the limits or with every complete entry claimed. */
  ghost predicate IsEviction(p: Policy, age: Oid -> Time, before: Entries, after: Entries) {
    Evicting(p, age, before, after) && (Within(p, after) || forall b :: !Free(after, b))
  }

  lemma EvictOne(p: Policy, age: Oid -> Time, before: Entries, m: Entries, b: Oid)
    requires Evicting(p, age, before, m) && !Within(p, m)
    requires Free(m, b) && forall c :: Free(m, c) ==> age(b) <= age(c)
    ensures Evicting(p, age, before, m - {b}) && |m - {b}| == |m| - 1
  {
    hide Within;
    var m' := m - {b};
    assert m'.Keys == m.Keys - {b};
    assert m'[b := before[b]] == m;
    assert forall c :: Free(m', c) ==> Free(m, c);
    assert NeededLast(p, age, before, m', b);
  }

  ghost function LastUsedIn(m: Entries): Oid -> Time { b => if b in m then m[b].lastUsed else 0 }

  ghost function MtimeIn(m: Entries): Oid -> Time { b => if b in m then m[b].mtime else 0 }

  lemma {:induction false} TotalTake(m: Entries, s: set<Oid>, x: Oid)
    requires s <= m.Keys && x in s
    ensures Total(m, s) == m[x].bytes + Total(m, s - {x})
    decreases s
  {
    var b :| b in s && Total(m, s) == m[b].bytes + Total(m, s - {b});
    if b != x {
      TotalTake(m, s - {b}, x);
      TotalTake(m, s - {x}, b);
      assert s - {b} - {x} == s - {x} - {b};
    }
  }

  lemma TotalAdd(m: Entries, s: set<Oid>, x: Oid)
    requires s <= m.Keys && x in m && x !in s
    ensures Total(m, s + {x}) == Total(m, s) + m[x].bytes && |s + {x}| == |s| + 1
  {
    TotalTake(m, s + {x}, x);
    assert s + {x} - {x} == s;
  }

  lemma {:induction false} TotalSub(m: Entries, s: set<Oid>, m': Entries, s': set<Oid>)
    requires s <= m.Keys && s' <= m'.Keys && s' <= s && forall b :: b in s' ==> m'[b] == m[b]
    ensures Total(m', s') <= Total(m, s) && |s'| <= |s|
    decreases s
  {
    if s != {} {
      var x :| x in s;
      TotalTake(m, s, x);
      if x in s' { TotalTake(m', s', x); }
      TotalSub(m, s - {x}, m', s' - {x});
      assert x !in s' ==> s' - {x} == s';
    }
  }

  lemma FewerWithin(p: Policy, m: Entries, m': Entries)
    requires Within(p, m) && m'.Keys <= m.Keys && forall b :: b in m' ==> m'[b] == m[b]
    ensures Within(p, m')
  {
    TotalSub(m, Complete(m), m', Complete(m'));
  }

  /** Entries whose ages are distinct leave an evictor no choice. */
  lemma EvictionIsUnique(p: Policy, age: Oid -> Time, before: Entries, a: Entries, b: Entries)
    requires IsEviction(p, age, before, a) && IsEviction(p, age, before, b)
    requires forall x, y :: Free(before, x) && Free(before, y) && x != y ==> age(x) != age(y)
    ensures a == b
  {
    if x, y :| x in before && y in before && x in a && x !in b && y in b && y !in a {
      assert Free(before, x) && Free(before, y);
      assert Free(a, x) && Free(b, y);
      assert false;
    }
    if b.Keys <= a.Keys { NoneMore(p, age, before, a, b); } else { NoneMore(p, age, before, b, a); }
  }

  /** Of two evictions, one cannot drop strictly more. */
  lemma NoneMore(p: Policy, age: Oid -> Time, before: Entries, a: Entries, b: Entries)
    requires IsEviction(p, age, before, a) && IsEviction(p, age, before, b) && b.Keys <= a.Keys
    requires forall x, y :: Free(before, x) && Free(before, y) && x != y ==> age(x) != age(y)
    ensures a == b
  {
    hide Within;
    if a.Keys == b.Keys {
      assert a == b;
    } else {
      var y :| y in a && y !in b;
      var last :| NeededLast(p, age, before, b, last);
      assert Free(before, y) && Free(a, y) && Free(before, last);
      assert last in a && Free(a, last);
      StillOver(p, age, before, a, b, last);
      assert false;
    }
  }

  /** An eviction that has not yet dropped another's last entry is still over the limits. */
  lemma StillOver(p: Policy, age: Oid -> Time, before: Entries, a: Entries, b: Entries, last: Oid)
    requires DropsFree(before, a) && DropsFree(before, b) && b.Keys <= a.Keys
    requires NeededLast(p, age, before, b, last) && last in a
    ensures !Within(p, a)
  {
    hide Within;
    if Within(p, a) { FewerWithin(p, a, b[last := before[last]]); }
  }

  // ---------------------------------------------------------------- other operations, as values

  /** The last thing an admission has written: the directory, some of the bundle, all of it, meta.json, the marker. */
  datatype Phase = Directory | PartOfBundle | WholeBundle | Metadata | Marker

  /** A new entry's directory; an existing one is kept as it is. */
  function WithDirectory(m: Entries, base: Oid, now: Time): Entries {
    if base in m then m else m[base := Cached(None, 0, now, now, false, map[])]
  }

  /** The entries when an admission stops after `phase`; nothing clears an earlier marker. */
  function AdmittedUpTo(m: Entries, base: Oid, bundle: Bundle, bytes: nat, lastUsed: Time, now: Time,
                        phase: Phase): Entries
  {
    var dir := WithDirectory(m, base, now);
    match phase
    case Directory => dir
    case PartOfBundle => dir[base := dir[base].(bundle := None)]
    case WholeBundle => dir[base := dir[base].(bundle := Some(bundle))]
    case Metadata => dir[base := dir[base].(bundle := Some(bundle), bytes := bytes, lastUsed := lastUsed, mtime := now)]
    case Marker =>
      dir[base := dir[base].(bundle := Some(bundle), bytes := bytes, lastUsed := lastUsed, mtime := now,
                             complete := true)]
  }

  function Admitted(m: Entries, base: Oid, bundle: Bundle, bytes: nat, lastUsed: Time, now: Time): Entries {
    AdmittedUpTo(m, base, bundle, bytes, lastUsed, now, Marker)
  }

  function Acquired(m: Entries, base: Oid, claim: string, now: Time): Entries {
    if base in m && m[base].complete then m[base := m[base].(claims := m[base].claims[claim := now])] else m
  }

  function Unclaimed(m: Entries, base: Oid, claim: string): Entries {
    if base in m then m[base := m[base].(claims := m[base].claims - {claim})] else m
  }

  function Touched(m: Entries, base: Oid, now: Time): Entries {
    if base in m then m[base := m[base].(mtime := now)] else m
  }

  predicate Partial(c: Cached, cutoff: Time) { !c.complete && c.mtime < cutoff }

  function WithoutPartials(m: Entries, cutoff: Time): Entries {
    map b | b in m && !Partial(m[b], cutoff) :: m[b]
  }

  function FreshClaims(claims: map<string, Time>, cutoff: Time): map<string, Time> {
    map c | c in claims && claims[c] >= cutoff :: claims[c]
  }

  function WithFreshClaims(c: Cached, cutoff: Time): Cached { c.(claims := FreshClaims(c.claims, cutoff)) }

  function WithoutStaleClaims(m: Entries, cutoff: Time): Entries {
    map b | b in m :: WithFreshClaims(m[b], cutoff)
  }

  /** Every claim marker, with the entry it is in. */
  ghost function Markers(m: Entries): set<(Oid, string)> {
    set b, c | b in m && c in m[b].claims :: (b, c)
  }

  function MarkersIn(base: Oid, claims: set<string>): set<(Oid, string)> { set c | c in claims :: (base, c) }

  lemma {:induction false} MarkersInSize(base: Oid, claims: set<string>)
    ensures |MarkersIn(base, claims)| == |claims|
    decreases claims
  {
    if claims == {} {
      assert MarkersIn(base, claims) == {};
    } else {
      var c :| c in claims;
      MarkersInSize(base, claims - {c});
      assert MarkersIn(base, claims) == MarkersIn(base, claims - {c}) + {(base, c)};
    }
  }

  /** Taking markers from one entry takes as many from the cache. */
  lemma FewerMarkers(m: Entries, d: Oid, left: map<string, Time>)
    requires d in m && left.Keys <= m[d].claims.Keys
    ensures |Markers(m)| - |Markers(m[d := m[d].(claims := left)])| == |m[d].claims| - |left|
  {
    var m' := m[d := m[d].(claims := left)];
    assert m' - {d} == m - {d};
    hide Markers;
    MarkersSplit(m, d);
    MarkersSplit(m', d);
  }

  lemma MarkersSplit(m: Entries, d: Oid)
    requires d in m
    ensures |Markers(m)| == |Markers(m - {d})| + |m[d].claims|
  {
    var others, own := Markers(m - {d}), MarkersIn(d, m[d].claims.Keys);
    MarkersInSize(d, m[d].claims.Keys);
    forall x ensures x in Markers(m) <==> x in others || x in own {
      MarkerIn(m, x);
      MarkerIn(m - {d}, x);
    }
    forall x | x in own ensures x !in others { MarkerIn(m - {d}, x); }
    hide Markers, MarkersIn;
    assert Markers(m) == others + own && others !! own;
  }

  lemma MarkerIn(m: Entries, x: (Oid, string))
    ensures x in Markers(m) <==> x.0 in m && x.1 in m[x.0].claims
  {
  }

  lemma DropOne<K, V>(m: map<K, V>, k: K)
    requires k in m
    ensures |m - {k}| == |m| - 1
  {
    assert (m - {k}).Keys == m.Keys - {k};
  }

  // ---------------------------------------------------------------- in place

  /** One listed entry. */
  datatype Entry = Entry(base: Oid, bytes: nat, lastUsed: Time)

  predicate LessUsed(a: Entry, b: Entry) { a.lastUsed < b.lastUsed }

  predicate LessBase(a: Entry, b: Entry) { NameLess(a.base, b.base) }

  function BaseOf(e: Entry): Oid { e.base }

  function Bases(list: seq<Entry>): set<Oid> { set e | e in list :: e.base }

  function Bytes(list: seq<Entry>): nat { if list == [] then 0 else Bytes(list[..|list|-1]) + list[|list|-1].bytes }

  /** The list holds each complete entry of `m` once, with its metadata. */
  ghost predicate Lists(list: seq<Entry>, m: Entries) {
    && DistinctBy(BaseOf, list)
    && Bases(list) == Complete(m)
    && forall e :: e in list ==> e.base in m && e == Entry(e.base, m[e.base].bytes, m[e.base].lastUsed)
  }

  lemma BasesSnoc(init: seq<Entry>, e: Entry)
    ensures Bases(init + [e]) == Bases(init) + {e.base}
    ensures DistinctBy(BaseOf, init + [e]) ==> DistinctBy(BaseOf, init) && e.base !in Bases(init)
  {
    var list := init + [e];
    assert e in list && forall x :: x in init ==> x in list;
    if DistinctBy(BaseOf, list) {
      assert forall i :: 0 <= i < |init| ==> init[i] == list[i];
      forall i | 0 <= i < |init| ensures init[i].base != e.base {
        assert BaseOf(list[i]) != BaseOf(list[|init|]);
      }
    }
  }

  ghost predicate Tallied(list: seq<Entry>, m: Entries) {
    Bases(list) <= m.Keys && |list| == |Bases(list)| && Bytes(list) == Total(m, Bases(list))
  }

  lemma TalliedSnoc(init: seq<Entry>, e: Entry, m: Entries)
    requires Tallied(init, m) && DistinctBy(BaseOf, init + [e]) && e.base in m && e.bytes == m[e.base].bytes
    ensures Tallied(init + [e], m)
  {
    BasesSnoc(init, e);
    TotalAdd(m, Bases(init), e.base);
    assert (init + [e])[..|init|] == init;
  }

  lemma {:induction false} ListTotal(list: seq<Entry>, m: Entries)
    requires DistinctBy(BaseOf, list) && forall e :: e in list ==> e.base in m && e.bytes == m[e.base].bytes
    ensures Tallied(list, m)
  {
    if list == [] {
      assert Bases(list) == {};
    } else {
      hide Tallied;
      var init, e := list[..|list|-1], list[|list|-1];
      assert list == init + [e] && e in list;
      BasesSnoc(init, e);
      ListTotal(init, m);
      TalliedSnoc(init, e, m);
    }
  }

  /** Sorting a listing leaves it a listing. */
  lemma SortLists(less: (Entry, Entry) -> bool, list: seq<Entry>, m: Entries)
    requires Lists(list, m)
    ensures Lists(Sort(less, list), m)
  {
    SortPermutes(less, list);
    SortDistinct(less, BaseOf, list);
    assert Bases(Sort(less, list)) == Bases(list);
  }

  /** The directories before `i` have been looked at, and of them the stale partial ones are gone. */
  ghost predicate PartialsGone(before: Entries, m: Entries, dirs: seq<Oid>, i: nat, cutoff: Time) {
    && i <= |dirs| && (forall j :: 0 <= j < |dirs| ==> dirs[j] in before)
    && m.Keys <= before.Keys && (forall b :: b in m ==> m[b] == before[b])
    && (forall j :: 0 <= j < i ==> (dirs[j] in m <==> !Partial(before[dirs[j]], cutoff)))
    && (forall j :: i <= j < |dirs| ==> dirs[j] in m)
  }

  lemma NextGone(before: Entries, m: Entries, dirs: seq<Oid>, i: nat, cutoff: Time)
    requires PartialsGone(before, m, dirs, i, cutoff) && i < |dirs|
    requires forall j, k :: 0 <= j < k < |dirs| ==> dirs[j] != dirs[k]
    ensures dirs[i] in m
    ensures PartialsGone(before, if Partial(m[dirs[i]], cutoff) then m - {dirs[i]} else m, dirs, i + 1, cutoff)
  {
  }

  lemma AllGone(before: Entries, m: Entries, dirs: seq<Oid>, cutoff: Time)
    requires PartialsGone(before, m, dirs, |dirs|, cutoff) && forall b :: b in dirs <==> b in before.Keys
    ensures m == WithoutPartials(before, cutoff)
  {
    forall b | b in before ensures b in m <==> !Partial(before[b], cutoff) {
      var j :| 0 <= j < |dirs| && dirs[j] == b;
    }
  }

  class Cache {
    var entries: Entries

    constructor ()
      ensures entries == map[]
    {
      entries := map[];
    }

    /** Writes directory, bundle, metadata and marker in that order, and may be cut off after any of them. */
    method Admit(base: Oid, bundle: Bundle, bytes: nat, lastUsed: Time, now: Time, cutOff: Phase)
      modifies this
      ensures entries == AdmittedUpTo(old(entries), base, bundle, bytes, lastUsed, now, cutOff)
    {
      if base !in entries {
        entries := entries[base := Cached(None, 0, now, now, false, map[])];
      }
      if cutOff.Directory? { return; }
      ghost var dir := entries;
      entries := entries[base := entries[base].(bundle := None)];
      if cutOff.PartOfBundle? { return; }
      entries := entries[base := entries[base].(bundle := Some(bundle))];
      assert entries == dir[base := entries[base]];
      if cutOff.WholeBundle? { return; }
      entries := entries[base := entries[base].(bytes := bytes, lastUsed := lastUsed, mtime := now)];
      assert entries == dir[base := entries[base]];
      if cutOff.Metadata? { return; }
      entries := entries[base := entries[base].(complete := true)];
      assert entries == dir[base := entries[base]];
    }

    method Acquire(base: Oid, claim: string, now: Time) returns (ok: bool)
      modifies this
      ensures ok <==> base in old(entries) && old(entries)[base].complete
      ensures entries == Acquired(old(entries), base, claim, now)
    {
      if base !in entries || !entries[base].complete { return false; }
      entries := entries[base := entries[base].(claims := entries[base].claims[claim := now])];
      return true;
    }

    method Unclaim(base: Oid, claim: string)
      modifies this
      ensures entries == Unclaimed(old(entries), base, claim)
    {
      if base !in entries { return; }
      entries := entries[base := entries[base].(claims := entries[base].claims - {claim})];
    }

    method Touch(base: Oid, now: Time) returns (ok: bool)
      modifies this
      ensures ok <==> base in old(entries)
      ensures entries == Touched(old(entries), base, now)
    {
      if base !in entries { return false; }
      entries := entries[base := entries[base].(mtime := now)];
      return true;
    }

    /** The complete entries in the order of their bases. */
    method List() returns (out: seq<Entry>)
      ensures Lists(out, entries)
      ensures Ascending(LessBase, out)
    {
      var dirs := ReadDir(entries.Keys);
      out := [];
      for i := 0 to |dirs|
        invariant forall e :: e in out ==>
            e.base in entries && e == Entry(e.base, entries[e.base].bytes, entries[e.base].lastUsed)
        invariant forall b :: b in Bases(out) <==> b in dirs[..i] && b in Complete(entries)
        invariant DistinctBy(BaseOf, out)
      {
        var d := dirs[i];
        assert dirs[..i+1] == dirs[..i] + [d];
        if !entries[d].complete { continue; }
        var e := Entry(d, entries[d].bytes, entries[d].lastUsed);
        assert d !in dirs[..i];
        assert forall x :: x in out ==> x.base in Bases(out);
        assert Bases(out + [e]) == Bases(out) + {d};
        out := out + [e];
      }
      assert dirs[..|dirs|] == dirs;
      assert Bases(out) == Complete(entries);
      SortLists(LessBase, out, entries);
      SortAscends(LessBase, BaseOf, out);
      out := Sort(LessBase, out);
    }

    /** The summing loop decides the limits. */
    static method WithinLimits(list: seq<Entry>, p: Policy, ghost m: Entries) returns (ok: bool)
      requires Lists(list, m)
      ensures ok <==> Within(p, m)
    {
      ListTotal(list, m);
      if p.maxEntries > 0 && |list| > p.maxEntries { return false; }
      if p.maxBytes > 0 {
        var total := 0;
        for i := 0 to |list|
          invariant total == Bytes(list[..i])
        {
          assert list[..i+1][..i] == list[..i];
          total := total + list[i].bytes;
        }
        assert list[..|list|] == list;
        if total > p.maxBytes { return false; }
      }
      return true;
    }

    /** Lists once, sorts once by last use, then shrinks the list as it removes entries. */
    method EvictLRU(p: Policy) returns (removed: nat)
      modifies this
      ensures IsEviction(p, LastUsedIn(old(entries)), old(entries), entries)
      ensures removed == |old(entries)| - |entries|
    {
      ghost var before := entries;
      ghost var age := LastUsedIn(before);
      removed := 0;
      var list := List();
      var within := WithinLimits(list, p, entries);
      if within { return; }
      SortLists(LessUsed, list, entries);
      SortSorts(LessUsed, list);
      list := Sort(LessUsed, list);
      var i := 0;
      assert Evicting(p, age, before, entries) && Scanned(list, entries, i);
      hide Within, Lists, Scanned, Evicting, LastUsedIn;
      while i < |list| && !within
        invariant 0 <= i <= |list| && removed + |entries| == |before|
        invariant Scanned(list, entries, i) && Evicting(p, age, before, entries)
        invariant within <==> Within(p, entries)
        decreases |list| - i
      {
        ScannedEntry(list, entries, i);
        if entries[list[i].base].claims != map[] {
          i := i + 1;
          continue;
        }
        DropNext(p, before, entries, list, i);
        entries := entries - {list[i].base};
        removed := removed + 1;
        list := list[..i] + list[i+1..];
        within := WithinLimits(list, p, entries);
      }
      if !within { AllClaimed(list, entries); }
      EvictionEnds(p, age, before, entries);
    }

    /** Complete entries and their bytes, counted afresh. */
    method CountComplete() returns (n: nat, bytes: nat)
      ensures n == |Complete(entries)| && bytes == Total(entries, Complete(entries))
    {
      var dirs := ReadDir(entries.Keys);
      n, bytes := 0, 0;
      ghost var seen: set<Oid> := {};
      for i := 0 to |dirs|
        invariant forall b :: b in seen <==> b in dirs[..i] && b in Complete(entries)
        invariant n == |seen| && seen <= entries.Keys && bytes == Total(entries, seen)
      {
        var d := dirs[i];
        assert dirs[..i+1] == dirs[..i] + [d];
        if !entries[d].complete { continue; }
        assert d !in dirs[..i];
        TotalAdd(entries, seen, d);
        seen := seen + {d};
        n := n + 1;
        bytes := bytes + entries[d].bytes;
      }
      assert dirs[..|dirs|] == dirs;
      assert seen == Complete(entries);
    }

    /** The first free entry wins until one with a strictly older meta.json replaces it. */
    method OldestFree() returns (oldest: Option<Oid>)
      ensures oldest.None? <==> forall b :: !Free(entries, b)
      ensures oldest.Some? ==> Free(entries, oldest.value)
      ensures oldest.Some? ==> forall b :: Free(entries, b) ==> entries[oldest.value].mtime <= entries[b].mtime
    {
      var dirs := ReadDir(entries.Keys);
      oldest := None;
      for i := 0 to |dirs|
        invariant oldest.None? ==> forall b :: b in dirs[..i] ==> !Free(entries, b)
        invariant oldest.Some? ==> Free(entries, oldest.value)
        invariant oldest.Some? ==> forall b :: b in dirs[..i] && Free(entries, b) ==>
            entries[oldest.value].mtime <= entries[b].mtime
      {
        var d := dirs[i];
        assert dirs[..i+1] == dirs[..i] + [d];
        if !entries[d].complete || entries[d].claims != map[] { continue; }
        if oldest.None? {
          oldest := Some(d);
          continue;
        }
        if entries[d].mtime < entries[oldest.value].mtime { oldest := Some(d); }
      }
      assert dirs[..|dirs|] == dirs;
    }

    /** The worker's evictor: recount and search again before every removal. */
    method EvictRescan(p: Policy) returns (evicted: nat)
      modifies this
      ensures IsEviction(p, MtimeIn(old(entries)), old(entries), entries)
      ensures evicted == |old(entries)| - |entries|
    {
      evicted := 0;
      if p.maxEntries <= 0 && p.maxBytes <= 0 { return; }
      ghost var before := entries;
      ghost var age := MtimeIn(before);
      while true
        invariant evicted + |entries| == |before|
        invariant Evicting(p, age, before, entries)
        decreases |Complete(entries)|
      {
        var n, bytes := CountComplete();
        if (p.maxEntries <= 0 || n <= p.maxEntries) && (p.maxBytes <= 0 || bytes <= p.maxBytes) { return; }
        assert !Within(p, entries);
        var oldest := OldestFree();
        hide Within;
        if oldest.None? { return; }
        EvictOne(p, age, before, entries, oldest.value);
        hide Evicting;
        assert Complete(entries - {oldest.value}) == Complete(entries) - {oldest.value};
        entries := entries - {oldest.value};
        evicted := evicted + 1;
      }
    }

    method ReapPartials(cutoff: Time) returns (removed: nat)
      modifies this
      ensures entries == WithoutPartials(old(entries), cutoff)
      ensures removed == |old(entries)| - |entries|
    {
      ghost var before := entries;
      removed := 0;
      var dirs := ReadDir(entries.Keys);
      for i := 0 to |dirs|
        invariant PartialsGone(before, entries, dirs, i, cutoff)
        invariant removed + |entries| == |before|
      {
        hide PartialsGone;
        var d := dirs[i];
        NextGone(before, entries, dirs, i, cutoff);
        if entries[d].complete { continue; }
        if !(entries[d].mtime < cutoff) { continue; }
        DropOne(entries, d);
        entries := entries - {d};
        removed := removed + 1;
      }
      AllGone(before, entries, dirs, cutoff);
    }

    method ReapClaims(cutoff: Time) returns (removed: nat)
      modifies this
      ensures entries == WithoutStaleClaims(old(entries), cutoff)
      ensures removed == |Markers(old(entries))| - |Markers(entries)|
    {
      ghost var before := entries;
      removed := 0;
      var dirs := ReadDir(entries.Keys);
      for i := 0 to |dirs|
        invariant entries.Keys == before.Keys
        invariant forall j :: 0 <= j < i ==> entries[dirs[j]] == WithFreshClaims(before[dirs[j]], cutoff)
        invariant forall j :: i <= j < |dirs| ==> entries[dirs[j]] == before[dirs[j]]
        invariant removed + |Markers(entries)| == |Markers(before)|
      {
        hide Markers;
        var d := dirs[i];
        var left, n := FreshMarkers(entries[d].claims, cutoff);
        FewerMarkers(entries, d, left);
        entries := entries[d := entries[d].(claims := left)];
        removed := removed + n;
      }
      forall b | b in before ensures entries[b] == WithFreshClaims(before[b], cutoff) {
        var j :| 0 <= j < |dirs| && dirs[j] == b;
      }
    }

    /** The maintenance pass: stale partial entries, stale claim markers, then eviction. */
    method ReapCache(p: Policy, partialCutoff: Time, claimCutoff: Time) returns (stale: nat, evicted: nat)
      modifies this
      ensures var whole := WithoutPartials(old(entries), partialCutoff);
              var swept := WithoutStaleClaims(whole, claimCutoff);
              && IsEviction(p, MtimeIn(swept), swept, entries) && evicted == |swept| - |entries|
              && stale == |old(entries)| - |whole| + |Markers(whole)| - |Markers(swept)|
    {
      hide *;
      var partials := ReapPartials(partialCutoff);
      var markers := ReapClaims(claimCutoff);
      evicted := EvictRescan(p);
      stale := partials + markers;
    }

    static method FreshMarkers(claims: map<string, Time>, cutoff: Time) returns (left: map<string, Time>, removed: nat)
      ensures left == FreshClaims(claims, cutoff) && removed == |claims| - |left|
    {
      var markers := ReadDir(claims.Keys);
      left, removed := claims, 0;
      for i := 0 to |markers|
        invariant left.Keys <= claims.Keys && forall c :: c in left ==> left[c] == claims[c]
        invariant forall j :: 0 <= j < i ==> (markers[j] in left <==> claims[markers[j]] >= cutoff)
        invariant forall j :: i <= j < |markers| ==> markers[j] in left
        invariant removed + |left| == |claims|
      {
        if !(claims[markers[i]] < cutoff) { continue; }
        DropOne(left, markers[i]);
        left := left - {markers[i]};
        removed := removed + 1;
      }
      forall c | c in claims ensures c in left <==> claims[c] >= cutoff {
        var j :| 0 <= j < |markers| && markers[j] == c;
      }
    }
  }

  /** In a list sorted by last use whose first `i` entries are claimed, the next free one is oldest. */
  lemma FirstFreeIsOldest(list: seq<Entry>, m: Entries, before: Entries, i: nat)
    requires Lists(list, m) && NoInversion(LessUsed, list) && i < |list|
    requires DropsFree(before, m) && forall k :: 0 <= k < i ==> !Free(m, list[k].base)
    ensures forall c :: Free(m, c) ==> LastUsedIn(before)(list[i].base) <= LastUsedIn(before)(c)
  {
    assert list[i] in list;
    forall c | Free(m, c) ensures LastUsedIn(before)(list[i].base) <= LastUsedIn(before)(c) {
      assert c in Bases(list);
      var j :| 0 <= j < |list| && list[j].base == c;
      assert list[j] in list && (i < j ==> !LessUsed(list[j], list[i]));
    }
  }

  /** A listing in order of last use whose first `i` entries cannot be evicted. */
  ghost predicate Scanned(list: seq<Entry>, m: Entries, i: nat) {
    && Lists(list, m) && NoInversion(LessUsed, list)
    && i <= |list| && forall k :: 0 <= k < i ==> !Free(m, list[k].base)
  }

  lemma ScannedEntry(list: seq<Entry>, m: Entries, i: nat)
    requires Scanned(list, m, i) && i < |list|
    ensures list[i].base in m && m[list[i].base].complete
    ensures m[list[i].base].claims != map[] ==> Scanned(list, m, i + 1)
  {
    assert list[i] in list;
    assert list[i].base in Bases(list);
  }

  lemma DropNext(p: Policy, before: Entries, m: Entries, list: seq<Entry>, i: nat)
    requires Scanned(list, m, i) && i < |list| && Free(m, list[i].base) && !Within(p, m)
    requires Evicting(p, LastUsedIn(before), before, m)
    ensures var b, rest := list[i].base, list[..i] + list[i+1..];
            && Evicting(p, LastUsedIn(before), before, m - {b}) && |m - {b}| == |m| - 1
            && Scanned(rest, m - {b}, i) && Lists(rest, m - {b})
  {
    FirstFreeIsOldest(list, m, before, i);
    EvictOne(p, LastUsedIn(before), before, m, list[i].base);
    ListWithout(list, m, i);
  }

  lemma EvictionEnds(p: Policy, age: Oid -> Time, before: Entries, m: Entries)
    requires Evicting(p, age, before, m) && (Within(p, m) || forall b :: !Free(m, b))
    ensures IsEviction(p, age, before, m)
  {
  }

  lemma RestBases(list: seq<Entry>, i: nat)
    requires i < |list| && DistinctBy(BaseOf, list)
    ensures Bases(list[..i] + list[i+1..]) == Bases(list) - {list[i].base}
    ensures forall e :: e in list[..i] + list[i+1..] ==> e in list
  {
  }

  lemma RestOrdered(list: seq<Entry>, i: nat)
    requires i < |list| && DistinctBy(BaseOf, list) && NoInversion(LessUsed, list)
    ensures DistinctBy(BaseOf, list[..i] + list[i+1..]) && NoInversion(LessUsed, list[..i] + list[i+1..])
  {
  }

  lemma ListWithout(list: seq<Entry>, m: Entries, i: nat)
    requires Scanned(list, m, i) && i < |list|
    ensures Scanned(list[..i] + list[i+1..], m - {list[i].base}, i)
  {
    var rest, b := list[..i] + list[i+1..], list[i].base;
    RestBases(list, i);
    RestOrdered(list, i);
    assert Complete(m - {b}) == Complete(m) - {b};
    forall e | e in rest ensures e.base in m - {b} && e == Entry(e.base, m[e.base].bytes, m[e.base].lastUsed) {
      assert e in list && e.base in Bases(rest);
    }
  }

  lemma AllClaimed(list: seq<Entry>, m: Entries)
    requires Scanned(list, m, |list|)
    ensures forall b :: !Free(m, b)
  {
    forall b | b in Complete(m) ensures !Free(m, b) { assert b in Bases(list); }
  }
}
