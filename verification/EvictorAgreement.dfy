/** When the sort-once and the rescanning evictor leave the same entries: exactly when their keys order them alike. */
module EvictorAgreement {
  import opened Records
  import opened Commits
  import opened BundleCache

  /** Two recency keys order the free entries alike, without ties. */
  ghost predicate SameOrder(m: Entries, age: Oid -> Time, age': Oid -> Time) {
    forall x, y :: Free(m, x) && Free(m, y) && x != y ==>
      age(x) != age(y) && (age(x) < age(y) <==> age'(x) < age'(y))
  }

  lemma EvictionByOtherKey(p: Policy, m: Entries, age: Oid -> Time, age': Oid -> Time, after: Entries)
    requires IsEviction(p, age', m, after) && SameOrder(m, age, age')
    ensures IsEviction(p, age, m, after)
  {
    hide Within;
    forall b, c | b in m && b !in after && Free(after, c) ensures age(b) <= age(c) {
      assert Free(m, b) && Free(m, c);
    }
    if after != m {
      var last :| NeededLast(p, age', m, after, last);
      forall b | b in m && b !in after ensures age(b) <= age(last) {
        assert Free(m, b) && Free(m, last);
      }
      assert NeededLast(p, age, m, after, last);
    }
  }

  /** Whatever the limits, evicting by either key leaves the same entries. */
  ghost predicate Agree(m: Entries, age: Oid -> Time, age': Oid -> Time) {
    forall p, a, b :: IsEviction(p, age, m, a) && IsEviction(p, age', m, b) ==> a == b
  }

  // ---------------------------------------------------------------- keys that order alike are enough

  lemma SameOrderAgrees(m: Entries, age: Oid -> Time, age': Oid -> Time)
    requires SameOrder(m, age, age')
    ensures Agree(m, age, age')
  {
    hide Within, IsEviction;
    forall p, a, b | IsEviction(p, age, m, a) && IsEviction(p, age', m, b) ensures a == b {
      EvictionByOtherKey(p, m, age, age', b);
      EvictionIsUnique(p, age, m, a, b);
    }
  }

  // ---------------------------------------------------------------- and they are needed

  /** Among entries of a set there is one that none is older than. */
  lemma {:induction false} Oldest(age: Oid -> Time, s: set<Oid>) returns (b: Oid)
    requires s != {}
    ensures b in s && forall c :: c in s ==> age(b) <= age(c)
    decreases s
  {
    b :| b in s;
    if s != {b} {
      var rest := Oldest(age, s - {b});
      if age(rest) < age(b) { b := rest; }
    }
  }

  function FreeOnes(m: Entries): set<Oid> { set b | b in m && Free(m, b) }

  /** Removing oldest free entries one by one reaches an eviction from wherever one has got to. */
  lemma {:induction false} EvictionReached(p: Policy, age: Oid -> Time, before: Entries, m: Entries)
    returns (after: Entries)
    requires Evicting(p, age, before, m)
    ensures IsEviction(p, age, before, after)
    decreases |m|
  {
    hide Within, Evicting;
    if Within(p, m) || FreeOnes(m) == {} {
      assert forall b :: Free(m, b) ==> b in FreeOnes(m);
      after := m;
    } else {
      var b := Oldest(age, FreeOnes(m));
      EvictOne(p, age, before, m, b);
      after := EvictionReached(p, age, before, m - {b});
    }
  }

  /** Whatever the key and the limits, some eviction exists. */
  lemma EvictionExists(p: Policy, age: Oid -> Time, m: Entries) returns (after: Entries)
    ensures IsEviction(p, age, m, after)
  {
    after := EvictionReached(p, age, m, m);
  }

  /** The limit under which exactly the entries of `s` have to go. */
  function JustDropping(m: Entries, s: set<Oid>): Policy { Policy(|Complete(m)| - |s|, 0, 0) }

  /** Free entries that are older than all others, and not all there is, are an eviction under some limit. */
  lemma PrefixEviction(m: Entries, age: Oid -> Time, s: set<Oid>, last: Oid)
    requires last in s && s < Complete(m) && (forall b :: b in s ==> Free(m, b) && age(b) <= age(last))
    requires forall b, c :: b in s && Free(m, c) && c !in s ==> age(b) <= age(c)
    ensures IsEviction(JustDropping(m, s), age, m, m - s)
  {
    var after := m - s;
    assert Complete(after) == Complete(m) - s && |Complete(after)| == |Complete(m)| - |s|;
    var again := after[last := m[last]];
    assert Complete(again) == Complete(after) + {last};
    assert |Complete(m) - s| > 0 by { assert Complete(m) - s != {}; }
    assert forall c :: Free(after, c) ==> Free(m, c) && c !in s;
    assert NeededLast(JustDropping(m, s), age, m, after, last);
  }

  function OlderThan(m: Entries, age: Oid -> Time, t: Time): set<Oid> { set b | b in m && Free(m, b) && age(b) < t }

  /** With a tie, either of the two may go last. */
  lemma TieLeavesChoice(m: Entries, age: Oid -> Time, x: Oid, y: Oid) returns (p: Policy, a: Entries, b: Entries)
    requires Free(m, x) && Free(m, y) && x != y && age(x) == age(y)
    ensures IsEviction(p, age, m, a) && IsEviction(p, age, m, b) && a != b
  {
    hide IsEviction, OlderThan;
    var d := OlderThan(m, age, age(x));
    TiedLast(m, age, x, y);
    TiedLast(m, age, y, x);
    p, a, b := JustDropping(m, d + {x}), m - (d + {x}), m - (d + {y});
    assert |d + {x}| == |d + {y}| && y in a && y !in b;
  }

  /** The older ones and one of the tied two. */
  lemma TiedLast(m: Entries, age: Oid -> Time, x: Oid, y: Oid)
    requires Free(m, x) && Free(m, y) && x != y && age(x) == age(y)
    ensures var s := OlderThan(m, age, age(x)) + {x};
            x !in OlderThan(m, age, age(x)) && y !in s && IsEviction(JustDropping(m, s), age, m, m - s)
  {
    hide IsEviction;
    var s := OlderThan(m, age, age(x)) + {x};
    assert y in Complete(m) - s;
    PrefixEviction(m, age, s, x);
  }

  /** So no other key can always agree with it. */
  lemma TiesDisagree(m: Entries, age: Oid -> Time, age': Oid -> Time, x: Oid, y: Oid)
    requires Free(m, x) && Free(m, y) && x != y && age(x) == age(y)
    ensures !Agree(m, age, age') && !Agree(m, age', age)
  {
    hide IsEviction;
    var p, a, b := TieLeavesChoice(m, age, x, y);
    var other := EvictionExists(p, age', m);
  }

  /** Entries the keys order differently: the limit that drops everything up to the older one tells them apart. */
  lemma OrderDisagrees(m: Entries, age: Oid -> Time, age': Oid -> Time, x: Oid, y: Oid)
    requires Free(m, x) && Free(m, y) && age(x) < age(y) && age'(y) < age'(x)
    ensures !Agree(m, age, age')
  {
    var d := OlderThan(m, age, age(x) + 1);
    assert x in d && y in Complete(m) - d;
    PrefixEviction(m, age, d, x);
    var other := EvictionExists(JustDropping(m, d), age', m);
    assert other == m - d ==> Free(other, y) && x !in other;
  }

  /** The keys agree on every eviction if and only if they order the free entries alike, without ties. */
  lemma AgreeExactly(m: Entries, age: Oid -> Time, age': Oid -> Time)
    ensures Agree(m, age, age') <==> SameOrder(m, age, age')
  {
    hide Agree;
    if SameOrder(m, age, age') {
      SameOrderAgrees(m, age, age');
    } else {
      var x, y :| Free(m, x) && Free(m, y) && x != y
                  && !(age(x) != age(y) && (age(x) < age(y) <==> age'(x) < age'(y)));
      if age(x) == age(y) {
        TiesDisagree(m, age, age', x, y);
      } else if age'(x) == age'(y) {
        TiesDisagree(m, age', age, x, y);
      } else if age(x) < age(y) {
        OrderDisagrees(m, age, age', x, y);
      } else {
        OrderDisagrees(m, age, age', y, x);
      }
    }
  }

  /** The two evictors of the cache always leave the same entries if and only if last use and modification
    * time order the free entries alike, without ties. With ties the specification leaves either evictor a choice. */
  lemma EvictorsAgreeExactly(m: Entries)
    ensures Agree(m, LastUsedIn(m), MtimeIn(m)) <==> SameOrder(m, LastUsedIn(m), MtimeIn(m))
  {
    AgreeExactly(m, LastUsedIn(m), MtimeIn(m));
  }

  /** A cache hit refreshes only the modification time, after which the evictors differ. */
  lemma TouchSeparatesEvictors(c: Cached)
    requires c.complete && c.claims == map[]
    ensures var p := Policy(1, 0, 0);
            var m := Touched(map["a" := c.(lastUsed := 1, mtime := 1), "b" := c.(lastUsed := 2, mtime := 2)], "a", 3);
            && IsEviction(p, LastUsedIn(m), m, m - {"a"})
            && IsEviction(p, MtimeIn(m), m, m - {"b"})
            && m - {"a"} != m - {"b"}
  {
    var m := Touched(map["a" := c.(lastUsed := 1, mtime := 1), "b" := c.(lastUsed := 2, mtime := 2)], "a", 3);
    assert m["a"] == c.(lastUsed := 1, mtime := 3) && m["b"] == c.(lastUsed := 2, mtime := 2);
    hide Within, IsEviction;
    OneOfTwo(m, LastUsedIn(m), "a", "b");
    OneOfTwo(m, MtimeIn(m), "b", "a");
    assert "b" in m - {"a"} && "b" !in m - {"b"};
  }

  lemma OneOfTwo(m: Entries, age: Oid -> Time, x: Oid, y: Oid)
    requires m.Keys == {x, y} && x != y && Free(m, x) && Free(m, y) && age(x) <= age(y)
    ensures IsEviction(Policy(1, 0, 0), age, m, m - {x})
  {
    assert Complete(m) == {x, y} && Complete(m - {x}) == {y};
    EvictOne(Policy(1, 0, 0), age, m, m, x);
  }
}
