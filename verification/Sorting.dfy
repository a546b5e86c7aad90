/** The library sort, called with a strict "less" function, and the string order it is called with most. */
module Sorting {

  /** A strict order on the elements of `xs` in which not being less is transitive. */
  ghost predicate WeakOrder<T>(less: (T, T) -> bool, xs: seq<T>) {
    forall x, y, z :: x in xs && y in xs && z in xs ==>
      !less(x, x) && (less(x, y) ==> !less(y, x)) && (less(x, y) ==> less(x, z) || less(z, y))
  }

  ghost predicate NoInversion<T>(less: (T, T) -> bool, xs: seq<T>) {
    forall i, j :: 0 <= i < j < |xs| ==> !less(xs[j], xs[i])
  }

  function Insert<T>(less: (T, T) -> bool, x: T, xs: seq<T>): seq<T> {
    if xs == [] then [x] else if less(x, xs[0]) then [x] + xs else [xs[0]] + Insert(less, x, xs[1..])
  }

  function Sort<T>(less: (T, T) -> bool, xs: seq<T>): seq<T> {
    if xs == [] then [] else Insert(less, xs[0], Sort(less, xs[1..]))
  }

  lemma {:induction false} InsertPermutes<T>(less: (T, T) -> bool, x: T, xs: seq<T>)
    ensures multiset(Insert(less, x, xs)) == multiset(xs) + multiset{x}
  {
    if xs != [] && !less(x, xs[0]) {
      InsertPermutes(less, x, xs[1..]);
      assert xs == [xs[0]] + xs[1..];
    }
  }

  lemma {:induction false} SortPermutes<T>(less: (T, T) -> bool, xs: seq<T>)
    ensures multiset(Sort(less, xs)) == multiset(xs)
    ensures |Sort(less, xs)| == |xs|
    ensures forall x :: x in Sort(less, xs) <==> x in xs
  {
    if xs != [] {
      SortPermutes(less, xs[1..]);
      InsertPermutes(less, xs[0], Sort(less, xs[1..]));
      assert xs == [xs[0]] + xs[1..];
    }
    assert |multiset(Sort(less, xs))| == |Sort(less, xs)|;
    forall x ensures x in Sort(less, xs) <==> x in xs {
      assert x in multiset(Sort(less, xs)) <==> x in Sort(less, xs);
      assert x in multiset(xs) <==> x in xs;
    }
  }

  lemma {:induction false} InsertSorted<T>(less: (T, T) -> bool, x: T, xs: seq<T>)
    requires WeakOrder(less, [x] + xs) && NoInversion(less, xs)
    ensures NoInversion(less, Insert(less, x, xs))
  {
    if xs == [] {
    } else if less(x, xs[0]) {
      forall j | 0 <= j < |xs| ensures !less(xs[j], x) {
        assert xs[j] in [x] + xs && xs[0] in [x] + xs && x in [x] + xs;
        assert j > 0 ==> !less(xs[j], xs[0]);
      }
    } else {
      assert forall y :: y in [x] + xs[1..] ==> y in [x] + xs;
      InsertSorted(less, x, xs[1..]);
      InsertPermutes(less, x, xs[1..]);
      var t := Insert(less, x, xs[1..]);
      forall j | 0 <= j < |t| ensures !less(t[j], xs[0]) {
        assert t[j] in multiset(t);
        assert t[j] == x || t[j] in xs[1..];
      }
    }
  }

  lemma {:induction false} SortSorts<T>(less: (T, T) -> bool, xs: seq<T>)
    requires WeakOrder(less, xs)
    ensures NoInversion(less, Sort(less, xs))
  {
    if xs != [] {
      assert forall y :: y in xs[1..] ==> y in xs;
      SortSorts(less, xs[1..]);
      SortPermutes(less, xs[1..]);
      var s := Sort(less, xs[1..]);
      forall y | y in [xs[0]] + s ensures y in xs {
        if y == xs[0] {
          assert xs[0] in xs;
        } else {
          assert y in multiset(s);
          assert y in xs[1..];
        }
      }
      InsertSorted(less, xs[0], Sort(less, xs[1..]));
    }
  }

  ghost predicate DistinctBy<T, K>(key: T -> K, xs: seq<T>) {
    forall i, j :: 0 <= i < j < |xs| ==> key(xs[i]) != key(xs[j])
  }

  lemma {:induction false} InsertDistinct<T, K>(less: (T, T) -> bool, key: T -> K, x: T, xs: seq<T>)
    requires DistinctBy(key, xs) && forall y :: y in xs ==> key(y) != key(x)
    ensures DistinctBy(key, Insert(less, x, xs))
  {
    if xs != [] && !less(x, xs[0]) {
      InsertDistinct(less, key, x, xs[1..]);
      InsertPermutes(less, x, xs[1..]);
      var t := Insert(less, x, xs[1..]);
      forall j | 0 <= j < |t| ensures key(t[j]) != key(xs[0]) {
        assert t[j] in multiset(t);
        assert t[j] == x || t[j] in xs[1..];
      }
    }
  }

  /** Sorting keeps distinct keys distinct. */
  lemma {:induction false} SortDistinct<T, K>(less: (T, T) -> bool, key: T -> K, xs: seq<T>)
    requires DistinctBy(key, xs)
    ensures DistinctBy(key, Sort(less, xs))
  {
    if xs != [] {
      SortDistinct(less, key, xs[1..]);
      SortPermutes(less, xs[1..]);
      var s := Sort(less, xs[1..]);
      forall y | y in s ensures key(y) != key(xs[0]) {
        assert y in multiset(s);
        assert y in xs[1..];
      }
      InsertDistinct(less, key, xs[0], s);
    }
  }

  /** Byte-wise string order. */
  predicate NameLess(a: string, b: string) {
    if b == "" then false
    else if a == "" then true
    else if a[0] != b[0] then a[0] < b[0]
    else NameLess(a[1..], b[1..])
  }

  lemma {:induction false} NameOrder(a: string, b: string, c: string)
    ensures !NameLess(a, a)
    ensures NameLess(a, b) ==> !NameLess(b, a)
    ensures a != b ==> NameLess(a, b) || NameLess(b, a)
    ensures NameLess(a, b) && NameLess(b, c) ==> NameLess(a, c)
    decreases |a| + |b| + |c|
  {
    if a != "" { NameOrder(a[1..], if b != "" then b[1..] else b, if c != "" then c[1..] else c); }
    if a != "" && b != "" && a[0] == b[0] && a[1..] == b[1..] {
      assert a == [a[0]] + a[1..] && b == [b[0]] + b[1..];
    }
  }

  /** `a` is a proper prefix of `b`, or has the smaller character where they first differ. */
  ghost predicate Precedes(a: string, b: string) {
    || a < b
    || exists k :: 0 <= k < |a| && k < |b| && a[..k] == b[..k] && a[k] < b[k]
  }

  lemma {:induction false} NameLessExactly(a: string, b: string)
    ensures NameLess(a, b) <==> Precedes(a, b)
  {
    if a != "" && b != "" {
      var a', b' := a[1..], b[1..];
      assert a == [a[0]] + a' && b == [b[0]] + b';
      if a[0] == b[0] {
        NameLessExactly(a', b');
        PrecedesTail(a, b);
      } else {
        assert a[..0] == b[..0];
      }
    }
  }

  lemma PrecedesTail(a: string, b: string)
    requires a != "" && b != "" && a[0] == b[0]
    ensures Precedes(a, b) <==> Precedes(a[1..], b[1..])
  {
    var a', b' := a[1..], b[1..];
    assert a == [a[0]] + a' && b == [b[0]] + b';
    assert a < b <==> a' < b';
    if k :| 0 <= k < |a| && k < |b| && a[..k] == b[..k] && a[k] < b[k] {
      assert a'[..k-1] == a[..k][1..] && b'[..k-1] == b[..k][1..];
      assert a'[k-1] < b'[k-1];
    }
    if k :| 0 <= k < |a'| && k < |b'| && a'[..k] == b'[..k] && a'[k] < b'[k] {
      assert a[..k+1] == [a[0]] + a'[..k] && b[..k+1] == [b[0]] + b'[..k];
      assert a[k+1] < b[k+1];
    }
  }

  ghost predicate Ascending<T>(less: (T, T) -> bool, xs: seq<T>) {
    forall i, j :: 0 <= i < j < |xs| ==> less(xs[i], xs[j])
  }

  /** Sorting by distinct names leaves them strictly in order. */
  lemma SortAscends<T>(less: (T, T) -> bool, name: T -> string, xs: seq<T>)
    requires DistinctBy(name, xs)
    requires forall x, y :: x in xs && y in xs ==> (less(x, y) <==> NameLess(name(x), name(y)))
    ensures Ascending(less, Sort(less, xs))
  {
    forall x, y, z | x in xs && y in xs && z in xs
      ensures !less(x, x) && (less(x, y) ==> !less(y, x)) && (less(x, y) ==> less(x, z) || less(z, y))
    {
      NameOrder(name(x), name(y), name(z));
      NameOrder(name(x), name(z), name(y));
      NameOrder(name(z), name(x), name(y));
    }
    SortSorts(less, xs);
    SortPermutes(less, xs);
    SortDistinct(less, name, xs);
    var t := Sort(less, xs);
    forall i, j | 0 <= i < j < |t| ensures less(t[i], t[j]) {
      assert t[i] in multiset(t) && t[j] in multiset(t);
      assert t[i] in xs && t[j] in xs;
      assert !less(t[j], t[i]) && name(t[i]) != name(t[j]);
      NameOrder(name(t[i]), name(t[j]), "");
    }
  }
}
