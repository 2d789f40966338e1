/** `ORDER BY` over a duplicate-free column, for any total order. */
module Sorting {
  ghost predicate TotalOrder<T(!new)>(leq: (T, T) -> bool) {
    && (forall a :: leq(a, a))
    && (forall a, b :: leq(a, b) || leq(b, a))
    && (forall a, b :: leq(a, b) && leq(b, a) ==> a == b)
    && (forall a, b, c :: leq(a, b) && leq(b, c) ==> leq(a, c))
  }

  ghost predicate Sorted<T>(xs: seq<T>, leq: (T, T) -> bool) {
    forall i, j :: 0 <= i < j < |xs| ==> leq(xs[i], xs[j])
  }

  ghost predicate Distinct<T>(xs: seq<T>) {
    forall i, j :: 0 <= i < j < |xs| ==> xs[i] != xs[j]
  }

  /** The elements of `xs`. */
  function Elements<T(==)>(xs: seq<T>): set<T> {
    set x | x in xs
  }

  predicate Least<T(==, !new)>(x: T, s: set<T>, leq: (T, T) -> bool) {
    x in s && forall y :: y in s ==> leq(x, y)
  }

  lemma LeastOfMore<T(!new)>(x: T, m: T, s: set<T>, leq: (T, T) -> bool)
    requires TotalOrder(leq) && x in s && Least(m, s - {x}, leq)
    ensures Least(if leq(m, x) then m else x, s, leq)
  {
    forall y | y in s ensures leq(if leq(m, x) then m else x, y) {
      assert y != x ==> leq(m, y);
    }
  }

  lemma {:induction false} LeastExists<T(!new)>(s: set<T>, leq: (T, T) -> bool)
    requires TotalOrder(leq) && s != {}
    ensures exists x :: Least(x, s, leq)
    decreases |s|
  {
    var x :| x in s;
    if s == {x} {
      assert Least(x, s, leq);
    } else {
      LeastExists(s - {x}, leq);
      var m :| Least(m, s - {x}, leq);
      LeastOfMore(x, m, s, leq);
    }
  }

  function Sort<T(==, !new)>(s: set<T>, leq: (T, T) -> bool): (r: seq<T>)
    requires TotalOrder(leq)
    ensures |r| == |s|
    ensures forall x :: x in r <==> x in s
    decreases |s|
  {
    if s == {} then [] else
      LeastExists(s, leq);
      var x :| x in s && Least(x, s, leq);
      [x] + Sort(s - {x}, leq)
  }

  lemma SortedCons<T>(x: T, tail: seq<T>, leq: (T, T) -> bool)
    requires Sorted(tail, leq) && Distinct(tail)
    requires forall y :: y in tail ==> leq(x, y) && x != y
    ensures Sorted([x] + tail, leq) && Distinct([x] + tail)
  {
    forall i, j | 0 <= i < j < |tail| + 1
      ensures leq(([x] + tail)[i], ([x] + tail)[j]) && ([x] + tail)[i] != ([x] + tail)[j] {
      assert tail[j - 1] in tail;
    }
  }

  lemma {:induction false} SortIsSorted<T(!new)>(s: set<T>, leq: (T, T) -> bool)
    requires TotalOrder(leq)
    ensures Sorted(Sort(s, leq), leq)
    ensures Distinct(Sort(s, leq))
    decreases |s|
  {
    if s != {} {
      LeastExists(s, leq);
      var x :| x in s && Least(x, s, leq) && Sort(s, leq) == [x] + Sort(s - {x}, leq);
      SortIsSorted(s - {x}, leq);
      SortedCons(x, Sort(s - {x}, leq), leq);
    }
  }

  /** Sorting a duplicate-free list permutes it. */
  lemma SortPermutes<T(!new)>(xs: seq<T>, leq: (T, T) -> bool)
    requires TotalOrder(leq) && Distinct(xs)
    ensures multiset(Sort(Elements(xs), leq)) == multiset(xs)
  {
    var ys := Sort(Elements(xs), leq);
    SortIsSorted(Elements(xs), leq);
    forall x ensures multiset(ys)[x] == multiset(xs)[x] {
      CountOfDistinct(ys, x);
      CountOfDistinct(xs, x);
    }
  }

  lemma {:induction false} CountOfDistinct<T>(xs: seq<T>, x: T)
    requires Distinct(xs)
    ensures multiset(xs)[x] == if x in xs then 1 else 0
  {
    if xs != [] {
      var n := |xs| - 1;
      CountOfDistinct(xs[..n], x);
      assert xs == xs[..n] + [xs[n]];
      assert x in xs <==> x in xs[..n] || x == xs[n];
      if x == xs[n] { assert x !in xs[..n]; }
    }
  }

  lemma {:induction false} DistinctCount<T>(xs: seq<T>)
    requires Distinct(xs)
    ensures |Elements(xs)| == |xs|
  {
    if xs != [] {
      var n := |xs| - 1;
      DistinctCount(xs[..n]);
      assert xs == xs[..n] + [xs[n]];
      assert Elements(xs) == Elements(xs[..n]) + {xs[n]};
    }
  }

  /** The strings of SQLite's BINARY collation: byte order of UTF-8, which is code point order. */
  predicate StringLeq(a: string, b: string) {
    if a == "" then true
    else if b == "" then false
    else if a[0] == b[0] then StringLeq(a[1..], b[1..])
    else a[0] < b[0]
  }

  lemma {:induction false} StringLeqReflexive(a: string)
    ensures StringLeq(a, a)
  {
    if a != "" { StringLeqReflexive(a[1..]); }
  }

  lemma {:induction false} StringLeqTotal(a: string, b: string)
    ensures StringLeq(a, b) || StringLeq(b, a)
    ensures StringLeq(a, b) && StringLeq(b, a) ==> a == b
  {
    if a != "" && b != "" && a[0] == b[0] {
      StringLeqTotal(a[1..], b[1..]);
      assert a == [a[0]] + a[1..] && b == [b[0]] + b[1..];
    }
  }

  lemma {:induction false} StringLeqTransitive(a: string, b: string, c: string)
    requires StringLeq(a, b) && StringLeq(b, c)
    ensures StringLeq(a, c)
  {
    if a != "" && a[0] == b[0] == c[0] {
      StringLeqTransitive(a[1..], b[1..], c[1..]);
    }
  }

  lemma StringOrder()
    ensures TotalOrder(StringLeq)
  {
    forall a ensures StringLeq(a, a) { StringLeqReflexive(a); }
    forall a, b ensures (StringLeq(a, b) || StringLeq(b, a)) && (StringLeq(a, b) && StringLeq(b, a) ==> a == b) {
      StringLeqTotal(a, b);
    }
    forall a, b, c | StringLeq(a, b) && StringLeq(b, c) ensures StringLeq(a, c) {
      StringLeqTransitive(a, b, c);
    }
  }
}
