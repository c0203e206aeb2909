/** The library sorts the project calls, and the order of strings. */
module Sorting {

  ghost predicate TotalPreorder<T(!new)>(leq: (T, T) -> bool) {
    && (forall x, y :: leq(x, y) || leq(y, x))
    && (forall x, y, z :: leq(x, y) && leq(y, z) ==> leq(x, z))
  }

  ghost predicate Antisymmetric<T(!new)>(leq: (T, T) -> bool) {
    forall x, y :: leq(x, y) && leq(y, x) ==> x == y
  }

  ghost predicate Sorted<T>(xs: seq<T>, leq: (T, T) -> bool) {
    forall i, j :: 0 <= i < j < |xs| ==> leq(xs[i], xs[j])
  }

  function Insert<T>(x: T, xs: seq<T>, leq: (T, T) -> bool): seq<T> {
    if xs == [] then [x]
    else if leq(x, xs[0]) then [x] + xs
    else [xs[0]] + Insert(x, xs[1..], leq)
  }

  /** A stable sort: an element stays ahead of the later ones it equals. */
  function SortBy<T>(xs: seq<T>, leq: (T, T) -> bool): seq<T> {
    if xs == [] then [] else Insert(xs[0], SortBy(xs[1..], leq), leq)
  }

  lemma {:induction false} InsertPermutes<T>(x: T, xs: seq<T>, leq: (T, T) -> bool)
    ensures multiset(Insert(x, xs, leq)) == multiset{x} + multiset(xs)
  {
    if xs != [] {
      assert xs == [xs[0]] + xs[1..];
      InsertPermutes(x, xs[1..], leq);
    }
  }

  lemma {:induction false} SortPermutes<T>(xs: seq<T>, leq: (T, T) -> bool)
    ensures multiset(SortBy(xs, leq)) == multiset(xs)
    ensures |SortBy(xs, leq)| == |xs|
  {
    if xs != [] {
      assert xs == [xs[0]] + xs[1..];
      SortPermutes(xs[1..], leq);
      InsertPermutes(xs[0], SortBy(xs[1..], leq), leq);
    }
    assert |multiset(SortBy(xs, leq))| == |multiset(xs)|;
  }

  lemma {:induction false} InsertSorts<T(!new)>(x: T, xs: seq<T>, leq: (T, T) -> bool)
    requires TotalPreorder(leq) && Sorted(xs, leq)
    ensures Sorted(Insert(x, xs, leq), leq)
  {
    if xs != [] {
      if !leq(x, xs[0]) {
        InsertSorts(x, xs[1..], leq);
        var rest := Insert(x, xs[1..], leq);
        InsertPermutes(x, xs[1..], leq);
        forall y | y in rest
          ensures leq(xs[0], y)
        {
          assert y in multiset(rest);
          if y != x { assert y in xs[1..]; }
        }
      }
    }
  }

  lemma {:induction false} SortSorts<T(!new)>(xs: seq<T>, leq: (T, T) -> bool)
    requires TotalPreorder(leq)
    ensures Sorted(SortBy(xs, leq), leq)
  {
    if xs != [] {
      SortSorts(xs[1..], leq);
      InsertSorts(xs[0], SortBy(xs[1..], leq), leq);
    }
  }

  /** Under an antisymmetric order the sorted arrangement is unique, so the
      order in which the elements arrived does not show. */
  lemma {:induction false} SortedIsUnique<T(!new)>(xs: seq<T>, ys: seq<T>, leq: (T, T) -> bool)
    requires TotalPreorder(leq) && Antisymmetric(leq)
    requires Sorted(xs, leq) && Sorted(ys, leq) && multiset(xs) == multiset(ys)
    ensures xs == ys
  {
    assert |multiset(xs)| == |multiset(ys)|;
    if xs != [] {
      assert xs[0] in multiset(ys) && ys[0] in multiset(xs);
      assert leq(ys[0], xs[0]) && leq(xs[0], ys[0]);
      assert xs == [xs[0]] + xs[1..] && ys == [ys[0]] + ys[1..];
      assert multiset(xs[1..]) == multiset(xs) - multiset{xs[0]};
      assert multiset(ys[1..]) == multiset(ys) - multiset{ys[0]};
      SortedIsUnique(xs[1..], ys[1..], leq);
    }
  }

  ghost predicate NoDuplicates<T>(xs: seq<T>) {
    forall i, j :: 0 <= i < j < |xs| ==> xs[i] != xs[j]
  }

  lemma {:induction false} DistinctMultiset<T>(xs: seq<T>)
    ensures NoDuplicates(xs) <==> (forall x :: multiset(xs)[x] <= 1)
  {
    if xs != [] {
      var n := |xs| - 1;
      assert xs == xs[..n] + [xs[n]];
      DistinctMultiset(xs[..n]);
      if NoDuplicates(xs) {
        assert forall i :: 0 <= i < n ==> xs[..n][i] == xs[i];
        assert NoDuplicates(xs[..n]) && xs[n] !in xs[..n];
      }
      if forall x :: multiset(xs)[x] <= 1 {
        forall x ensures multiset(xs[..n])[x] <= 1 {
          assert multiset(xs)[x] <= 1;
        }
        assert multiset(xs)[xs[n]] <= 1;
        assert xs[n] !in xs[..n];
        assert forall i :: 0 <= i < n ==> xs[i] in xs[..n];
      }
    }
  }

  // ---- strings -----------------------------------------------------------

  /** The order of Go strings: by code point, a prefix first. */
  predicate StringLeq(a: string, b: string) {
    a == [] || (b != [] && (a[0] < b[0] || (a[0] == b[0] && StringLeq(a[1..], b[1..]))))
  }

  /** The first place where two strings differ decides, by code point. */
  lemma {:induction false} FirstDifferenceDecides(a: string, b: string, i: nat)
    requires i < |a| && i < |b| && a[..i] == b[..i] && a[i] != b[i]
    ensures StringLeq(a, b) <==> a[i] as int < b[i] as int
  {
    if i > 0 {
      assert a[0] == a[..i][0] && b[0] == b[..i][0];
      assert a[1..][..i - 1] == a[..i][1..] && b[1..][..i - 1] == b[..i][1..];
      FirstDifferenceDecides(a[1..], b[1..], i - 1);
    }
  }

  /** And of two strings one of which begins the other, the shorter is first. */
  lemma {:induction false} PrefixIsFirst(a: string, b: string)
    requires a <= b
    ensures StringLeq(a, b)
  {
    if a != [] {
      PrefixIsFirst(a[1..], b[1..]);
    }
  }

  lemma {:induction false} StringLeqTotal(a: string, b: string)
    ensures StringLeq(a, b) || StringLeq(b, a)
  {
    if a != [] && b != [] { StringLeqTotal(a[1..], b[1..]); }
  }

  lemma {:induction false} StringLeqTransitive(a: string, b: string, c: string)
    requires StringLeq(a, b) && StringLeq(b, c)
    ensures StringLeq(a, c)
  {
    if a != [] && a[0] == b[0] && b[0] == c[0] { StringLeqTransitive(a[1..], b[1..], c[1..]); }
  }

  lemma {:induction false} StringLeqAntisymmetric(a: string, b: string)
    requires StringLeq(a, b) && StringLeq(b, a)
    ensures a == b
  {
    if a != [] {
      StringLeqAntisymmetric(a[1..], b[1..]);
      assert a == [a[0]] + a[1..] && b == [b[0]] + b[1..];
    }
  }

  lemma StringOrder()
    ensures TotalPreorder(StringLeq) && Antisymmetric(StringLeq)
  {
    forall a, b ensures StringLeq(a, b) || StringLeq(b, a) { StringLeqTotal(a, b); }
    forall a, b, c | StringLeq(a, b) && StringLeq(b, c) ensures StringLeq(a, c) { StringLeqTransitive(a, b, c); }
    forall a, b | StringLeq(a, b) && StringLeq(b, a) ensures a == b { StringLeqAntisymmetric(a, b); }
  }

  /** The elements of a set of strings in ascending order. */
  ghost function SortedSet(s: set<string>): (r: seq<string>)
    ensures forall x :: x in r <==> x in s
    ensures NoDuplicates(r)
    ensures |r| == |s|
  {
    if s == {} then []
    else
      var x :| x in s;
      var rest := SortedSet(s - {x});
      InsertPermutes(x, rest, StringLeq);
      InsertKeepsDistinct(x, rest);
      Insert(x, rest, StringLeq)
  }

  lemma InsertKeepsDistinct(x: string, rest: seq<string>)
    requires NoDuplicates(rest) && x !in rest
    ensures NoDuplicates(Insert(x, rest, StringLeq))
    ensures |Insert(x, rest, StringLeq)| == |rest| + 1
    ensures forall y :: y in Insert(x, rest, StringLeq) <==> y == x || y in rest
  {
    InsertPermutes(x, rest, StringLeq);
    var r := Insert(x, rest, StringLeq);
    assert |multiset(r)| == 1 + |rest|;
    DistinctMultiset(rest);
    DistinctMultiset(r);
    forall y ensures y in r <==> y == x || y in rest {
      assert y in r <==> y in multiset(r);
      assert y in rest <==> y in multiset(rest);
    }
  }

  lemma {:induction false} SortedSetIsSorted(s: set<string>)
    ensures Sorted(SortedSet(s), StringLeq)
    decreases s
  {
    StringOrder();
    if s != {} {
      var x :| x in s && SortedSet(s) == Insert(x, SortedSet(s - {x}), StringLeq);
      SortedSetIsSorted(s - {x});
      InsertSorts(x, SortedSet(s - {x}), StringLeq);
    }
  }

  /** Sorting the keys a loop picked in any order. */
  method SortedStrings(s: set<string>) returns (r: seq<string>)
    ensures r == SortedSet(s)
  {
    var rest := s;
    r := [];
    while rest != {}
      invariant rest <= s
      invariant forall x :: x in r <==> x in s - rest
      invariant NoDuplicates(r) && Sorted(r, StringLeq)
      decreases rest
    {
      var x :| x in rest;
      StringOrder();
      InsertKeepsDistinct(x, r);
      InsertSorts(x, r, StringLeq);
      r := Insert(x, r, StringLeq);
      rest := rest - {x};
    }
    SortedSetIsSorted(s);
    SameElements(r, SortedSet(s));
  }

  lemma SameElements(xs: seq<string>, ys: seq<string>)
    requires NoDuplicates(xs) && NoDuplicates(ys)
    requires Sorted(xs, StringLeq) && Sorted(ys, StringLeq)
    requires forall x :: x in xs <==> x in ys
    ensures xs == ys
  {
    StringOrder();
    DistinctMultiset(xs);
    DistinctMultiset(ys);
    forall x ensures multiset(xs)[x] == multiset(ys)[x] {
      assert x in xs <==> x in multiset(xs);
      assert x in ys <==> x in multiset(ys);
    }
    assert multiset(xs) == multiset(ys);
    SortedIsUnique(xs, ys, StringLeq);
  }
}
