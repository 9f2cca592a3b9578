/** Sorting by a comparison, as `Array.prototype.sort` does, and the order of strings. */
module Ordering {

  function Insert<T>(x: T, xs: seq<T>, leq: (T, T) -> bool): (r: seq<T>)
    ensures |r| == |xs| + 1
  {
    if xs == [] then [x] else if leq(xs[0], x) then [xs[0]] + Insert(x, xs[1..], leq) else [x] + xs
  }

  /** Equal elements keep their order. */
  function Sort<T>(xs: seq<T>, leq: (T, T) -> bool): (r: seq<T>)
    ensures |r| == |xs|
  {
    if xs == [] then [] else Insert(xs[|xs| - 1], Sort(xs[..|xs| - 1], leq), leq)
  }

  ghost predicate Total<T(!new)>(leq: (T, T) -> bool) {
    forall x, y :: leq(x, y) || leq(y, x)
  }

  ghost predicate Transitive<T(!new)>(leq: (T, T) -> bool) {
    forall x, y, z :: leq(x, y) && leq(y, z) ==> leq(x, z)
  }

  ghost predicate TotalOrder<T(!new)>(leq: (T, T) -> bool) { Total(leq) && Transitive(leq) }

  ghost predicate Sorted<T>(xs: seq<T>, leq: (T, T) -> bool) {
    forall i, j :: 0 <= i < j < |xs| ==> leq(xs[i], xs[j])
  }

  predicate Chain<T>(xs: seq<T>, leq: (T, T) -> bool) {
    |xs| <= 1 || (leq(xs[0], xs[1]) && Chain(xs[1..], leq))
  }

  lemma {:induction false} ChainAhead<T(!new)>(xs: seq<T>, leq: (T, T) -> bool, j: nat)
    requires Transitive(leq) && Chain(xs, leq) && 0 < j < |xs|
    ensures leq(xs[0], xs[j])
  {
    if j > 1 { ChainAhead(xs[1..], leq, j - 1); }
  }

  lemma {:induction false} ChainSorted<T(!new)>(xs: seq<T>, leq: (T, T) -> bool)
    requires Transitive(leq) && Chain(xs, leq)
    ensures Sorted(xs, leq)
  {
    if |xs| > 1 {
      ChainSorted(xs[1..], leq);
      forall i, j | 0 <= i < j < |xs| ensures leq(xs[i], xs[j]) {
        if i == 0 { ChainAhead(xs, leq, j); } else { assert xs[1..][i - 1] == xs[i] && xs[1..][j - 1] == xs[j]; }
      }
    }
  }

  lemma {:induction false} InsertChain<T(!new)>(x: T, xs: seq<T>, leq: (T, T) -> bool)
    requires Total(leq) && Chain(xs, leq)
    ensures Chain(Insert(x, xs, leq), leq)
  {
    if xs != [] {
      var r := Insert(x, xs, leq);
      if leq(xs[0], x) {
        InsertChain(x, xs[1..], leq);
        var rest := Insert(x, xs[1..], leq);
        assert rest[0] == x || (|xs| > 1 && rest[0] == xs[1]);
        assert r[1..] == rest;
      } else {
        assert leq(x, xs[0]);
        assert r[1..] == xs;
      }
    }
  }

  lemma {:induction false} InsertSame<T>(x: T, xs: seq<T>, leq: (T, T) -> bool)
    ensures multiset(Insert(x, xs, leq)) == multiset(xs) + multiset{x}
  {
    if xs != [] {
      assert xs == [xs[0]] + xs[1..];
      InsertSame(x, xs[1..], leq);
    }
  }

  lemma {:induction false} SortChain<T(!new)>(xs: seq<T>, leq: (T, T) -> bool)
    requires Total(leq)
    ensures Chain(Sort(xs, leq), leq)
    decreases |xs|
  {
    if xs != [] {
      SortChain(xs[..|xs| - 1], leq);
      InsertChain(xs[|xs| - 1], Sort(xs[..|xs| - 1], leq), leq);
    }
  }

  lemma {:induction false} SortSame<T>(xs: seq<T>, leq: (T, T) -> bool)
    ensures multiset(Sort(xs, leq)) == multiset(xs)
    decreases |xs|
  {
    if xs != [] {
      var n := |xs| - 1;
      SortSame(xs[..n], leq);
      InsertSame(xs[n], Sort(xs[..n], leq), leq);
      assert xs == xs[..n] + [xs[n]];
    }
  }

  lemma SortSorts<T(!new)>(xs: seq<T>, leq: (T, T) -> bool)
    requires TotalOrder(leq)
    ensures Sorted(Sort(xs, leq), leq) && multiset(Sort(xs, leq)) == multiset(xs)
  {
    SortChain(xs, leq);
    ChainSorted(Sort(xs, leq), leq);
    SortSame(xs, leq);
  }

  /** An element no smaller than any other goes last. */
  lemma {:induction false} InsertLast<T>(x: T, xs: seq<T>, leq: (T, T) -> bool)
    requires forall i :: 0 <= i < |xs| ==> leq(xs[i], x)
    ensures Insert(x, xs, leq) == xs + [x]
  {
    if xs != [] {
      InsertLast(x, xs[1..], leq);
      assert xs == [xs[0]] + xs[1..];
    }
  }

  lemma {:induction false} SortFixed<T>(xs: seq<T>, leq: (T, T) -> bool)
    requires Sorted(xs, leq)
    ensures Sort(xs, leq) == xs
    decreases |xs|
  {
    if xs != [] {
      var n := |xs| - 1;
      SortFixed(xs[..n], leq);
      InsertLast(xs[n], xs[..n], leq);
      assert xs == xs[..n] + [xs[n]];
    }
  }

  /** The first of a sorted arrangement is the first of any other arrangement of the elements. */
  lemma SameFirst<T>(xs: seq<T>, ys: seq<T>, leq: (T, T) -> bool)
    requires xs != [] && ys != [] && Sorted(xs, leq) && Sorted(ys, leq) && multiset(xs) == multiset(ys)
    ensures xs[0] == ys[0] || (leq(xs[0], ys[0]) && leq(ys[0], xs[0]) && ys[0] in xs)
  {
    assert xs[0] in multiset(xs) && ys[0] in multiset(ys);
    var i :| 0 <= i < |ys| && ys[i] == xs[0];
    var j :| 0 <= j < |xs| && xs[j] == ys[0];
  }

  /** Two sorted arrangements of the same distinct elements are the same. */
  lemma {:induction false} SortedUnique<T>(xs: seq<T>, ys: seq<T>, leq: (T, T) -> bool)
    requires Sorted(xs, leq) && Sorted(ys, leq) && multiset(xs) == multiset(ys)
    requires forall i, j :: 0 <= i < |xs| && 0 <= j < |xs| && leq(xs[i], xs[j]) && leq(xs[j], xs[i]) ==> xs[i] == xs[j]
    ensures xs == ys
    decreases |xs|
  {
    assert |xs| == |multiset(xs)| == |multiset(ys)| == |ys|;
    if xs != [] {
      SameFirst(xs, ys, leq);
      assert xs[0] == ys[0];
      assert xs == [xs[0]] + xs[1..] && ys == [ys[0]] + ys[1..];
      assert multiset(xs[1..]) == multiset(xs) - multiset{xs[0]};
      assert multiset(ys[1..]) == multiset(ys) - multiset{ys[0]};
      SortedUnique(xs[1..], ys[1..], leq);
    }
  }

  // ---------------------------------------------------------------- strings

  /** `a <= b` on strings, code unit by code unit. */
  predicate StringLeq(a: string, b: string) {
    a == [] || (b != [] && (a[0] < b[0] || (a[0] == b[0] && StringLeq(a[1..], b[1..]))))
  }

  lemma {:induction false} StringTotal(a: string, b: string)
    ensures StringLeq(a, b) || StringLeq(b, a)
    ensures StringLeq(a, b) && StringLeq(b, a) ==> a == b
  {
    if a != [] && b != [] {
      StringTotal(a[1..], b[1..]);
      assert a == [a[0]] + a[1..] && b == [b[0]] + b[1..];
    }
  }

  lemma {:induction false} StringTransitive(a: string, b: string, c: string)
    requires StringLeq(a, b) && StringLeq(b, c)
    ensures StringLeq(a, c)
  {
    if a != [] && a[0] == b[0] == c[0] {
      StringTransitive(a[1..], b[1..], c[1..]);
    }
  }
}
