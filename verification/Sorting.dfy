/** Sorting a slice in place, as the program asks of its standard library. */
module Sorting {

  ghost predicate TotalOrder<T(!new)>(leq: (T, T) -> bool) {
    && (forall x, y :: leq(x, y) || leq(y, x))
    && (forall x, y, z :: leq(x, y) && leq(y, z) ==> leq(x, z))
  }

  ghost predicate Sorted<T>(xs: seq<T>, leq: (T, T) -> bool) {
    forall i, j :: 0 <= i < j < |xs| ==> leq(xs[i], xs[j])
  }

  method Sort<T(!new)>(xs: seq<T>, leq: (T, T) -> bool) returns (out: seq<T>)
    requires TotalOrder(leq)
    ensures Sorted(out, leq) && multiset(out) == multiset(xs)
  {
    out := [];
    var i := 0;
    while i < |xs|
      invariant 0 <= i <= |xs|
      invariant Sorted(out, leq) && multiset(out) == multiset(xs[..i])
    {
      assert xs[..i + 1] == xs[..i] + [xs[i]];
      out := Insert(out, xs[i], leq);
      i := i + 1;
    }
    assert xs[..i] == xs;
  }

  method Insert<T(!new)>(xs: seq<T>, x: T, leq: (T, T) -> bool) returns (out: seq<T>)
    requires TotalOrder(leq) && Sorted(xs, leq)
    ensures Sorted(out, leq) && multiset(out) == multiset(xs) + multiset{x}
  {
    var k := |xs|;
    while k > 0 && !leq(xs[k - 1], x)
      invariant 0 <= k <= |xs|
      invariant forall j :: k <= j < |xs| ==> leq(x, xs[j])
    {
      k := k - 1;
    }
    out := xs[..k] + [x] + xs[k..];
    assert xs == xs[..k] + xs[k..];
    forall j | 0 <= j < k ensures leq(xs[j], x) {
      assert leq(xs[k - 1], x);
    }
    hide TotalOrder;
    SpliceIsSorted(xs, x, k, leq);
  }

  lemma SpliceIsSorted<T>(xs: seq<T>, x: T, k: nat, leq: (T, T) -> bool)
    requires Sorted(xs, leq) && k <= |xs|
    requires forall j :: 0 <= j < k ==> leq(xs[j], x)
    requires forall j :: k <= j < |xs| ==> leq(x, xs[j])
    ensures Sorted(xs[..k] + [x] + xs[k..], leq)
  {
    var out := xs[..k] + [x] + xs[k..];
    forall i, j | 0 <= i < j < |out| ensures leq(out[i], out[j]) {
      assert i != k ==> out[i] == xs[if i < k then i else i - 1];
      assert j != k ==> out[j] == xs[if j < k then j else j - 1];
    }
  }

  lemma {:induction false} TwiceCounts<T>(xs: seq<T>, i: nat, j: nat)
    requires i < j < |xs| && xs[i] == xs[j]
    ensures multiset(xs)[xs[i]] >= 2
  {
    assert xs == xs[..i + 1] + xs[i + 1..];
    assert xs[i + 1..][j - i - 1] == xs[i];
    assert xs[i] in xs[..i + 1] && xs[i] in xs[i + 1..];
  }

  lemma {:induction false} DistinctCounts<T>(xs: seq<T>, x: T)
    requires forall i, j :: 0 <= i < j < |xs| ==> xs[i] != xs[j]
    ensures multiset(xs)[x] <= 1
  {
    if xs != [] {
      var rest := xs[1..];
      assert xs == [xs[0]] + rest;
      assert forall i :: 0 <= i < |rest| ==> rest[i] == xs[i + 1];
      DistinctCounts(rest, x);
      assert xs[0] !in rest;
    }
  }

  /** A permutation of a list without repetitions has none either. */
  lemma PermutationStaysDistinct<T>(xs: seq<T>, ys: seq<T>)
    requires multiset(xs) == multiset(ys)
    requires forall i, j :: 0 <= i < j < |xs| ==> xs[i] != xs[j]
    ensures forall i, j :: 0 <= i < j < |ys| ==> ys[i] != ys[j]
  {
    forall i, j | 0 <= i < j < |ys| ensures ys[i] != ys[j] {
      if ys[i] == ys[j] {
        TwiceCounts(ys, i, j);
        DistinctCounts(xs, ys[i]);
      }
    }
  }

  lemma PermutationSameElements<T>(xs: seq<T>, ys: seq<T>)
    requires multiset(xs) == multiset(ys)
    ensures |xs| == |ys| && forall x :: x in xs <==> x in ys
  {
    assert |multiset(xs)| == |xs| && |multiset(ys)| == |ys|;
    forall x ensures x in xs <==> x in ys {
      assert x in multiset(xs) <==> x in multiset(ys);
    }
  }
}
