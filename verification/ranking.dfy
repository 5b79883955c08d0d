/** A stable descending sort, the model of Python's `list.sort(key=...,
    reverse=True)` and of `sort_index`: elements are ordered by a strict weak
    order `better`, and elements that neither outranks keep their input
    order. */
module Ranking {

  /** `better` is irreflexive, transitive, and "neither is better" is
      transitive too, so ties form equivalence classes. */
  ghost predicate StrictWeakOrder<T(!new)>(better: (T, T) -> bool) {
    && (forall a :: !better(a, a))
    && (forall a, b, c :: better(a, b) && better(b, c) ==> better(a, c))
    && (forall a, b, c :: !better(a, b) && !better(b, c) ==> !better(a, c))
  }

  /** No later element is better than an earlier one. */
  ghost predicate Ranked<T>(xs: seq<T>, better: (T, T) -> bool) {
    forall i, j :: 0 <= i < j < |xs| ==> !better(xs[j], xs[i])
  }

  predicate Tied<T>(a: T, b: T, better: (T, T) -> bool) {
    !better(a, b) && !better(b, a)
  }

  /** The elements of `xs` tied with `k`, in their order in `xs`. */
  function TiedWith<T>(xs: seq<T>, k: T, better: (T, T) -> bool): (r: seq<T>)
    ensures |r| <= |xs|
    ensures forall i :: 0 <= i < |r| ==> Tied(r[i], k, better) && r[i] in xs
  {
    if xs == [] then []
    else if Tied(xs[0], k, better) then [xs[0]] + TiedWith(xs[1..], k, better)
    else TiedWith(xs[1..], k, better)
  }

  /** Inserts `x` after every element better than it and before the rest. */
  function Insert<T>(x: T, ys: seq<T>, better: (T, T) -> bool): (r: seq<T>)
    ensures multiset(r) == multiset(ys) + multiset{x}
  {
    if ys == [] then [x]
    else if better(ys[0], x) then
      assert ys == [ys[0]] + ys[1..];
      [ys[0]] + Insert(x, ys[1..], better)
    else [x] + ys
  }

  function Sort<T>(xs: seq<T>, better: (T, T) -> bool): (r: seq<T>)
    ensures multiset(r) == multiset(xs)
    ensures |r| == |xs|
  {
    if xs == [] then []
    else
      var rest := Sort(xs[1..], better);
      assert xs == [xs[0]] + xs[1..];
      Insert(xs[0], rest, better)
  }

  /** The first `n` elements of the sorted sequence. */
  function Top<T>(xs: seq<T>, better: (T, T) -> bool, n: nat): (r: seq<T>)
    ensures |r| == if |xs| < n then |xs| else n
    ensures multiset(r) <= multiset(xs)
    ensures |xs| <= n ==> multiset(r) == multiset(xs)
    ensures forall z :: z in r ==> z in xs
  {
    var sorted := Sort(xs, better);
    var k := if |xs| < n then |xs| else n;
    assert sorted == sorted[..k] + sorted[k..];
    assert multiset(sorted[..k]) <= multiset(sorted);
    assert forall z :: z in sorted[..k] ==> z in multiset(xs);
    sorted[..k]
  }

  /** When the head of a ranked sequence is better than `x`, neither `x`
      nor anything after the head is better than the head. */
  lemma NoneBetterThanHead<T(!new)>(x: T, ys: seq<T>, better: (T, T) -> bool)
    requires StrictWeakOrder(better)
    requires Ranked(ys, better)
    requires ys != [] && better(ys[0], x)
    ensures forall z :: z in multiset(ys[1..]) + multiset{x} ==> !better(z, ys[0])
  {
    forall z | z in multiset(ys[1..]) + multiset{x}
      ensures !better(z, ys[0])
    {
      if z != x {
        assert z in ys[1..];
        var j :| 0 <= j < |ys[1..]| && ys[1..][j] == z;
        assert ys[j + 1] == z;
      }
    }
  }

  lemma {:induction false} InsertRanked<T(!new)>(x: T, ys: seq<T>, better: (T, T) -> bool)
    requires StrictWeakOrder(better)
    requires Ranked(ys, better)
    ensures Ranked(Insert(x, ys, better), better)
  {
    if ys == [] {
    } else if better(ys[0], x) {
      var rest := Insert(x, ys[1..], better);
      InsertRanked(x, ys[1..], better);
      NoneBetterThanHead(x, ys, better);
      forall k | 0 <= k < |rest|
        ensures !better(rest[k], ys[0])
      {
        assert rest[k] in multiset(rest);
      }
    } else {
      forall k | 0 <= k < |ys|
        ensures !better(ys[k], x)
      {
        if k > 0 {
          assert !better(ys[k], ys[0]);
        }
      }
    }
  }

  lemma {:induction false} SortRanked<T(!new)>(xs: seq<T>, better: (T, T) -> bool)
    requires StrictWeakOrder(better)
    ensures Ranked(Sort(xs, better), better)
  {
    if xs != [] {
      SortRanked(xs[1..], better);
      InsertRanked(xs[0], Sort(xs[1..], better), better);
    }
  }

  lemma {:induction false} InsertStable<T(!new)>(x: T, ys: seq<T>, k: T, better: (T, T) -> bool)
    requires StrictWeakOrder(better)
    ensures TiedWith(Insert(x, ys, better), k, better) == TiedWith([x] + ys, k, better)
  {
    if ys == [] {
    } else if better(ys[0], x) {
      InsertStable(x, ys[1..], k, better);
      var r := Insert(x, ys, better);
      assert r == [ys[0]] + Insert(x, ys[1..], better);
      assert ([x] + ys)[1..] == ys;
      assert ([x] + ys[1..])[1..] == ys[1..];
      assert ([ys[0]] + Insert(x, ys[1..], better))[1..] == Insert(x, ys[1..], better);
      if Tied(x, k, better) {
        // ys[0] outranks x and x ties with k, so ys[0] outranks k
        assert better(ys[0], k);
      }
    } else {
    }
  }

  /** Sorting is stable: the elements tied with any `k` keep their order. */
  lemma {:induction false} SortStable<T(!new)>(xs: seq<T>, k: T, better: (T, T) -> bool)
    requires StrictWeakOrder(better)
    ensures TiedWith(Sort(xs, better), k, better) == TiedWith(xs, k, better)
  {
    if xs != [] {
      SortStable(xs[1..], k, better);
      InsertStable(xs[0], Sort(xs[1..], better), k, better);
      assert ([xs[0]] + Sort(xs[1..], better))[1..] == Sort(xs[1..], better);
    }
  }

  /** The top `n` are ranked, and none of the dropped elements is better
      than any kept one. */
  lemma TopRanked<T(!new)>(xs: seq<T>, better: (T, T) -> bool, n: nat)
    requires StrictWeakOrder(better)
    ensures Ranked(Top(xs, better, n), better)
    ensures forall i, j :: 0 <= i < |Top(xs, better, n)| <= j < |xs| ==>
              !better(Sort(xs, better)[j], Top(xs, better, n)[i])
  {
    SortRanked(xs, better);
  }
}
