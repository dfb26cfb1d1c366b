/** Stable sorting by a key, as the library function `sorted` does it. */
module Sorting {

  /** Inserts behind everything whose key is not larger. */
  function Insert<T>(sorted: seq<T>, x: T, key: T -> real): seq<T> {
    if sorted == [] then [x]
    else if key(sorted[|sorted| - 1]) <= key(x) then sorted + [x]
    else Insert(sorted[..|sorted| - 1], x, key) + [sorted[|sorted| - 1]]
  }

  function SortBy<T>(xs: seq<T>, key: T -> real): seq<T> {
    if xs == [] then [] else Insert(SortBy(xs[..|xs| - 1], key), xs[|xs| - 1], key)
  }

  ghost predicate Ascending<T>(xs: seq<T>, key: T -> real) {
    forall i, j | 0 <= i < j < |xs| :: key(xs[i]) <= key(xs[j])
  }

  function Select<T>(xs: seq<T>, keep: T -> bool): seq<T> {
    if xs == [] then []
    else Select(xs[..|xs| - 1], keep) + if keep(xs[|xs| - 1]) then [xs[|xs| - 1]] else []
  }

  lemma SelectSnoc<T>(xs: seq<T>, x: T, keep: T -> bool)
    ensures Select(xs + [x], keep) == Select(xs, keep) + if keep(x) then [x] else []
  {
    assert (xs + [x])[..|xs|] == xs;
  }

  lemma {:induction false} InsertPermutes<T>(sorted: seq<T>, x: T, key: T -> real)
    ensures multiset(Insert(sorted, x, key)) == multiset(sorted) + multiset{x}
  {
    if sorted != [] && key(sorted[|sorted| - 1]) > key(x) {
      var front, last := sorted[..|sorted| - 1], sorted[|sorted| - 1];
      InsertPermutes(front, x, key);
      assert sorted == front + [last];
    }
  }

  ghost predicate Below<T>(xs: seq<T>, bound: real, key: T -> real) {
    forall i | 0 <= i < |xs| :: key(xs[i]) <= bound
  }

  lemma AscendingSnoc<T>(xs: seq<T>, x: T, key: T -> real)
    ensures Ascending(xs + [x], key) <==> Ascending(xs, key) && Below(xs, key(x), key)
  {
    if Ascending(xs + [x], key) {
      assert forall i | 0 <= i < |xs| :: (xs + [x])[i] == xs[i];
      assert (xs + [x])[|xs|] == x;
    }
  }

  lemma {:induction false} InsertKeepsBelow<T>(sorted: seq<T>, x: T, bound: real, key: T -> real)
    requires Below(sorted, bound, key) && key(x) <= bound
    ensures Below(Insert(sorted, x, key), bound, key)
  {
    if sorted != [] && key(sorted[|sorted| - 1]) > key(x) {
      InsertKeepsBelow(sorted[..|sorted| - 1], x, bound, key);
    }
  }

  lemma {:induction false} InsertKeepsOrder<T>(sorted: seq<T>, x: T, key: T -> real)
    requires Ascending(sorted, key)
    ensures Ascending(Insert(sorted, x, key), key)
  {
    hide Ascending;
    if sorted == [] {
      assert Ascending([x], key) by { AscendingSnoc([], x, key); assert [] + [x] == [x]; EmptyAscends<T>(key); }
    } else {
      var front, last := sorted[..|sorted| - 1], sorted[|sorted| - 1];
      assert sorted == front + [last];
      AscendingSnoc(front, last, key);
      if key(last) <= key(x) {
        AscendingSnoc(sorted, x, key);
      } else {
        InsertKeepsOrder(front, x, key);
        InsertKeepsBelow(front, x, key(last), key);
        AscendingSnoc(Insert(front, x, key), last, key);
      }
    }
  }

  lemma EmptyAscends<T>(key: T -> real)
    ensures Ascending([], key)
  {
  }

  /** Items with the same key keep their order: the new one comes behind them. */
  lemma {:induction false} InsertIsStable<T>(sorted: seq<T>, x: T, key: T -> real, k: real)
    requires Ascending(sorted, key)
    ensures Select(Insert(sorted, x, key), (y: T) => key(y) == k)
         == Select(sorted, (y: T) => key(y) == k) + if key(x) == k then [x] else []
  {
    var same := (y: T) => key(y) == k;
    if sorted == [] {
      assert [x][..0] == [];
    } else if key(sorted[|sorted| - 1]) <= key(x) {
      SelectSnoc(sorted, x, same);
    } else {
      var front, last := sorted[..|sorted| - 1], sorted[|sorted| - 1];
      InsertIsStable(front, x, key, k);
      SelectSnoc(Insert(front, x, key), last, same);
      if key(x) == k {
        assert !same(last);
      }
    }
  }

  /** The result is ordered and a permutation of the input. */
  lemma {:induction false} SortMeaning<T>(xs: seq<T>, key: T -> real)
    ensures Ascending(SortBy(xs, key), key)
    ensures multiset(SortBy(xs, key)) == multiset(xs)
  {
    hide Ascending, Insert;
    if xs == [] {
      EmptyAscends<T>(key);
    } else {
      var front, last := xs[..|xs| - 1], xs[|xs| - 1];
      SortMeaning(front, key);
      InsertKeepsOrder(SortBy(front, key), last, key);
      InsertPermutes(SortBy(front, key), last, key);
      assert xs == front + [last];
    }
  }

  /** And it keeps the order of items with equal keys. */
  lemma {:induction false} SortIsStable<T>(xs: seq<T>, key: T -> real, k: real)
    ensures Select(SortBy(xs, key), (y: T) => key(y) == k) == Select(xs, (y: T) => key(y) == k)
  {
    if xs != [] {
      var front, last := xs[..|xs| - 1], xs[|xs| - 1];
      SortIsStable(front, key, k);
      SortMeaning(front, key);
      InsertIsStable(SortBy(front, key), last, key, k);
    }
  }

  ghost predicate Distinct<T>(xs: seq<T>) {
    forall i, j | 0 <= i < j < |xs| :: xs[i] != xs[j]
  }

  lemma {:induction false} DistinctIff<T>(xs: seq<T>)
    ensures Distinct(xs) <==> forall x | x in xs :: multiset(xs)[x] == 1
  {
    if xs != [] {
      var front, last := xs[..|xs| - 1], xs[|xs| - 1];
      assert xs == front + [last];
      DistinctIff(front);
      if Distinct(xs) {
        assert forall i, j | 0 <= i < j < |front| :: front[i] == xs[i] && front[j] == xs[j];
        assert last !in front;
      }
      if forall x | x in xs :: multiset(xs)[x] == 1 {
        assert last in xs && multiset(front)[last] == 0;
        forall x | x in front ensures multiset(front)[x] == 1 {
          assert x in xs && x != last;
        }
      }
    }
  }

  /** Sorting duplicates nothing. */
  lemma SortKeepsDistinct<T>(xs: seq<T>, key: T -> real)
    requires Distinct(xs)
    ensures Distinct(SortBy(xs, key))
    ensures forall x :: x in SortBy(xs, key) <==> x in xs
  {
    hide SortBy, Distinct;
    SortMeaning(xs, key);
    var ys := SortBy(xs, key);
    DistinctIff(xs);
    DistinctIff(ys);
    forall x ensures x in ys <==> x in xs {
      assert x in multiset(ys) <==> x in multiset(xs);
    }
  }
}
