/** The distinct elements of a sequence, each where it first occurs: the order of dictionaries and of id lists. */
module Firsts {
  function Distinct<T(==)>(s: seq<T>): seq<T> {
    if s == [] then []
    else
      var front := Distinct(s[..|s| - 1]);
      var x := s[|s| - 1];
      if x in front then front else front + [x]
  }

  /** `x` occurs at `k` and not before. */
  ghost predicate FirstAt<T>(s: seq<T>, x: T, k: nat) {
    k < |s| && s[k] == x && forall j | 0 <= j < k :: s[j] != x
  }

  ghost predicate Earlier<T>(s: seq<T>, x: T, y: T) {
    exists k: nat, l: nat :: k < l && FirstAt(s, x, k) && FirstAt(s, y, l)
  }

  lemma EarlierLonger<T>(s: seq<T>, x: T, y: T)
    requires s != [] && Earlier(s[..|s| - 1], x, y)
    ensures Earlier(s, x, y)
  {
    var k: nat, l: nat :| k < l && FirstAt(s[..|s| - 1], x, k) && FirstAt(s[..|s| - 1], y, l);
    assert FirstAt(s, x, k) && FirstAt(s, y, l);
  }

  lemma {:induction false} FirstOccurs<T>(s: seq<T>, x: T)
    requires x in s
    ensures exists k: nat :: FirstAt(s, x, k)
  {
    var n := |s| - 1;
    if x in s[..n] {
      FirstOccurs(s[..n], x);
      var k: nat :| FirstAt(s[..n], x, k);
      assert FirstAt(s, x, k);
    } else {
      assert FirstAt(s, x, n) by { assert forall j | 0 <= j < n :: s[j] == s[..n][j]; }
    }
  }

  lemma {:induction false} DistinctHas<T>(s: seq<T>, x: T)
    ensures x in Distinct(s) <==> x in s
  {
    if s != [] {
      var n := |s| - 1;
      assert s == s[..n] + [s[n]];
      DistinctHas(s[..n], x);
    }
  }

  lemma {:induction false} DistinctInOrder<T>(s: seq<T>, i: nat, j: nat)
    requires i < j < |Distinct(s)|
    ensures Earlier(s, Distinct(s)[i], Distinct(s)[j])
  {
    var n := |s| - 1;
    var front := Distinct(s[..n]);
    var y := front[i];
    if j < |front| {
      DistinctInOrder(s[..n], i, j);
      EarlierLonger(s, y, front[j]);
    } else {
      DistinctHas(s[..n], y);
      DistinctHas(s[..n], s[n]);
      FirstOccurs(s[..n], y);
      var k: nat :| FirstAt(s[..n], y, k);
      assert FirstAt(s, y, k);
      assert FirstAt(s, s[n], n) by { assert forall j | 0 <= j < n :: s[j] == s[..n][j]; }
    }
  }

  /** Exactly the elements that occur, none twice, in the order in which they first do. */
  lemma DistinctAre<T>(s: seq<T>)
    ensures forall x :: x in Distinct(s) <==> x in s
    ensures forall i, j | 0 <= i < j < |Distinct(s)| :: Earlier(s, Distinct(s)[i], Distinct(s)[j])
  {
    forall x ensures x in Distinct(s) <==> x in s {
      DistinctHas(s, x);
    }
    forall i, j | 0 <= i < j < |Distinct(s)| ensures Earlier(s, Distinct(s)[i], Distinct(s)[j]) {
      DistinctInOrder(s, i, j);
    }
  }

  lemma DistinctSnoc<T>(s: seq<T>, x: T)
    ensures Distinct(s + [x]) == if x in Distinct(s) then Distinct(s) else Distinct(s) + [x]
  {
    assert (s + [x])[..|s|] == s;
  }
}
