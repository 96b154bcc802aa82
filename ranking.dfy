/** Ranking by repeated selection of a maximum, over any relation `above`
    ("ranks at or above") that is total and transitive on the elements ranked.
    The analyzer ranks products by summed value and months by calendar order
    with it; `Best` is the first pick and `RankBy` the whole order. */
module Ranking {
  import opened Seqs

  predicate Total<T(==,!new)>(above: (T, T) -> bool, s: seq<T>) {
    forall x, y :: x in s && y in s ==> above(x, y) || above(y, x)
  }

  predicate Transitive<T(==,!new)>(above: (T, T) -> bool, s: seq<T>) {
    forall x, y, z :: x in s && y in s && z in s && above(x, y) && above(y, z) ==> above(x, z)
  }

  /** A total preorder on the elements of `s`. */
  predicate Preorder<T(==,!new)>(above: (T, T) -> bool, s: seq<T>) {
    Total(above, s) && Transitive(above, s)
  }

  /** A preorder on `s` is one on every sequence of elements drawn from `s`. */
  lemma PreorderOnSubset<T(!new)>(above: (T, T) -> bool, s: seq<T>, t: seq<T>)
    requires Preorder(above, s)
    requires forall x :: x in t ==> x in s
    ensures Preorder(above, t)
  {
  }

  /** The element of `s` that ranks above all others; the earliest such one. */
  function Best<T>(s: seq<T>, above: (T, T) -> bool): (b: T)
    requires |s| > 0
    ensures b in s
  {
    if |s| == 1 then s[0]
    else
      var b := Best(s[1..], above);
      if above(s[0], b) then s[0] else b
  }

  lemma {:induction false} BestAboveAll<T(!new)>(s: seq<T>, above: (T, T) -> bool)
    requires |s| > 0 && Preorder(above, s)
    ensures forall y :: y in s ==> above(Best(s, above), y)
  {
    if |s| > 1 {
      var b := Best(s[1..], above);
      PreorderOnSubset(above, s, s[1..]);
      BestAboveAll(s[1..], above);
      assert b in s;
      forall y | y in s ensures above(Best(s, above), y) {
        if y != s[0] {
          assert y in s[1..];
        }
      }
    } else {
      assert forall y :: y in s ==> y == s[0];
    }
  }

  /** The elements of `s` from the highest ranked down: the best, then the others ranked. */
  function RankBy<T(==)>(s: seq<T>, above: (T, T) -> bool): (r: seq<T>)
    ensures |r| == |s|
    decreases |s|
  {
    if s == [] then []
    else
      var b := Best(s, above);
      [b] + RankBy(Remove(s, b), above)
  }

  /** Ranking only reorders. */
  lemma {:induction false} RankByPermutation<T>(s: seq<T>, above: (T, T) -> bool)
    ensures multiset(RankBy(s, above)) == multiset(s)
    decreases |s|
  {
    if s != [] {
      var b := Best(s, above);
      RankByPermutation(Remove(s, b), above);
      assert RankBy(s, above) == [b] + RankBy(Remove(s, b), above);
    }
  }

  /** Every element of `r` ranks at or above every later one. */
  predicate Descending<T>(above: (T, T) -> bool, r: seq<T>) {
    forall i, j :: 0 <= i < j < |r| ==> above(r[i], r[j])
  }

  lemma DescendingCons<T(!new)>(above: (T, T) -> bool, b: T, rest: seq<T>)
    requires Descending(above, rest)
    requires forall y :: y in rest ==> above(b, y)
    ensures Descending(above, [b] + rest)
  {
    var r := [b] + rest;
    forall i, j | 0 <= i < j < |r| ensures above(r[i], r[j]) {
      assert r[j] == rest[j - 1];
      if i > 0 {
        assert r[i] == rest[i - 1];
      }
    }
  }

  /** The ranking is descending. */
  lemma {:induction false} RankByDescending<T(!new)>(s: seq<T>, above: (T, T) -> bool)
    requires Preorder(above, s)
    ensures Descending(above, RankBy(s, above))
    decreases |s|
  {
    if s != [] {
      var b := Best(s, above);
      var rest := RankBy(Remove(s, b), above);
      assert RankBy(s, above) == [b] + rest;
      RemoveSubset(s, b);
      PreorderOnSubset(above, s, Remove(s, b));
      RankByDescending(Remove(s, b), above);
      RankByPermutation(Remove(s, b), above);
      SameElements(rest, Remove(s, b));
      BestAboveAll(s, above);
      DescendingCons(above, b, rest);
    }
  }
}
