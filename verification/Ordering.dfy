/** Stable sorting by a pair of integers, the only kind of key the evaluator sorts by. */
module Ordering {

  type Key = (int, int)

  predicate Leq(a: Key, b: Key) {
    a.0 < b.0 || (a.0 == b.0 && a.1 <= b.1)
  }

  ghost predicate SortedBy<T(!new)>(xs: seq<T>, key: T -> Key) {
    forall i, j | 0 <= i < j < |xs| :: Leq(key(xs[i]), key(xs[j]))
  }

  /** The place of a new last element: after everything that is not greater. */
  function Position<T(!new)>(x: T, xs: seq<T>, key: T -> Key): (k: nat)
    ensures k <= |xs|
    ensures k < |xs| ==> !Leq(key(xs[k]), key(x))
    ensures forall i | 0 <= i < k :: Leq(key(xs[i]), key(x))
  {
    if xs == [] || !Leq(key(xs[0]), key(x)) then 0
    else 1 + Position(x, xs[1..], key)
  }

  function Insert<T(!new)>(x: T, xs: seq<T>, key: T -> Key): (r: seq<T>)
    ensures |r| == |xs| + 1
  {
    var k := Position(x, xs, key);
    xs[..k] + [x] + xs[k..]
  }

  lemma InsertKeepsOrder<T(!new)>(x: T, xs: seq<T>, key: T -> Key)
    requires SortedBy(xs, key)
    ensures SortedBy(Insert(x, xs, key), key)
  {
    var k, r := Position(x, xs, key), Insert(x, xs, key);
    forall i, j | 0 <= i < j < |r|
      ensures Leq(key(r[i]), key(r[j]))
    {
      assert r[i] == if i < k then xs[i] else if i == k then x else xs[i - 1];
      assert r[j] == if j < k then xs[j] else if j == k then x else xs[j - 1];
      if i == k {
        assert Leq(key(xs[k]), key(xs[j - 1])) by {
          if k < j - 1 {}
        }
      }
    }
  }

  lemma InsertKeepsCounts<T(!new)>(x: T, xs: seq<T>, key: T -> Key)
    ensures multiset(Insert(x, xs, key)) == multiset(xs) + multiset{x}
  {
    var k := Position(x, xs, key);
    assert xs == xs[..k] + xs[k..];
  }

  /** Python's sorted(xs, key=...): an ordered rearrangement of xs. */
  function Sort<T(!new)>(xs: seq<T>, key: T -> Key): (r: seq<T>)
    ensures |r| == |xs|
  {
    if xs == [] then [] else Insert(xs[|xs| - 1], Sort(xs[..|xs| - 1], key), key)
  }

  lemma {:induction false} SortOrders<T(!new)>(xs: seq<T>, key: T -> Key)
    ensures SortedBy(Sort(xs, key), key)
  {
    if xs != [] {
      SortOrders(xs[..|xs| - 1], key);
      InsertKeepsOrder(xs[|xs| - 1], Sort(xs[..|xs| - 1], key), key);
    }
  }

  lemma {:induction false} SortKeepsCounts<T(!new)>(xs: seq<T>, key: T -> Key)
    ensures multiset(Sort(xs, key)) == multiset(xs)
  {
    if xs != [] {
      var n := |xs| - 1;
      SortKeepsCounts(xs[..n], key);
      InsertKeepsCounts(xs[n], Sort(xs[..n], key), key);
      assert xs == xs[..n] + [xs[n]];
    }
  }

  ghost predicate Distinct<T(!new)>(xs: seq<T>) {
    forall i, j | 0 <= i < j < |xs| :: xs[i] != xs[j]
  }

  lemma {:induction false} DistinctCounts<T(!new)>(xs: seq<T>, x: T)
    requires Distinct(xs)
    ensures multiset(xs)[x] <= 1
  {
    if xs != [] {
      var n := |xs| - 1;
      DistinctCounts(xs[..n], x);
      assert xs == xs[..n] + [xs[n]];
      assert x in multiset(xs[..n]) <==> x in xs[..n];
    }
  }

  /** A rearrangement neither repeats nor drops an element. */
  lemma SameElements<T(!new)>(xs: seq<T>, r: seq<T>)
    requires multiset(r) == multiset(xs)
    ensures forall x :: x in r <==> x in xs
    ensures Distinct(xs) ==> Distinct(r)
  {
    forall x
      ensures x in r <==> x in xs
    {
      assert x in r <==> x in multiset(r);
      assert x in xs <==> x in multiset(xs);
    }
    if Distinct(xs) {
      forall i, j | 0 <= i < j < |r|
        ensures r[i] != r[j]
      {
        if r[i] == r[j] {
          assert r == r[..j] + r[j..];
          assert r[i] in r[..j] && r[i] in r[j..];
          assert multiset(r)[r[i]] >= 2;
          DistinctCounts(xs, r[i]);
          assert false;
        }
      }
    }
  }

  lemma SortKeepsElements<T(!new)>(xs: seq<T>, key: T -> Key)
    ensures forall x :: x in Sort(xs, key) <==> x in xs
    ensures Distinct(xs) ==> Distinct(Sort(xs, key))
  {
    SortKeepsCounts(xs, key);
    SameElements(xs, Sort(xs, key));
  }
}
