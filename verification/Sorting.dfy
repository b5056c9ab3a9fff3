/** A stable sort by an integer key, and what its callers rely on. */
module Sorting {

  /** Places x behind everything that does not come after it. */
  function Insert<T>(xs: seq<T>, x: T, key: T -> int): (r: seq<T>) {
    if xs == [] || key(xs[|xs| - 1]) <= key(x) then xs + [x]
    else Insert(xs[..|xs| - 1], x, key) + [xs[|xs| - 1]]
  }

  function SortBy<T>(xs: seq<T>, key: T -> int): (r: seq<T>) {
    if xs == [] then [] else Insert(SortBy(xs[..|xs| - 1], key), xs[|xs| - 1], key)
  }

  ghost predicate Sorted<T>(xs: seq<T>, key: T -> int) {
    forall i, j :: 0 <= i < j < |xs| ==> key(xs[i]) <= key(xs[j])
  }

  /** The elements with one key, in their order. */
  function Having<T>(xs: seq<T>, key: T -> int, k: int): (r: seq<T>) {
    if xs == [] then []
    else Having(xs[..|xs| - 1], key, k) + if key(xs[|xs| - 1]) == k then [xs[|xs| - 1]] else []
  }

  lemma {:induction false} InsertMembers<T>(xs: seq<T>, x: T, key: T -> int)
    ensures multiset(Insert(xs, x, key)) == multiset(xs) + multiset{x}
  {
    if xs != [] && key(xs[|xs| - 1]) > key(x) {
      InsertMembers(xs[..|xs| - 1], x, key);
      assert xs == xs[..|xs| - 1] + [xs[|xs| - 1]];
    }
  }

  lemma SortedSnoc<T>(xs: seq<T>, x: T, key: T -> int)
    requires Sorted(xs, key) && forall y :: y in xs ==> key(y) <= key(x)
    ensures Sorted(xs + [x], key)
  {
  }

  lemma SortedFront<T>(xs: seq<T>, key: T -> int, y: T)
    requires Sorted(xs, key) && xs != [] && y in xs
    ensures key(y) <= key(xs[|xs| - 1])
  {
    var i :| 0 <= i < |xs| && xs[i] == y;
  }

  lemma {:induction false} InsertSorts<T>(xs: seq<T>, x: T, key: T -> int)
    requires Sorted(xs, key)
    ensures Sorted(Insert(xs, x, key), key)
  {
    if xs == [] || key(xs[|xs| - 1]) <= key(x) {
      forall y | y in xs ensures key(y) <= key(x) { SortedFront(xs, key, y); }
      SortedSnoc(xs, x, key);
    } else {
      var front, last := xs[..|xs| - 1], xs[|xs| - 1];
      InsertSorts(front, x, key);
      InsertMembers(front, x, key);
      forall y | y in Insert(front, x, key) ensures key(y) <= key(last) {
        assert y in multiset(Insert(front, x, key));
        if y in front { SortedFront(xs, key, y); }
      }
      SortedSnoc(Insert(front, x, key), last, key);
    }
  }

  /** The result is ordered and is a rearrangement of the input. */
  lemma {:induction false} SortBySorts<T>(xs: seq<T>, key: T -> int)
    ensures Sorted(SortBy(xs, key), key)
    ensures multiset(SortBy(xs, key)) == multiset(xs)
  {
    if xs != [] {
      var front, last := xs[..|xs| - 1], xs[|xs| - 1];
      assert xs == front + [last];
      SortBySorts(front, key);
      InsertSorts(SortBy(front, key), last, key);
      InsertMembers(SortBy(front, key), last, key);
    }
  }

  lemma SortByHas<T>(xs: seq<T>, key: T -> int, y: T)
    ensures y in SortBy(xs, key) <==> y in xs
  {
    SortBySorts(xs, key);
    assert y in SortBy(xs, key) <==> y in multiset(SortBy(xs, key));
  }

  lemma HavingSnoc<T>(xs: seq<T>, x: T, key: T -> int, k: int)
    ensures Having(xs + [x], key, k) == Having(xs, key, k) + if key(x) == k then [x] else []
  {
    assert (xs + [x])[..|xs|] == xs;
  }

  lemma {:induction false} InsertStable<T>(xs: seq<T>, x: T, key: T -> int, k: int)
    requires Sorted(xs, key)
    ensures Having(Insert(xs, x, key), key, k) == Having(xs, key, k) + if key(x) == k then [x] else []
  {
    if xs == [] || key(xs[|xs| - 1]) <= key(x) {
      HavingSnoc(xs, x, key, k);
    } else {
      var front, last := xs[..|xs| - 1], xs[|xs| - 1];
      InsertStable(front, x, key, k);
      HavingSnoc(Insert(front, x, key), last, key, k);
      if key(x) == k && key(last) == k { assert false; }
    }
  }

  /** Elements with equal keys keep their order. */
  lemma {:induction false} SortByStable<T>(xs: seq<T>, key: T -> int, k: int)
    ensures Having(SortBy(xs, key), key, k) == Having(xs, key, k)
  {
    if xs != [] {
      SortBySorts(xs[..|xs| - 1], key);
      SortByStable(xs[..|xs| - 1], key, k);
      InsertStable(SortBy(xs[..|xs| - 1], key), xs[|xs| - 1], key, k);
    }
  }
}
