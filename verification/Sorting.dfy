/** The stable sort by an integer key that Python's `sorted` performs. */
module Sorting {
  predicate Sorted<T>(xs: seq<T>, key: T -> int) {
    forall i, j :: 0 <= i < j < |xs| ==> key(xs[i]) <= key(xs[j])
  }

  predicate StrictlySorted<T>(xs: seq<T>, key: T -> int) {
    forall i, j :: 0 <= i < j < |xs| ==> key(xs[i]) < key(xs[j])
  }

  function SortBy<T>(xs: seq<T>, key: T -> int): seq<T>
    decreases |xs|
  {
    if xs == [] then [] else Insert(SortBy(xs[..|xs| - 1], key), xs[|xs| - 1], key)
  }

  // Before the first element with a greater key.
  function Insert<T>(xs: seq<T>, x: T, key: T -> int): seq<T> {
    if xs == [] || key(x) < key(xs[0]) then [x] + xs else [xs[0]] + Insert(xs[1..], x, key)
  }

  lemma {:induction false} InsertPermutes<T>(xs: seq<T>, x: T, key: T -> int)
    ensures multiset(Insert(xs, x, key)) == multiset(xs) + multiset{x}
  {
    if xs != [] && key(x) >= key(xs[0]) {
      InsertPermutes(xs[1..], x, key);
      assert xs == [xs[0]] + xs[1..];
    }
  }

  lemma {:induction false} InsertSorts<T>(xs: seq<T>, x: T, key: T -> int)
    requires Sorted(xs, key)
    ensures Sorted(Insert(xs, x, key), key)
    ensures Insert(xs, x, key)[0] == if xs == [] || key(x) < key(xs[0]) then x else xs[0]
  {
    if xs != [] && key(x) >= key(xs[0]) {
      var rest := Insert(xs[1..], x, key);
      InsertSorts(xs[1..], x, key);
      assert key(xs[0]) <= key(rest[0]);
    }
  }

  lemma {:induction false} SortSorts<T>(xs: seq<T>, key: T -> int)
    ensures Sorted(SortBy(xs, key), key) && multiset(SortBy(xs, key)) == multiset(xs)
    decreases |xs|
  {
    if xs != [] {
      var before, last := xs[..|xs| - 1], xs[|xs| - 1];
      SortSorts(before, key);
      InsertSorts(SortBy(before, key), last, key);
      InsertPermutes(SortBy(before, key), last, key);
      assert xs == before + [last];
    }
  }

  lemma {:induction false} InMultiset<T>(x: T, ys: seq<T>) returns (j: nat)
    requires x in multiset(ys)
    ensures j < |ys| && ys[j] == x
  {
    j :| 0 <= j < |ys| && ys[j] == x;
  }

  lemma {:induction false} LastAgrees<T>(xs: seq<T>, ys: seq<T>, key: T -> int)
    requires Sorted(xs, key) && StrictlySorted(ys, key) && multiset(xs) == multiset(ys) && ys != [] && xs != []
    ensures xs[|xs| - 1] == ys[|ys| - 1]
  {
    var x, y := xs[|xs| - 1], ys[|ys| - 1];
    assert x in multiset(xs) && y in multiset(ys);
    var i := InMultiset(y, xs);
    var j := InMultiset(x, ys);
    assert key(y) <= key(x);
  }

  lemma {:induction false} DropLast<T>(xs: seq<T>)
    requires xs != []
    ensures xs == xs[..|xs| - 1] + [xs[|xs| - 1]]
    ensures multiset(xs[..|xs| - 1]) == multiset(xs) - multiset{xs[|xs| - 1]}
  {
    assert xs == xs[..|xs| - 1] + [xs[|xs| - 1]];
  }

  lemma {:induction false} SameSize<T>(xs: seq<T>, ys: seq<T>)
    requires multiset(xs) == multiset(ys)
    ensures |xs| == |ys|
  {
    assert |xs| == |multiset(xs)| == |multiset(ys)| == |ys|;
  }

  // Elements with distinct keys have one sorted order.
  lemma {:induction false} SortedIsUnique<T>(xs: seq<T>, ys: seq<T>, key: T -> int)
    requires Sorted(xs, key) && StrictlySorted(ys, key) && multiset(xs) == multiset(ys)
    ensures xs == ys
    decreases |ys|
  {
    SameSize(xs, ys);
    if ys != [] {
      var xs', ys' := xs[..|xs| - 1], ys[..|ys| - 1];
      assert multiset(xs') == multiset(ys') by {
        LastAgrees(xs, ys, key);
        DropLast(xs);
        DropLast(ys);
      }
      SortedIsUnique(xs', ys', key);
      LastAgrees(xs, ys, key);
      DropLast(xs);
      DropLast(ys);
    }
  }

  // The elements with this key, in their order.
  function OfKey<T>(xs: seq<T>, key: T -> int, k: int): seq<T>
    decreases |xs|
  {
    if xs == [] then []
    else OfKey(xs[..|xs| - 1], key, k) + if key(xs[|xs| - 1]) == k then [xs[|xs| - 1]] else []
  }

  lemma {:induction false} OfKeyAppend<T>(xs: seq<T>, ys: seq<T>, key: T -> int, k: int)
    ensures OfKey(xs + ys, key, k) == OfKey(xs, key, k) + OfKey(ys, key, k)
    decreases |ys|
  {
    if ys == [] {
      assert xs + ys == xs;
    } else {
      var before := ys[..|ys| - 1];
      assert (xs + ys)[..|xs + ys| - 1] == xs + before;
      OfKeyAppend(xs, before, key, k);
    }
  }

  lemma {:induction false} NoneOfKey<T>(xs: seq<T>, key: T -> int, k: int)
    requires forall i :: 0 <= i < |xs| ==> key(xs[i]) != k
    ensures OfKey(xs, key, k) == []
    decreases |xs|
  {
    if xs != [] {
      NoneOfKey(xs[..|xs| - 1], key, k);
    }
  }

  lemma {:induction false} InsertIsStable<T>(xs: seq<T>, x: T, key: T -> int, k: int)
    requires Sorted(xs, key)
    ensures OfKey(Insert(xs, x, key), key, k) == OfKey(xs + [x], key, k)
  {
    OfKeyAppend(xs, [x], key, k);
    if xs == [] {
      assert [x] + xs == [x] && xs + [x] == [x];
    } else if key(x) < key(xs[0]) {
      OfKeyAppend([x], xs, key, k);
      if key(x) == k {
        NoneOfKey(xs, key, k);
      }
    } else {
      InsertIsStable(xs[1..], x, key, k);
      OfKeyAppend([xs[0]], Insert(xs[1..], x, key), key, k);
      assert xs + [x] == [xs[0]] + (xs[1..] + [x]);
      OfKeyAppend([xs[0]], xs[1..] + [x], key, k);
    }
  }

  /** Elements with the same key keep their order. */
  lemma {:induction false} SortIsStable<T>(xs: seq<T>, key: T -> int, k: int)
    ensures OfKey(SortBy(xs, key), key, k) == OfKey(xs, key, k)
    decreases |xs|
  {
    if xs != [] {
      var before, last := xs[..|xs| - 1], xs[|xs| - 1];
      SortIsStable(before, key, k);
      SortSorts(before, key);
      InsertIsStable(SortBy(before, key), last, key, k);
      OfKeyAppend(SortBy(before, key), [last], key, k);
      OfKeyAppend(before, [last], key, k);
      assert xs == before + [last];
    }
  }
}
