/** Stable sorting by an integer key, and why a list with distinct keys has one sorted order. */
module Sorting {

  predicate Ascending<T>(xs: seq<T>, key: T -> int) {
    forall i {:trigger xs[i]} :: 0 < i < |xs| ==> key(xs[i - 1]) < key(xs[i])
  }

  predicate Weak<T>(xs: seq<T>, key: T -> int) {
    forall i {:trigger xs[i]} :: 0 < i < |xs| ==> key(xs[i - 1]) <= key(xs[i])
  }

  function Insert<T>(x: T, xs: seq<T>, key: T -> int): seq<T> {
    if |xs| == 0 || key(x) < key(xs[0]) then [x] + xs else [xs[0]] + Insert(x, xs[1..], key)
  }

  function Sorted<T>(xs: seq<T>, key: T -> int): seq<T> {
    if |xs| == 0 then [] else Insert(xs[|xs| - 1], Sorted(xs[..|xs| - 1], key), key)
  }

  lemma {:induction false} InsertContents<T>(x: T, xs: seq<T>, key: T -> int)
    ensures multiset(Insert(x, xs, key)) == multiset(xs) + multiset{x}
  {
    if |xs| > 0 && key(x) >= key(xs[0]) {
      InsertContents(x, xs[1..], key);
      assert xs == [xs[0]] + xs[1..];
    }
  }

  lemma {:induction false} InsertOrder<T>(x: T, xs: seq<T>, key: T -> int)
    requires Weak(xs, key)
    ensures Weak(Insert(x, xs, key), key)
    ensures |Insert(x, xs, key)| > 0 && Insert(x, xs, key)[0] == if |xs| == 0 || key(x) < key(xs[0]) then x else xs[0]
  {
    if |xs| > 0 && key(x) >= key(xs[0]) {
      assert forall i {:trigger xs[1..][i]} :: 0 < i < |xs[1..]| ==> xs[1..][i - 1] == xs[i] && xs[1..][i] == xs[i + 1];
      assert |xs| > 1 ==> key(xs[0]) <= key(xs[1]);
      InsertOrder(x, xs[1..], key);
    }
  }

  lemma {:induction false} SortedContents<T>(xs: seq<T>, key: T -> int)
    ensures multiset(Sorted(xs, key)) == multiset(xs)
  {
    if |xs| > 0 {
      var n := |xs| - 1;
      SortedContents(xs[..n], key);
      InsertContents(xs[n], Sorted(xs[..n], key), key);
      assert xs == xs[..n] + [xs[n]];
    }
  }

  lemma {:induction false} SortedOrder<T>(xs: seq<T>, key: T -> int)
    ensures Weak(Sorted(xs, key), key)
  {
    if |xs| > 0 {
      SortedOrder(xs[..|xs| - 1], key);
      InsertOrder(xs[|xs| - 1], Sorted(xs[..|xs| - 1], key), key);
    }
  }

  lemma {:induction false} AscendingAll<T>(xs: seq<T>, key: T -> int, i: nat, j: nat)
    requires Ascending(xs, key) && i < j < |xs|
    ensures key(xs[i]) < key(xs[j])
    decreases j
  {
    assert key(xs[j - 1]) < key(xs[j]);
    if i < j - 1 { AscendingAll(xs, key, i, j - 1); }
  }

  lemma Tail<T>(xs: seq<T>, key: T -> int)
    requires Ascending(xs, key) && |xs| > 0
    ensures Ascending(xs[1..], key)
  {
    forall i {:trigger xs[1..][i]} | 0 < i < |xs[1..]| ensures key(xs[1..][i - 1]) < key(xs[1..][i]) {
      assert key(xs[i + 1 - 1]) < key(xs[i + 1]);
    }
  }

  lemma SameHead<T>(a: seq<T>, b: seq<T>, key: T -> int)
    requires Ascending(a, key) && Ascending(b, key) && multiset(a) == multiset(b) && |a| > 0 && |b| > 0
    ensures a[0] == b[0]
  {
    assert a[0] in multiset(b) && b[0] in multiset(a);
    var i :| 0 <= i < |b| && b[i] == a[0];
    var j :| 0 <= j < |a| && a[j] == b[0];
    if i > 0 { AscendingAll(b, key, 0, i); }
    if j > 0 { AscendingAll(a, key, 0, j); }
  }

  lemma RestContents<T>(a: seq<T>)
    requires |a| > 0
    ensures multiset(a[1..]) == multiset(a) - multiset{a[0]}
  {
    assert a == [a[0]] + a[1..];
  }

  lemma SameLength<T>(a: seq<T>, b: seq<T>)
    requires multiset(a) == multiset(b)
    ensures |a| == |b|
  {
    assert |multiset(a)| == |a| && |multiset(b)| == |b|;
  }

  lemma RestSame<T>(a: seq<T>, b: seq<T>)
    requires |a| > 0 && |b| > 0 && a[0] == b[0] && multiset(a) == multiset(b)
    ensures multiset(a[1..]) == multiset(b[1..])
  {
    RestContents(a);
    RestContents(b);
  }

  /** The same elements have one ascending order. */
  lemma {:induction false} OneOrder<T>(a: seq<T>, b: seq<T>, key: T -> int)
    requires Ascending(a, key) && Ascending(b, key) && multiset(a) == multiset(b)
    ensures a == b
  {
    hide Ascending;
    SameLength(a, b);
    if |a| > 0 {
      SameHead(a, b, key);
      RestSame(a, b);
      Tail(a, key);
      Tail(b, key);
      OneOrder(a[1..], b[1..], key);
      assert a == [a[0]] + a[1..] && b == [b[0]] + b[1..];
    }
  }

  lemma OnceInside<T>(a: seq<T>, key: T -> int, p: nat)
    requires Ascending(a, key) && p < |a|
    ensures multiset(a)[a[p]] == 1
  {
    assert a == a[..p] + [a[p]] + a[p + 1..];
    forall k | 0 <= k < |a| && k != p ensures a[k] != a[p] {
      if k < p { AscendingAll(a, key, k, p); } else { AscendingAll(a, key, p, k); }
    }
    assert a[p] !in a[..p] && a[p] !in a[p + 1..];
  }

  lemma CountsTwice<T>(b: seq<T>, i: nat)
    requires 0 < i < |b|
    ensures b[i - 1] == b[i] ==> multiset(b)[b[i]] >= 2
  {
    assert b == b[..i - 1] + [b[i - 1], b[i]] + b[i + 1..];
    assert multiset(b) == multiset(b[..i - 1]) + multiset{b[i - 1], b[i]} + multiset(b[i + 1..]);
  }

  /** An ascending list holds at most one element of each key, and so does any reordering of it. */
  lemma KeysDiffer<T>(a: seq<T>, b: seq<T>, key: T -> int, i: nat)
    requires Ascending(a, key) && multiset(a) == multiset(b) && 0 < i < |b|
    ensures key(b[i - 1]) != key(b[i])
  {
    assert b[i - 1] in multiset(b) && b[i] in multiset(b);
    var p :| 0 <= p < |a| && a[p] == b[i - 1];
    var q :| 0 <= q < |a| && a[q] == b[i];
    OnceInside(a, key, p);
    CountsTwice(b, i);
    if p < q {
      AscendingAll(a, key, p, q);
    } else if q < p {
      AscendingAll(a, key, q, p);
    }
  }

  /** Two lists of the same elements sort alike as soon as one of them sorts strictly. */
  lemma SortsAlike<T>(a: seq<T>, b: seq<T>, key: T -> int)
    requires multiset(a) == multiset(b) && Ascending(Sorted(a, key), key)
    ensures Sorted(b, key) == Sorted(a, key)
  {
    SortedContents(a, key);
    SortedContents(b, key);
    SortedOrder(b, key);
    var x, y := Sorted(a, key), Sorted(b, key);
    forall i {:trigger y[i]} | 0 < i < |y| ensures key(y[i - 1]) < key(y[i]) {
      KeysDiffer(x, y, key, i);
      assert key(y[i - 1]) <= key(y[i]);
    }
    OneOrder(x, y, key);
  }

  /** What is already in order is left alone. */
  lemma SortedFixed<T>(a: seq<T>, key: T -> int)
    requires Ascending(a, key)
    ensures Sorted(a, key) == a
  {
    SortedContents(a, key);
    SortedOrder(a, key);
    var y := Sorted(a, key);
    forall i {:trigger y[i]} | 0 < i < |y| ensures key(y[i - 1]) < key(y[i]) {
      KeysDiffer(a, y, key, i);
      assert key(y[i - 1]) <= key(y[i]);
    }
    OneOrder(a, y, key);
  }
}
