/** `Array.prototype.sort` with a numeric comparator `(a, b) => key(b) - key(a)`.
    The sort is stable (ECMAScript 2019 onwards), and a stable sort by a comparator that is
    consistent is determined by its input, so a stable insertion sort describes it exactly.
    The source sorts arrays in place; here sorting returns a new sequence. An ascending sort
    `(a, b) => a.t - b.t` is the same comparator as the descending one on the key `-t`. */
module Sorting {

  /** Keys never increase from left to right. */
  predicate SortedDesc<T>(s: seq<T>, key: T -> real)
  {
    forall i, j :: 0 <= i < j < |s| ==> key(s[i]) >= key(s[j])
  }

  /** Puts `x` in front of the first element whose key is not larger than its own. */
  function Insert<T>(x: T, s: seq<T>, key: T -> real): (r: seq<T>)
    requires SortedDesc(s, key)
    ensures SortedDesc(r, key)
    ensures multiset(r) == multiset(s) + multiset{x}
    ensures |r| == |s| + 1
    ensures r[0] == x || (s != [] && r[0] == s[0])
  {
    if s == [] || key(s[0]) <= key(x) then [x] + s
    else
      assert s == [s[0]] + s[1..];
      [s[0]] + Insert(x, s[1..], key)
  }

  /** The stable descending sort by `key`: a sorted permutation of `s`. */
  function SortDesc<T>(s: seq<T>, key: T -> real): (r: seq<T>)
    ensures SortedDesc(r, key)
    ensures multiset(r) == multiset(s)
    ensures |r| == |s|
  {
    if s == [] then []
    else
      assert s == [s[0]] + s[1..];
      Insert(s[0], SortDesc(s[1..], key), key)
  }

  /** The elements of `s` whose key is `v`, in order. */
  function Tied<T>(s: seq<T>, key: T -> real, v: real): seq<T>
  {
    if s == [] then [] else (if key(s[0]) == v then [s[0]] else []) + Tied(s[1..], key, v)
  }

  /** Inserting `x` puts it ahead of every element that has the same key. */
  lemma {:induction false} TiedInsert<T>(x: T, s: seq<T>, key: T -> real, v: real)
    requires SortedDesc(s, key)
    ensures Tied(Insert(x, s, key), key, v) == (if key(x) == v then [x] else []) + Tied(s, key, v)
  {
    if s == [] || key(s[0]) <= key(x) {
      assert ([x] + s)[1..] == s;
    } else {
      var r := Insert(x, s, key);
      var rest := Insert(x, s[1..], key);
      assert r == [s[0]] + rest;
      assert r[1..] == rest;
      assert Tied(r, key, v) == (if key(s[0]) == v then [s[0]] else []) + Tied(rest, key, v);
      assert Tied(s, key, v) == (if key(s[0]) == v then [s[0]] else []) + Tied(s[1..], key, v);
      TiedInsert(x, s[1..], key, v);
      if key(x) == v {
        assert key(s[0]) != v;
      }
    }
  }

  /** Stability: elements with equal keys keep their input order. */
  lemma {:induction false} SortDescIsStable<T>(s: seq<T>, key: T -> real, v: real)
    ensures Tied(SortDesc(s, key), key, v) == Tied(s, key, v)
  {
    if s != [] {
      SortDescIsStable(s[1..], key, v);
      TiedInsert(s[0], SortDesc(s[1..], key), key, v);
    }
  }

  /** Sorting a sequence that is already in order leaves it unchanged. */
  lemma {:induction false} SortDescOfSorted<T>(s: seq<T>, key: T -> real)
    requires SortedDesc(s, key)
    ensures SortDesc(s, key) == s
  {
    if s != [] {
      SortDescOfSorted(s[1..], key);
      assert s == [s[0]] + s[1..];
    }
  }

  /** A prefix of a sorted sequence is sorted. */
  lemma TakeSorted<T>(s: seq<T>, key: T -> real, n: nat)
    requires SortedDesc(s, key) && n <= |s|
    ensures SortedDesc(s[..n], key)
  {
  }
}
