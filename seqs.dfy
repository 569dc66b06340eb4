/** Sequence helpers shared by the aggregation code: sums, first-seen de-duplication,
    concatenation and prefixes (`Array.prototype.reduce`, `new Set(...)` spread back into
    an array, `flat`, `slice(0, n)`). */
module Seqs {

  /** No element occurs twice. */
  predicate NoDuplicates<T(==)>(s: seq<T>)
  {
    forall i, j :: 0 <= i < j < |s| ==> s[i] != s[j]
  }

  /** Index of the first occurrence of `x` in `s`. */
  function FirstIndex<T(==)>(s: seq<T>, x: T): (k: nat)
    requires x in s
    ensures k < |s| && s[k] == x && x !in s[..k]
  {
    if s[0] == x then 0 else FirstIndex(s[1..], x) + 1
  }

  /** `[...new Set(s)]`: the distinct elements of `s`, each kept at its first occurrence. */
  function Distinct<T(==)>(s: seq<T>): (r: seq<T>)
    ensures NoDuplicates(r)
    ensures |r| <= |s|
  {
    if s == [] then []
    else
      var d := Distinct(s[..|s| - 1]);
      if s[|s| - 1] in d then d else d + [s[|s| - 1]]
  }

  /** `Distinct(s)` holds exactly the elements of `s`. */
  lemma {:induction false} DistinctElements<T>(s: seq<T>)
    ensures forall i :: 0 <= i < |Distinct(s)| ==> Distinct(s)[i] in s
    ensures forall i :: 0 <= i < |s| ==> s[i] in Distinct(s)
  {
    if s != [] {
      var init := s[..|s| - 1];
      DistinctElements(init);
      assert s == init + [s[|s| - 1]];
      forall i | 0 <= i < |s|
        ensures s[i] in Distinct(s)
      {
        if i < |init| {
          assert s[i] == init[i];
        }
      }
    }
  }

  /** Membership in `Distinct(s)` is membership in `s`. */
  lemma DistinctMembers<T>(s: seq<T>, x: T)
    ensures x in Distinct(s) <==> x in s
  {
    DistinctElements(s);
    if x in s {
      var i :| 0 <= i < |s| && s[i] == x;
    }
    if x in Distinct(s) {
      var i :| 0 <= i < |Distinct(s)| && Distinct(s)[i] == x;
    }
  }

  /** The elements of `Distinct(s)` appear in the order in which `s` first mentions them. */
  lemma {:induction false} DistinctKeepsFirstSeenOrder<T>(s: seq<T>, i: nat, j: nat)
    requires i < j < |Distinct(s)|
    ensures Distinct(s)[i] in s && Distinct(s)[j] in s
    ensures FirstIndex(s, Distinct(s)[i]) < FirstIndex(s, Distinct(s)[j])
  {
    DistinctElements(s);
    var init := s[..|s| - 1];
    var d := Distinct(init);
    var last := s[|s| - 1];
    assert s == init + [last];
    DistinctElements(init);
    if last in d || j < |d| {
      DistinctKeepsFirstSeenOrder(init, i, j);
      FirstIndexOfPrefix(init, [last], d[i]);
      FirstIndexOfPrefix(init, [last], d[j]);
    } else {
      FirstIndexOfPrefix(init, [last], d[i]);
      assert FirstIndex(init, d[i]) < |init|;
      assert last !in init;
      assert FirstIndex(s, last) == |init|;
    }
  }

  /** Looking up an element of `a` in `a + b` finds it in `a`. */
  lemma {:induction false} FirstIndexOfPrefix<T>(a: seq<T>, b: seq<T>, x: T)
    requires x in a
    ensures FirstIndex(a + b, x) == FirstIndex(a, x)
  {
    if a[0] != x {
      assert (a + b)[1..] == a[1..] + b;
      FirstIndexOfPrefix(a[1..], b, x);
    }
  }

  /** `s.reduce((sum, x) => sum + f(x), 0)`. */
  function SumOf<T>(s: seq<T>, f: T -> real): real
  {
    if s == [] then 0.0 else f(s[0]) + SumOf(s[1..], f)
  }

  /** Summing a concatenation sums its parts. */
  lemma {:induction false} SumOfConcat<T>(a: seq<T>, b: seq<T>, f: T -> real)
    ensures SumOf(a + b, f) == SumOf(a, f) + SumOf(b, f)
  {
    if a != [] {
      assert (a + b)[1..] == a[1..] + b;
      SumOfConcat(a[1..], b, f);
    } else {
      assert a + b == b;
    }
  }

  /** A running sum over a prefix grows by the next element. */
  lemma SumOfSnoc<T>(s: seq<T>, i: nat, f: T -> real)
    requires i < |s|
    ensures SumOf(s[..i + 1], f) == SumOf(s[..i], f) + f(s[i])
  {
    assert s[..i + 1] == s[..i] + [s[i]];
    SumOfConcat(s[..i], [s[i]], f);
  }

  /** Reordering does not change a sum. */
  lemma {:induction false} SumOfPermutation<T>(a: seq<T>, b: seq<T>, f: T -> real)
    requires multiset(a) == multiset(b)
    ensures SumOf(a, f) == SumOf(b, f)
  {
    if a != [] {
      assert a[0] in multiset(b);
      var k :| 0 <= k < |b| && b[k] == a[0];
      var rest := b[..k] + b[k + 1..];
      assert b == b[..k] + [b[k]] + b[k + 1..];
      assert a == [a[0]] + a[1..];
      assert multiset(b) == multiset(b[..k]) + multiset{b[k]} + multiset(b[k + 1..]);
      assert multiset(rest) == multiset(b[..k]) + multiset(b[k + 1..]);
      assert multiset(a) == multiset{a[0]} + multiset(a[1..]);
      assert multiset(a[1..]) == multiset(a) - multiset{a[0]};
      assert multiset(rest) == multiset(b) - multiset{b[k]};
      SumOfPermutation(a[1..], rest, f);
      SumOfConcat(b[..k] + [b[k]], b[k + 1..], f);
      SumOfConcat(b[..k], [b[k]], f);
      SumOfConcat(b[..k], b[k + 1..], f);
    }
  }

  /** `s.slice(0, n)`. */
  function Take<T>(s: seq<T>, n: nat): (r: seq<T>)
    ensures |r| <= n && |r| <= |s|
    ensures r == s[..|r|]
    ensures |s| <= n ==> r == s
  {
    if |s| <= n then s else s[..n]
  }

  /** The elements of `s` that satisfy `p`, in order (`s.filter(p)`). */
  function Filter<T>(s: seq<T>, p: T -> bool): (r: seq<T>)
    ensures |r| <= |s|
  {
    if s == [] then [] else (if p(s[0]) then [s[0]] else []) + Filter(s[1..], p)
  }

  /** The filter keeps exactly the elements that satisfy `p`. */
  lemma {:induction false} FilterMembers<T>(s: seq<T>, p: T -> bool, x: T)
    ensures x in Filter(s, p) <==> x in s && p(x)
  {
    if s != [] {
      FilterMembers(s[1..], p, x);
      assert s == [s[0]] + s[1..];
    }
  }

  /** Filtering a concatenation filters its parts. */
  lemma {:induction false} FilterConcat<T>(a: seq<T>, b: seq<T>, p: T -> bool)
    ensures Filter(a + b, p) == Filter(a, p) + Filter(b, p)
  {
    if a != [] {
      assert (a + b)[1..] == a[1..] + b;
      FilterConcat(a[1..], b, p);
    } else {
      assert a + b == b;
    }
  }

  /** `s.flatMap(f)`: the concatenation of `f` of each element, in order. */
  function FlatMap<T, U>(s: seq<T>, f: T -> seq<U>): seq<U>
  {
    if s == [] then [] else f(s[0]) + FlatMap(s[1..], f)
  }

  /** Mapping a concatenation maps its parts. */
  lemma {:induction false} FlatMapConcat<T, U>(a: seq<T>, b: seq<T>, f: T -> seq<U>)
    ensures FlatMap(a + b, f) == FlatMap(a, f) + FlatMap(b, f)
  {
    if a != [] {
      assert (a + b)[1..] == a[1..] + b;
      FlatMapConcat(a[1..], b, f);
    } else {
      assert a + b == b;
    }
  }

  /** Taking one part out of the middle. */
  lemma FlatMapRemove<T, U>(b: seq<T>, k: nat, f: T -> seq<U>)
    requires k < |b|
    ensures multiset(FlatMap(b, f)) == multiset(f(b[k])) + multiset(FlatMap(b[..k] + b[k + 1..], f))
  {
    var left, mid, right := b[..k], [b[k]], b[k + 1..];
    assert b == (left + mid) + right;
    FlatMapConcat(left + mid, right, f);
    FlatMapConcat(left, mid, f);
    FlatMapConcat(left, right, f);
    var x, y, z := FlatMap(left, f), FlatMap(mid, f), FlatMap(right, f);
    assert y == f(b[k]) by {
      assert mid[1..] == [];
    }
    assert FlatMap(b, f) == x + y + z;
    assert multiset(x + y + z) == multiset(y) + multiset(x + z);
  }

  /** Reordering the parts keeps the elements of the concatenation. */
  lemma {:induction false} FlatMapPermutation<T, U>(a: seq<T>, b: seq<T>, f: T -> seq<U>)
    requires multiset(a) == multiset(b)
    ensures multiset(FlatMap(a, f)) == multiset(FlatMap(b, f))
  {
    if a != [] {
      assert a[0] in multiset(b);
      var k :| 0 <= k < |b| && b[k] == a[0];
      var rest := b[..k] + b[k + 1..];
      assert b == b[..k] + [b[k]] + b[k + 1..];
      assert a == [a[0]] + a[1..];
      assert multiset(rest) == multiset(b) - multiset{b[k]};
      FlatMapPermutation(a[1..], rest, f);
      FlatMapRemove(b, k, f);
    }
  }
}
