/** `calculateSimilarity` (the same code in src/utils/grouping.ts and src/utils/arbitrage.ts):
    the Jaccard index of two term lists taken as sets. */
module Similarity {
  import opened Seqs

  /** `new Set(terms)`. */
  function TermSet(terms: seq<string>): set<string>
  {
    set t | t in terms
  }

  /** The specification: 0 when either list is empty, otherwise the number of shared
      distinct terms over the number of distinct terms in either list. */
  function Jaccard(terms1: seq<string>, terms2: seq<string>): real
  {
    if |terms1| == 0 || |terms2| == 0 then 0.0
    else
      var union := TermSet(terms1) + TermSet(terms2);
      assert terms1[0] in union;
      (|TermSet(terms1) * TermSet(terms2)| as real) / (|union| as real)
  }

  /** `calculateSimilarity`: counts the terms of the first set that the second set has,
      visiting the first set in insertion order, and divides by the size of the union. */
  method CalculateSimilarity(terms1: seq<string>, terms2: seq<string>) returns (r: real)
    ensures r == Jaccard(terms1, terms2)
  {
    if |terms1| == 0 || |terms2| == 0 {
      return 0.0;
    }
    var set2 := TermSet(terms2);
    var order := Distinct(terms1);
    var matches := 0;
    for k := 0 to |order|
      invariant matches == |TermSet(order[..k]) * set2|
    {
      CountAt(order, k, set2);
      if order[k] in set2 {
        matches := matches + 1;
      }
    }
    JaccardByCount(terms1, terms2);
    r := matches as real / |TermSet(terms1) + set2| as real;
  }

  /** De-duplicating a list keeps its set of terms. */
  lemma DistinctTermSet(terms: seq<string>)
    ensures TermSet(Distinct(terms)) == TermSet(terms)
  {
    DistinctElements(terms);
  }

  /** Counting over the whole de-duplicated first list gives the numerator of the index. */
  lemma JaccardByCount(terms1: seq<string>, terms2: seq<string>)
    requires |terms1| > 0 && |terms2| > 0
    ensures |TermSet(terms1) + TermSet(terms2)| > 0
    ensures Jaccard(terms1, terms2)
      == |TermSet(Distinct(terms1)[..|Distinct(terms1)|]) * TermSet(terms2)| as real
         / |TermSet(terms1) + TermSet(terms2)| as real
  {
    var order := Distinct(terms1);
    assert order[..|order|] == order;
    DistinctTermSet(terms1);
    assert terms1[0] in TermSet(terms1) + TermSet(terms2);
  }

  /** The count of shared terms over a prefix of a duplicate-free list grows by one exactly
      when the next term is shared. */
  lemma CountAt(order: seq<string>, k: nat, other: set<string>)
    requires k < |order| && NoDuplicates(order)
    ensures |TermSet(order[..k + 1]) * other|
      == |TermSet(order[..k]) * other| + (if order[k] in other then 1 else 0)
  {
    TermSetSnoc(order, k);
    CountStep(TermSet(order[..k]), order[k], other);
  }

  /** One more distinct term in a prefix of a duplicate-free list. */
  lemma TermSetSnoc(order: seq<string>, k: nat)
    requires k < |order| && NoDuplicates(order)
    ensures TermSet(order[..k + 1]) == TermSet(order[..k]) + {order[k]}
    ensures order[k] !in TermSet(order[..k])
  {
    assert order[..k + 1] == order[..k] + [order[k]];
  }

  /** Adding a new term raises the count of shared terms by one exactly when it is shared. */
  lemma CountStep(seen: set<string>, t: string, other: set<string>)
    requires t !in seen
    ensures |(seen + {t}) * other| == |seen * other| + (if t in other then 1 else 0)
  {
    if t in other {
      assert (seen + {t}) * other == seen * other + {t};
    } else {
      assert (seen + {t}) * other == seen * other;
    }
  }

  /** A count over a larger positive count is a proportion. */
  lemma RatioBounds(x: nat, y: nat)
    requires 0 < y && x <= y
    ensures 0.0 <= (x as real) / (y as real) <= 1.0
    ensures (x as real) / (y as real) == 1.0 <==> x == y
  {
    var r := (x as real) / (y as real);
    assert r * (y as real) == x as real;
  }

  /** The similarity is a proportion. */
  lemma JaccardBounds(terms1: seq<string>, terms2: seq<string>)
    ensures 0.0 <= Jaccard(terms1, terms2) <= 1.0
  {
    if |terms1| > 0 && |terms2| > 0 {
      var a, b := TermSet(terms1), TermSet(terms2);
      SubsetCardinality(a * b, a + b);
      assert terms1[0] in a + b;
      RatioBounds(|a * b|, |a + b|);
    }
  }

  /** A subset is no larger than its superset, and of equal size only when equal. */
  lemma SubsetCardinality(x: set<string>, y: set<string>)
    requires x <= y
    ensures |x| <= |y|
    ensures |x| == |y| ==> x == y
  {
    assert y == x + (y - x);
    assert |y| == |x| + |y - x|;
    if |x| == |y| {
      assert y - x == {};
    }
  }

  /** The similarity does not depend on the order of its arguments. */
  lemma JaccardSymmetric(terms1: seq<string>, terms2: seq<string>)
    ensures Jaccard(terms1, terms2) == Jaccard(terms2, terms1)
  {
    var a, b := TermSet(terms1), TermSet(terms2);
    assert a * b == b * a && a + b == b + a;
  }

  /** A non-empty term list is fully similar to itself. */
  lemma JaccardSelf(terms: seq<string>)
    requires |terms| > 0
    ensures Jaccard(terms, terms) == 1.0
  {
    var a := TermSet(terms);
    assert terms[0] in a;
    assert a * a == a && a + a == a;
    RatioBounds(|a|, |a|);
  }

  /** Two non-empty term lists are fully similar exactly when they hold the same terms. */
  lemma JaccardOneIffSameTerms(terms1: seq<string>, terms2: seq<string>)
    requires |terms1| > 0 && |terms2| > 0
    ensures Jaccard(terms1, terms2) == 1.0 <==> TermSet(terms1) == TermSet(terms2)
  {
    var a, b := TermSet(terms1), TermSet(terms2);
    assert terms1[0] in a + b;
    SubsetCardinality(a * b, a + b);
    RatioBounds(|a * b|, |a + b|);
    if Jaccard(terms1, terms2) == 1.0 {
      assert a * b == a + b;
      assert a == a * b && b == a * b;
    }
    if a == b {
      assert a * b == a + b;
    }
  }
}
