/** src/utils/arbitrage.ts: cross-platform arbitrage. Each market is taken as a seed in turn;
    the later markets that look like the same event on another platform join it, and when
    their prices spread far enough apart the cluster is reported as an opportunity. */
module Arbitrage {
  import opened Wrappers
  import opened Seqs
  import opened Sorting
  import opened Text
  import opened Similarity
  import opened Market
  import Grouping

  /** The stop words of `extractKeyTerms` in arbitrage.ts. */
  const ArbitrageStopWords: set<string> := {
    "will", "the", "be", "to", "in", "on", "at", "by", "for", "of", "a", "an", "is", "are",
    "or", "and", "yes", "no", "before", "after", "during", "when", "what", "how", "who",
    "where", "which"}

  /** `extractKeyTerms` of arbitrage.ts. */
  function ArbitrageTerms(question: string): seq<string>
  {
    KeyTerms(question, ArbitrageStopWords)
  }

  /** Every term has more than two characters, only `[a-z0-9]`, and is no arbitrage stop
      word. */
  lemma ArbitrageTermsAreWords(question: string)
    ensures forall t :: t in ArbitrageTerms(question) ==>
      |t| > 2 && t !in ArbitrageStopWords && forall i :: 0 <= i < |t| ==> IsWordChar(t[i])
  {
    KeyTermsAreWords(question, ArbitrageStopWords);
  }

  /** The arbitrage stop words are the grouping ones without fourteen of them, so words such
      as "win", "this" and "have" count as terms here. */
  lemma StopWordsNested()
    ensures ArbitrageStopWords <= Grouping.GroupingStopWords
    ensures "win" !in ArbitrageStopWords && "this" !in ArbitrageStopWords && "have" !in ArbitrageStopWords
  {
  }

  /** The grouping terms of a question are its arbitrage terms without the extra grouping
      stop words. */
  lemma GroupTermsRefineArbitrageTerms(question: string)
    ensures KeepTerms(ArbitrageTerms(question), Grouping.GroupingStopWords) == Grouping.GroupTerms(question)
  {
    StopWordsNested();
    KeepTermsLargerStopSet(Split(Normalize(question), ' '), ArbitrageStopWords, Grouping.GroupingStopWords);
  }

  // ------------------------------------------------------------------------------------
  // areSameEvent
  // ------------------------------------------------------------------------------------

  /** `areSameEvent`: different platforms, the same category, and a similarity of the
      questions' terms strictly above 0.6. */
  predicate AreSameEvent(m1: UnifiedMarket, m2: UnifiedMarket)
  {
    if m1.platform == m2.platform then false
    else if m1.category != m2.category then false
    else Jaccard(ArbitrageTerms(m1.question), ArbitrageTerms(m2.question)) > 0.6
  }

  /** The test does not depend on the order of the two markets. */
  lemma AreSameEventSymmetric(m1: UnifiedMarket, m2: UnifiedMarket)
    ensures AreSameEvent(m1, m2) == AreSameEvent(m2, m1)
  {
    JaccardSymmetric(ArbitrageTerms(m1.question), ArbitrageTerms(m2.question));
  }

  /** Two markets of the same event share at least one term. */
  lemma SameEventSharesTerm(m1: UnifiedMarket, m2: UnifiedMarket)
    requires AreSameEvent(m1, m2)
    ensures exists t :: t in ArbitrageTerms(m1.question) && t in ArbitrageTerms(m2.question)
  {
    var a, b := TermSet(ArbitrageTerms(m1.question)), TermSet(ArbitrageTerms(m2.question));
    JaccardOfDisjoint(ArbitrageTerms(m1.question), ArbitrageTerms(m2.question));
    var t :| t in a * b;
  }

  lemma JaccardOfDisjoint(terms1: seq<string>, terms2: seq<string>)
    ensures TermSet(terms1) * TermSet(terms2) == {} ==> Jaccard(terms1, terms2) == 0.0
  {
    if |terms1| > 0 && |terms2| > 0 && TermSet(terms1) * TermSet(terms2) == {} {
      var u := TermSet(terms1) + TermSet(terms2);
      assert terms1[0] in u;
      assert (0 as real) / (|u| as real) == 0.0;
    }
  }

  /** The same question with at least one term, asked on two platforms in one category, is
      the same event. */
  lemma SameQuestionSameEvent(m1: UnifiedMarket, m2: UnifiedMarket)
    requires m1.question == m2.question && ArbitrageTerms(m1.question) != []
    requires m1.platform != m2.platform && m1.category == m2.category
    ensures AreSameEvent(m1, m2)
  {
    JaccardSelf(ArbitrageTerms(m1.question));
  }

  // ------------------------------------------------------------------------------------
  // Pair keys
  // ------------------------------------------------------------------------------------

  /** `[id1, id2].sort().join('|')`. */
  function PairKey(a: string, b: string): string
  {
    if LessOrEqual(a, b) then a + "|" + b else b + "|" + a
  }

  /** The key names an unordered pair. */
  lemma PairKeySymmetric(a: string, b: string)
    ensures PairKey(a, b) == PairKey(b, a)
  {
    LessOrEqualTotal(a, b);
    if LessOrEqual(a, b) && LessOrEqual(b, a) {
      LessOrEqualAntisymmetric(a, b);
    }
  }

  predicate NoBar(s: string)
  {
    forall i :: 0 <= i < |s| ==> s[i] != '|'
  }

  /** Joining at a bar loses nothing when the left parts have no bar. */
  lemma JoinAtBarInjective(x: string, y: string, u: string, v: string)
    requires NoBar(x) && NoBar(u) && x + "|" + y == u + "|" + v
    ensures x == u && y == v
  {
    if |x| < |u| {
      CharBeforeBar(u, v, |x|);
      assert false;
    } else if |u| < |x| {
      CharBeforeBar(x, y, |u|);
      assert false;
    } else {
      var s := x + "|" + y;
      assert x == s[..|x|] && u == (u + "|" + v)[..|u|];
      assert y == s[|x| + 1..] && v == (u + "|" + v)[|u| + 1..];
    }
  }

  lemma CharBeforeBar(x: string, y: string, i: nat)
    requires i < |x| && NoBar(x)
    ensures (x + "|" + y)[i] == x[i] && x[i] != '|'
  {
  }

  /** For ids without a bar, equal keys name the same pair. */
  lemma PairKeyInjective(a: string, b: string, c: string, d: string)
    requires NoBar(a) && NoBar(b) && NoBar(c) && NoBar(d)
    requires PairKey(a, b) == PairKey(c, d)
    ensures (a == c && b == d) || (a == d && b == c)
  {
    var lo1, hi1 := if LessOrEqual(a, b) then a else b, if LessOrEqual(a, b) then b else a;
    var lo2, hi2 := if LessOrEqual(c, d) then c else d, if LessOrEqual(c, d) then d else c;
    JoinAtBarInjective(lo1, hi1, lo2, hi2);
  }

  /** No two different pairs of positions have the same key, so no pair is ever skipped. */
  ghost predicate DistinctPairKeys(markets: seq<UnifiedMarket>)
  {
    forall p, q, r, s :: 0 <= p < q < |markets| && 0 <= r < s < |markets| && (p != r || q != s) ==>
      PairKey(markets[p].id, markets[q].id) != PairKey(markets[r].id, markets[s].id)
  }

  /** Distinct ids without a bar give distinct pair keys. */
  lemma DistinctIdsGiveDistinctPairKeys(markets: seq<UnifiedMarket>)
    requires Grouping.UniqueIds(markets)
    requires forall k :: 0 <= k < |markets| ==> NoBar(markets[k].id)
    ensures DistinctPairKeys(markets)
  {
    forall p, q, r, s | 0 <= p < q < |markets| && 0 <= r < s < |markets| && (p != r || q != s)
      ensures PairKey(markets[p].id, markets[q].id) != PairKey(markets[r].id, markets[s].id)
    {
      if PairKey(markets[p].id, markets[q].id) == PairKey(markets[r].id, markets[s].id) {
        PairKeyInjective(markets[p].id, markets[q].id, markets[r].id, markets[s].id);
      }
    }
  }

  // ------------------------------------------------------------------------------------
  // findArbitrageOpportunities
  // ------------------------------------------------------------------------------------

  /** An entry of `ArbitrageOpportunity.markets`. */
  datatype PricedMarket = PricedMarket(platform: Platform, market: UnifiedMarket, price: real)

  /** `ArbitrageOpportunity`. */
  datatype ArbitrageOpportunity = ArbitrageOpportunity(
    id: string,
    eventName: string,
    markets: seq<PricedMarket>,
    priceDifference: real,
    potentialProfit: real,
    lowestPrice: real,
    highestPrice: real)

  function PriceDifference(o: ArbitrageOpportunity): real { o.priceDifference }

  /** `relatedMarkets.map(m => ({ platform: m.platform, market: m, price: m.probability }))`. */
  function PricesOf(ms: seq<UnifiedMarket>): (r: seq<PricedMarket>)
    ensures |r| == |ms|
    ensures forall k :: 0 <= k < |ms| ==> r[k] == PricedMarket(ms[k].platform, ms[k], ms[k].probability)
  {
    seq(|ms|, k requires 0 <= k < |ms| => PricedMarket(ms[k].platform, ms[k], ms[k].probability))
  }

  /** `prices.map(p => p.price)`. */
  function PriceValues(ps: seq<PricedMarket>): (r: seq<real>)
    ensures |r| == |ps|
    ensures forall k :: 0 <= k < |ps| ==> r[k] == ps[k].price
  {
    seq(|ps|, k requires 0 <= k < |ps| => ps[k].price)
  }

  /** `Math.min(...xs)` of a non-empty list. */
  function MinOf(xs: seq<real>): real
    requires |xs| >= 1
  {
    if |xs| == 1 then xs[0]
    else
      var m := MinOf(xs[1..]);
      if xs[0] <= m then xs[0] else m
  }

  /** `Math.max(...xs)` of a non-empty list. */
  function MaxOf(xs: seq<real>): real
    requires |xs| >= 1
  {
    if |xs| == 1 then xs[0]
    else
      var m := MaxOf(xs[1..]);
      if xs[0] >= m then xs[0] else m
  }

  /** The minimum is one of the values and no value is below it. */
  lemma {:induction false} MinOfIsLeast(xs: seq<real>)
    requires |xs| >= 1
    ensures MinOf(xs) in xs
    ensures forall k :: 0 <= k < |xs| ==> MinOf(xs) <= xs[k]
  {
    if |xs| > 1 {
      MinOfIsLeast(xs[1..]);
      assert forall k :: 1 <= k < |xs| ==> xs[k] == xs[1..][k - 1];
    }
  }

  /** The maximum is one of the values and no value is above it. */
  lemma {:induction false} MaxOfIsGreatest(xs: seq<real>)
    requires |xs| >= 1
    ensures MaxOf(xs) in xs
    ensures forall k :: 0 <= k < |xs| ==> MaxOf(xs) >= xs[k]
  {
    if |xs| > 1 {
      MaxOfIsGreatest(xs[1..]);
      assert forall k :: 1 <= k < |xs| ==> xs[k] == xs[1..][k - 1];
    }
  }

  /** What is pushed for a cluster: nothing for a lone seed; otherwise an opportunity when
      the spread of the prices reaches `minDifferencePercent`. `now` is `Date.now()`. */
  function OpportunityOf(related: seq<UnifiedMarket>, minDifferencePercent: real, now: nat)
    : Option<ArbitrageOpportunity>
    requires |related| >= 1
  {
    if |related| < 2 then None
    else
      var prices := PricesOf(related);
      var minPrice := MinOf(PriceValues(prices));
      var maxPrice := MaxOf(PriceValues(prices));
      var difference := maxPrice - minPrice;
      if difference >= minDifferencePercent then
        var potentialProfit := difference / 100.0;
        Some(ArbitrageOpportunity(
          "arb-" + related[0].id + "-" + NatToString(now), related[0].question, prices,
          difference, potentialProfit * 100.0, minPrice, maxPrice))
      else None
  }

  /** A cluster as the inner loop gathers it around the seed `markets[i]`: the seed first,
      then later markets related to the seed by `same`. */
  ghost predicate SeededBy(related: seq<UnifiedMarket>, markets: seq<UnifiedMarket>, i: nat,
                           same: (UnifiedMarket, UnifiedMarket) -> bool)
  {
    && i < |markets| && |related| >= 1 && related[0] == markets[i]
    && forall k :: 1 <= k < |related| ==> related[k] in markets[i + 1..] && same(markets[i], related[k])
  }

  /** A cluster of the seed `markets[i]` and later markets of the same event. */
  ghost predicate SeededAt(related: seq<UnifiedMarket>, markets: seq<UnifiedMarket>, i: nat)
  {
    SeededBy(related, markets, i, AreSameEvent)
  }

  /** An opportunity of a cluster: at least two entries, the seed's first, each priced at its
      market's probability; all but the seed on another platform in the seed's category;
      the lowest and highest prices bound all prices and occur among them, and their
      difference, which is also the profit, reaches the minimum. */
  lemma OpportunityFacts(related: seq<UnifiedMarket>, markets: seq<UnifiedMarket>, i: nat,
                         minDifferencePercent: real, now: nat, o: ArbitrageOpportunity)
    requires SeededAt(related, markets, i) && OpportunityOf(related, minDifferencePercent, now) == Some(o)
    ensures |o.markets| >= 2 && |o.markets| == |related|
    ensures o.markets[0].market == markets[i] && o.eventName == markets[i].question
    ensures o.id == "arb-" + markets[i].id + "-" + NatToString(now)
    ensures forall k :: 0 <= k < |o.markets| ==>
      o.markets[k].market == related[k] && o.markets[k].platform == related[k].platform
      && o.markets[k].price == related[k].probability
    ensures forall k :: 1 <= k < |o.markets| ==>
      o.markets[k].platform != markets[i].platform && o.markets[k].market.category == markets[i].category
    ensures forall k :: 0 <= k < |o.markets| ==> o.lowestPrice <= o.markets[k].price <= o.highestPrice
    ensures exists k :: 0 <= k < |o.markets| && o.markets[k].price == o.lowestPrice
    ensures exists k :: 0 <= k < |o.markets| && o.markets[k].price == o.highestPrice
    ensures o.priceDifference == o.highestPrice - o.lowestPrice >= minDifferencePercent
    ensures o.potentialProfit == o.priceDifference
  {
    var values := PriceValues(PricesOf(related));
    MinOfIsLeast(values);
    MaxOfIsGreatest(values);
    var lo :| 0 <= lo < |values| && values[lo] == MinOf(values);
    var hi :| 0 <= hi < |values| && values[hi] == MaxOf(values);
    assert o.markets[lo].price == o.lowestPrice;
    assert o.markets[hi].price == o.highestPrice;
  }

  /** The markets of `ms` related to `seed` by `same`, in order. */
  function Matching(seed: UnifiedMarket, ms: seq<UnifiedMarket>, same: (UnifiedMarket, UnifiedMarket) -> bool)
    : seq<UnifiedMarket>
  {
    if ms == [] then []
    else
      Matching(seed, ms[..|ms| - 1], same)
      + (if same(seed, ms[|ms| - 1]) then [ms[|ms| - 1]] else [])
  }

  /** The cluster of `markets[i]` when every pair is examined. */
  function ClusterAt(markets: seq<UnifiedMarket>, i: nat): seq<UnifiedMarket>
    requires i < |markets|
  {
    [markets[i]] + Matching(markets[i], markets[i + 1..], AreSameEvent)
  }

  /** The filter keeps exactly the related markets. */
  lemma {:induction false} MatchingMembers(seed: UnifiedMarket, ms: seq<UnifiedMarket>,
                                           same: (UnifiedMarket, UnifiedMarket) -> bool, m: UnifiedMarket)
    ensures m in Matching(seed, ms, same) <==> m in ms && same(seed, m)
  {
    if ms != [] {
      MatchingMembers(seed, ms[..|ms| - 1], same, m);
      assert ms == ms[..|ms| - 1] + [ms[|ms| - 1]];
    }
  }

  /** With every pair examined, a seed's cluster holds every later market of its event. */
  lemma ClusterAtSeeded(markets: seq<UnifiedMarket>, i: nat)
    requires i < |markets|
    ensures SeededAt(ClusterAt(markets, i), markets, i)
    ensures forall m :: m in markets[i + 1..] && AreSameEvent(markets[i], m) ==> m in ClusterAt(markets, i)
  {
    var c := ClusterAt(markets, i);
    forall k | 1 <= k < |c|
      ensures c[k] in markets[i + 1..] && AreSameEvent(markets[i], c[k])
    {
      MatchingMembers(markets[i], markets[i + 1..], AreSameEvent, c[k]);
    }
    forall m | m in markets[i + 1..] && AreSameEvent(markets[i], m)
      ensures m in c
    {
      MatchingMembers(markets[i], markets[i + 1..], AreSameEvent, m);
    }
  }

  function OptionToSeq<T>(o: Option<T>): seq<T>
  {
    if o.Some? then [o.value] else []
  }

  /** The opportunities of the seeds `markets[..n]`, in seed order, when every pair is
      examined. */
  function OpportunitiesUpTo(markets: seq<UnifiedMarket>, n: nat, minDifferencePercent: real, now: nat)
    : seq<ArbitrageOpportunity>
    requires n <= |markets|
  {
    if n == 0 then []
    else
      OpportunitiesUpTo(markets, n - 1, minDifferencePercent, now)
      + OptionToSeq(OpportunityOf(ClusterAt(markets, n - 1), minDifferencePercent, now))
  }

  /** The keys of the pairs of `markets[i]` with `markets[lo..hi]`. */
  ghost function KeysBetween(markets: seq<UnifiedMarket>, i: nat, lo: nat, hi: nat): set<string>
    requires i < |markets| && hi <= |markets|
  {
    set j | lo <= j < hi :: PairKey(markets[i].id, markets[j].id)
  }

  /** No key of a pair of the seed `markets[i]` with a later market was seen before, and the
      keys of those pairs differ from each other. */
  ghost predicate FreshPairs(markets: seq<UnifiedMarket>, i: nat, processed: set<string>)
    requires i < |markets|
  {
    forall j :: i < j < |markets| ==>
      && PairKey(markets[i].id, markets[j].id) !in processed
      && forall j' :: i < j' < |markets| && j' != j ==>
           PairKey(markets[i].id, markets[j].id) != PairKey(markets[i].id, markets[j'].id)
  }

  /** One more pair examined by the inner loop. */
  lemma KeysStep(markets: seq<UnifiedMarket>, i: nat, j: nat, processed0: set<string>)
    requires i < j < |markets|
    ensures KeysBetween(markets, i, i + 1, j + 1)
      == KeysBetween(markets, i, i + 1, j) + {PairKey(markets[i].id, markets[j].id)}
    ensures FreshPairs(markets, i, processed0) ==>
      PairKey(markets[i].id, markets[j].id) !in processed0 + KeysBetween(markets, i, i + 1, j)
  {
  }

  lemma MatchingSnoc(seed: UnifiedMarket, markets: seq<UnifiedMarket>, lo: nat, j: nat,
                     same: (UnifiedMarket, UnifiedMarket) -> bool)
    requires lo <= j < |markets|
    ensures Matching(seed, markets[lo..j + 1], same)
      == Matching(seed, markets[lo..j], same) + (if same(seed, markets[j]) then [markets[j]] else [])
  {
    assert markets[lo..j + 1][..j - lo] == markets[lo..j];
  }

  /** The state of the inner loop once the pairs of the seed with `markets[i + 1..j]` are
      examined, for the relation `same`. */
  ghost predicate Collected(related: seq<UnifiedMarket>, processed: set<string>,
                            markets: seq<UnifiedMarket>, i: nat, processed0: set<string>, j: nat,
                            same: (UnifiedMarket, UnifiedMarket) -> bool)
    requires i < j <= |markets|
  {
    && SeededBy(related, markets, i, same)
    && processed == processed0 + KeysBetween(markets, i, i + 1, j)
    && (FreshPairs(markets, i, processed0) ==>
          related == [markets[i]] + Matching(markets[i], markets[i + 1..j], same))
  }

  /** A pair examined before is skipped. */
  lemma CollectedSkip(related: seq<UnifiedMarket>, processed: set<string>,
                      markets: seq<UnifiedMarket>, i: nat, processed0: set<string>, j: nat,
                      same: (UnifiedMarket, UnifiedMarket) -> bool)
    requires i < j < |markets| && Collected(related, processed, markets, i, processed0, j, same)
    requires PairKey(markets[i].id, markets[j].id) in processed
    ensures Collected(related, processed, markets, i, processed0, j + 1, same)
  {
    KeysStep(markets, i, j, processed0);
  }

  /** A new pair is marked, and its market joins when it is related to the seed. */
  lemma CollectedNext(related: seq<UnifiedMarket>, processed: set<string>,
                      markets: seq<UnifiedMarket>, i: nat, processed0: set<string>, j: nat,
                      same: (UnifiedMarket, UnifiedMarket) -> bool)
    requires i < j < |markets| && Collected(related, processed, markets, i, processed0, j, same)
    ensures Collected(related + (if same(markets[i], markets[j]) then [markets[j]] else []),
                      processed + {PairKey(markets[i].id, markets[j].id)}, markets, i, processed0, j + 1, same)
  {
    var related' := related + (if same(markets[i], markets[j]) then [markets[j]] else []);
    KeysStep(markets, i, j, processed0);
    SeededByNext(related, markets, i, j, same);
    if FreshPairs(markets, i, processed0) {
      MatchingSnoc(markets[i], markets, i + 1, j, same);
      assert related' == [markets[i]] + Matching(markets[i], markets[i + 1..j + 1], same);
    }
  }

  /** The seed's cluster stays seeded when a later related market joins it. */
  lemma SeededByNext(related: seq<UnifiedMarket>, markets: seq<UnifiedMarket>, i: nat, j: nat,
                     same: (UnifiedMarket, UnifiedMarket) -> bool)
    requires i < j < |markets| && SeededBy(related, markets, i, same)
    ensures SeededBy(related + (if same(markets[i], markets[j]) then [markets[j]] else []), markets, i, same)
  {
    assert markets[i + 1..][j - i - 1] == markets[j];
  }

  /** The inner loop of `findArbitrageOpportunities`: the seed `markets[i]` and each later
      market whose pair was not examined before and that is the same event. Every pair of
      the seed with a later market is marked as examined. */
  method CollectSameEvent(markets: seq<UnifiedMarket>, i: nat, processed0: set<string>)
    returns (related: seq<UnifiedMarket>, processed: set<string>)
    requires i < |markets|
    ensures SeededAt(related, markets, i)
    ensures processed == processed0 + KeysBetween(markets, i, i + 1, |markets|)
    ensures FreshPairs(markets, i, processed0) ==> related == ClusterAt(markets, i)
  {
    var market1 := markets[i];
    related := [market1];
    processed := processed0;
    assert markets[i + 1..i + 1] == [];
    for j := i + 1 to |markets|
      invariant Collected(related, processed, markets, i, processed0, j, AreSameEvent)
    {
      var market2 := markets[j];
      var pairKey := PairKey(market1.id, market2.id);
      if pairKey in processed {
        CollectedSkip(related, processed, markets, i, processed0, j, AreSameEvent);
        continue;
      }
      CollectedNext(related, processed, markets, i, processed0, j, AreSameEvent);
      processed := processed + {pairKey};
      if AreSameEvent(market1, market2) {
        related := related + [market2];
      }
    }
    assert markets[i + 1..|markets|] == markets[i + 1..];
  }

  /** The keys of every pair whose first market comes before `markets[i]`. */
  ghost function PairsBefore(markets: seq<UnifiedMarket>, i: nat): set<string>
    requires i <= |markets|
  {
    set p, q | 0 <= p < i && p < q < |markets| :: PairKey(markets[p].id, markets[q].id)
  }

  lemma PairsBeforeStep(markets: seq<UnifiedMarket>, i: nat)
    requires i < |markets|
    ensures PairsBefore(markets, i + 1) == PairsBefore(markets, i) + KeysBetween(markets, i, i + 1, |markets|)
  {
    var after, before := PairsBefore(markets, i + 1), PairsBefore(markets, i) + KeysBetween(markets, i, i + 1, |markets|);
    forall key | key in after
      ensures key in before
    {
      var p, q :| 0 <= p < i + 1 && p < q < |markets| && key == PairKey(markets[p].id, markets[q].id);
      if p == i {
        assert key in KeysBetween(markets, i, i + 1, |markets|);
      }
    }
  }

  /** With distinct pair keys, the pairs of a new seed were never examined. */
  lemma FreshBefore(markets: seq<UnifiedMarket>, i: nat)
    requires i < |markets|
    ensures DistinctPairKeys(markets) ==> FreshPairs(markets, i, PairsBefore(markets, i))
  {

  }

  /** Every opportunity comes from the cluster of some seed. */
  ghost predicate FromSeeds(opportunities: seq<ArbitrageOpportunity>, markets: seq<UnifiedMarket>,
                            minDifferencePercent: real, now: nat)
  {
    forall o :: o in opportunities ==> exists i: nat, related ::
      SeededAt(related, markets, i) && OpportunityOf(related, minDifferencePercent, now) == Some(o)
  }

  lemma FromSeedsPermutation(a: seq<ArbitrageOpportunity>, b: seq<ArbitrageOpportunity>,
                             markets: seq<UnifiedMarket>, minDifferencePercent: real, now: nat)
    requires multiset(a) == multiset(b) && FromSeeds(b, markets, minDifferencePercent, now)
    ensures FromSeeds(a, markets, minDifferencePercent, now)
  {
    forall o | o in a
      ensures exists i: nat, related ::
        SeededAt(related, markets, i) && OpportunityOf(related, minDifferencePercent, now) == Some(o)
    {
      assert o in multiset(b);
      assert o in b;
    }
  }

  /** The state of the outer loop once the seeds `markets[..i]` are done. */
  ghost predicate Scanned(found: seq<ArbitrageOpportunity>, processedPairs: set<string>,
                          markets: seq<UnifiedMarket>, i: nat, minDifferencePercent: real, now: nat)
    requires i <= |markets|
  {
    && processedPairs == PairsBefore(markets, i)
    && FromSeeds(found, markets, minDifferencePercent, now)
    && (|markets| <= 1 ==> found == [])
    && (DistinctPairKeys(markets) ==> found == OpportunitiesUpTo(markets, i, minDifferencePercent, now))
  }

  /** One seed done: its cluster's opportunity, if any, is appended. */
  lemma ScannedStep(found: seq<ArbitrageOpportunity>, processedPairs: set<string>,
                    markets: seq<UnifiedMarket>, i: nat, minDifferencePercent: real, now: nat,
                    related: seq<UnifiedMarket>, processed: set<string>)
    requires i < |markets| && Scanned(found, processedPairs, markets, i, minDifferencePercent, now)
    requires SeededAt(related, markets, i)
    requires processed == processedPairs + KeysBetween(markets, i, i + 1, |markets|)
    requires FreshPairs(markets, i, processedPairs) ==> related == ClusterAt(markets, i)
    ensures Scanned(found + OptionToSeq(OpportunityOf(related, minDifferencePercent, now)), processed,
                    markets, i + 1, minDifferencePercent, now)
  {
    var found' := found + OptionToSeq(OpportunityOf(related, minDifferencePercent, now));
    PairsBeforeStep(markets, i);
    FromSeedsStep(found, markets, i, minDifferencePercent, now, related);
    if DistinctPairKeys(markets) {
      FreshBefore(markets, i);
    }
  }

  lemma FromSeedsStep(found: seq<ArbitrageOpportunity>, markets: seq<UnifiedMarket>, i: nat,
                      minDifferencePercent: real, now: nat, related: seq<UnifiedMarket>)
    requires FromSeeds(found, markets, minDifferencePercent, now) && SeededAt(related, markets, i)
    ensures FromSeeds(found + OptionToSeq(OpportunityOf(related, minDifferencePercent, now)),
                      markets, minDifferencePercent, now)
  {
    var found' := found + OptionToSeq(OpportunityOf(related, minDifferencePercent, now));
    forall o | o in found'
      ensures exists i: nat, related ::
        SeededAt(related, markets, i) && OpportunityOf(related, minDifferencePercent, now) == Some(o)
    {
      if o !in found {
        assert OpportunityOf(related, minDifferencePercent, now) == Some(o);
      }
    }
  }

  /** `findArbitrageOpportunities`: every market seeds a cluster of the later markets of the
      same event whose pair key was not examined yet; a cluster of two or more whose prices
      spread by at least `minDifferencePercent` is an opportunity; the opportunities come out
      by decreasing price difference. `now` stands for `Date.now()`. */
  method FindArbitrageOpportunities(markets: seq<UnifiedMarket>, minDifferencePercent: real, now: nat)
    returns (opportunities: seq<ArbitrageOpportunity>)
    ensures |markets| <= 1 ==> opportunities == []
    ensures SortedDesc(opportunities, PriceDifference)
    ensures FromSeeds(opportunities, markets, minDifferencePercent, now)
    ensures DistinctPairKeys(markets) ==>
      opportunities == SortDesc(OpportunitiesUpTo(markets, |markets|, minDifferencePercent, now), PriceDifference)
  {
    var found: seq<ArbitrageOpportunity> := [];
    var processedPairs: set<string> := {};
    for i := 0 to |markets|
      invariant Scanned(found, processedPairs, markets, i, minDifferencePercent, now)
    {
      var related, processed := CollectSameEvent(markets, i, processedPairs);
      ScannedStep(found, processedPairs, markets, i, minDifferencePercent, now, related, processed);
      processedPairs := processed;
      var opportunity := OpportunityOf(related, minDifferencePercent, now);
      if opportunity.Some? {
        found := found + [opportunity.value];
      } else {
        assert OptionToSeq(opportunity) == [];
      }
    }
    opportunities := SortDesc(found, PriceDifference);
    FromSeedsPermutation(opportunities, found, markets, minDifferencePercent, now);
  }
}
