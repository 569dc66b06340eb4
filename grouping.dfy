/** src/utils/grouping.ts: event groups. Markets are clustered greedily around seeds by the
    similarity of their key terms, each cluster is summarised (volume, mean probability,
    platforms, a name made of its most common terms) and the groups are ordered by volume. */
module Grouping {
  import opened Wrappers
  import opened Seqs
  import opened Sorting
  import opened Text
  import opened Similarity
  import opened Market

  /** The stop words of `extractKeyTerms` in grouping.ts. */
  const GroupingStopWords: set<string> := {
    "will", "the", "be", "to", "in", "on", "at", "by", "for", "of", "a", "an",
    "is", "are", "or", "and", "yes", "no", "before", "after", "during", "when",
    "what", "how", "who", "where", "which", "this", "that", "than", "more",
    "less", "if", "has", "have", "do", "does", "did", "win", "winning", "wins"}

  /** `extractKeyTerms` of grouping.ts. */
  function GroupTerms(question: string): seq<string>
  {
    KeyTerms(question, GroupingStopWords)
  }

  /** Every term of a question has more than two characters, only `[a-z0-9]`, and is no
      grouping stop word. */
  lemma GroupTermsAreWords(question: string)
    ensures forall t :: t in GroupTerms(question) ==>
      |t| > 2 && t !in GroupingStopWords && forall i :: 0 <= i < |t| ==> IsWordChar(t[i])
  {
    KeyTermsAreWords(question, GroupingStopWords);
  }

  /** The empty question has no terms. */
  lemma GroupTermsOfEmpty()
    ensures GroupTerms("") == []
  {
    KeyTermsOfBlank("", GroupingStopWords);
  }

  /** `EventGroup`. */
  datatype EventGroup = EventGroup(
    id: string,
    name: string,
    markets: seq<UnifiedMarket>,
    totalVolume: real,
    avgProbability: real,
    platforms: seq<Platform>,
    category: Category)

  function Volume(m: UnifiedMarket): real { m.volume }
  function Probability(m: UnifiedMarket): real { m.probability }
  function PlatformOf(m: UnifiedMarket): Platform { m.platform }
  function TotalVolume(g: EventGroup): real { g.totalVolume }
  function MarketsOf(g: EventGroup): seq<UnifiedMarket> { g.markets }

  /** `ms.map(m => m.platform)`. */
  function Platforms(ms: seq<UnifiedMarket>): (r: seq<Platform>)
    ensures |r| == |ms|
    ensures forall i :: 0 <= i < |ms| ==> r[i] == ms[i].platform
  {
    seq(|ms|, i requires 0 <= i < |ms| => ms[i].platform)
  }

  // ------------------------------------------------------------------------------------
  // extractGroupName
  // ------------------------------------------------------------------------------------

  /** The terms of all questions, market after market, with repetitions. */
  function AllTerms(ms: seq<UnifiedMarket>): seq<string>
  {
    if ms == [] then [] else AllTerms(ms[..|ms| - 1]) + GroupTerms(ms[|ms| - 1].question)
  }

  /** How many times `t` occurs in `s`. */
  function Occurrences(s: seq<string>, t: string): nat
  {
    if s == [] then 0 else Occurrences(s[..|s| - 1], t) + (if s[|s| - 1] == t then 1 else 0)
  }

  /** A term occurs in a list exactly when it is counted there at least once. */
  lemma {:induction false} OccurrencesPositive(s: seq<string>, t: string)
    ensures Occurrences(s, t) > 0 <==> t in s
  {
    if s != [] {
      OccurrencesPositive(s[..|s| - 1], t);
      assert s == s[..|s| - 1] + [s[|s| - 1]];
    }
  }

  /** `Array.from(termCounts.entries())` once every term is counted: each distinct term in
      the order of its first occurrence, with its number of occurrences. */
  function Entries(all: seq<string>): (r: seq<(string, nat)>)
    ensures |r| == |Distinct(all)|
    ensures forall k :: 0 <= k < |r| ==> r[k] == (Distinct(all)[k], Occurrences(all, Distinct(all)[k]))
  {
    var d := Distinct(all);
    seq(|d|, k requires 0 <= k < |d| => (d[k], Occurrences(all, d[k])))
  }

  function EntryCount(e: (string, nat)): real { e.1 as real }

  /** `.filter(([_, count]) => count >= threshold)`. */
  function AtLeast(entries: seq<(string, nat)>, threshold: int): (r: seq<(string, nat)>)
    ensures |r| <= |entries|
  {
    if entries == [] then []
    else (if entries[0].1 >= threshold then [entries[0]] else []) + AtLeast(entries[1..], threshold)
  }

  /** The filter keeps exactly the entries that reach the threshold. */
  lemma {:induction false} AtLeastMembers(entries: seq<(string, nat)>, threshold: int, e: (string, nat))
    ensures e in AtLeast(entries, threshold) <==> e in entries && e.1 >= threshold
  {
    if entries != [] {
      AtLeastMembers(entries[1..], threshold, e);
      assert entries == [entries[0]] + entries[1..];
    }
  }

  /** `.map(([term]) => term)`. */
  function TermsOf(entries: seq<(string, nat)>): (r: seq<string>)
    ensures |r| == |entries|
    ensures forall k :: 0 <= k < |entries| ==> r[k] == entries[k].0
  {
    seq(|entries|, k requires 0 <= k < |entries| => entries[k].0)
  }

  /** `Math.ceil(x)`. */
  function Ceil(x: real): int
  {
    -((-x).Floor)
  }

  /** `Math.ceil(n * 0.5)` is half of `n` rounded up. */
  lemma HalfCeil(n: nat)
    ensures Ceil(n as real * 0.5) == (n + 1) / 2
  {
    var h := (n + 1) / 2;
    if n % 2 == 0 {
      assert n as real * 0.5 == h as real;
    } else {
      assert -(n as real * 0.5) == (-h) as real + 0.5;
    }
  }

  /** The entries of the common terms, before the terms are taken out: those counted at
      least `ceil(n / 2)` times, most frequent first, at most five. */
  function CommonEntries(ms: seq<UnifiedMarket>): seq<(string, nat)>
  {
    Take(SortDesc(Candidates(ms), EntryCount), 5)
  }

  /** The entries counted at least `ceil(n / 2)` times, in the order of the map. */
  function Candidates(ms: seq<UnifiedMarket>): seq<(string, nat)>
  {
    AtLeast(Entries(AllTerms(ms)), Ceil(|ms| as real * 0.5))
  }

  /** `term.charAt(0).toUpperCase() + term.slice(1)`. */
  function Capitalize(term: string): (r: string)
    ensures |r| == |term|
    ensures r != [] ==> r[0] == UpperChar(term[0]) && r[1..] == term[1..]
  {
    if term == "" then "" else [UpperChar(term[0])] + term[1..]
  }

  function CapitalizeAll(terms: seq<string>): (r: seq<string>)
    ensures |r| == |terms|
    ensures forall k :: 0 <= k < |terms| ==> r[k] == Capitalize(terms[k])
  {
    seq(|terms|, k requires 0 <= k < |terms| => Capitalize(terms[k]))
  }

  /** The position of the question the `reduce` keeps: it replaces its current pick only
      by a strictly shorter question. */
  function ShortestIndex(ms: seq<UnifiedMarket>): (k: nat)
    requires |ms| >= 1
    ensures k < |ms|
  {
    if |ms| == 1 then 0
    else
      var k := ShortestIndex(ms[..|ms| - 1]);
      if |ms[|ms| - 1].question| < |ms[k].question| then |ms| - 1 else k
  }

  /** The fallback name is a shortest question, and the first of them. */
  lemma {:induction false} ShortestIndexIsFirstShortest(ms: seq<UnifiedMarket>)
    requires |ms| >= 1
    ensures forall j :: 0 <= j < |ms| ==> |ms[ShortestIndex(ms)].question| <= |ms[j].question|
    ensures forall j :: 0 <= j < ShortestIndex(ms) ==> |ms[j].question| > |ms[ShortestIndex(ms)].question|
  {
    if |ms| > 1 {
      var init := ms[..|ms| - 1];
      ShortestIndexIsFirstShortest(init);
      assert forall j :: 0 <= j < |init| ==> init[j] == ms[j];
    }
  }

  /** What `extractGroupName` returns. */
  function GroupName(ms: seq<UnifiedMarket>): string
  {
    if |ms| == 0 then "Unknown"
    else if |ms| == 1 then ms[0].question
    else
      var common := TermsOf(CommonEntries(ms));
      if common == [] then ms[ShortestIndex(ms)].question
      else Join(CapitalizeAll(common), " ")
  }

  /** `termCounts` as a list of keys in insertion order and a map: the keys are the distinct
      terms seen so far and each count is the number of times its term was seen. */
  ghost predicate Counted(keys: seq<string>, counts: map<string, nat>, seen: seq<string>)
  {
    && keys == Distinct(seen)
    && (forall t :: t in counts <==> t in keys)
    && (forall t :: t in counts ==> counts[t] == Occurrences(seen, t))
  }

  /** Counting one more term `t`: `next` is what has been seen once `t` is counted. */
  lemma CountedStep(keys: seq<string>, counts: map<string, nat>, seen: seq<string>, t: string, next: seq<string>)
    requires Counted(keys, counts, seen) && next == seen + [t]
    ensures var c := if t in counts then counts[t] else 0;
      Counted(if t in counts then keys else keys + [t], counts[t := c + 1], next)
  {
    assert next[..|next| - 1] == seen;
    var c := if t in counts then counts[t] else 0;
    var counts' := counts[t := c + 1];
    var keys' := if t in counts then keys else keys + [t];
    assert keys' == Distinct(next);
    forall u
      ensures u in counts' <==> u in keys'
    {
    }
    if t !in counts {
      DistinctElements(seen);
      assert t !in seen;
      OccurrencesPositive(seen, t);
    }
    forall u | u in counts'
      ensures counts'[u] == Occurrences(next, u)
    {
      assert Occurrences(next, u) == Occurrences(seen, u) + (if t == u then 1 else 0);
    }
    assert Counted(keys', counts', next);
  }

  /** Counting the next term of a list. */
  lemma CountedNext(keys: seq<string>, counts: map<string, nat>, seen: seq<string>, terms: seq<string>, j: nat)
    requires j < |terms| && Counted(keys, counts, seen + terms[..j])
    ensures var t := terms[j];
      var c := if t in counts then counts[t] else 0;
      Counted(if t in counts then keys else keys + [t], counts[t := c + 1], seen + terms[..j + 1])
  {
    SnocSlice(seen, terms, j);
    CountedStep(keys, counts, seen + terms[..j], terms[j], seen + terms[..j + 1]);
  }

  lemma SnocSlice<T>(a: seq<T>, b: seq<T>, j: nat)
    requires j < |b|
    ensures a + b[..j + 1] == a + b[..j] + [b[j]]
  {
    assert b[..j + 1] == b[..j] + [b[j]];
  }

  /** The inner counting loop of `extractGroupName`: counts the terms of one question. */
  method CountEach(keys0: seq<string>, counts0: map<string, nat>, ghost seen: seq<string>, terms: seq<string>)
    returns (keys: seq<string>, counts: map<string, nat>)
    requires Counted(keys0, counts0, seen)
    ensures Counted(keys, counts, seen + terms)
  {
    keys, counts := keys0, counts0;
    assert seen + terms[..0] == seen;
    for j := 0 to |terms|
      invariant Counted(keys, counts, seen + terms[..j])
    {
      var term := terms[j];
      var c := if term in counts then counts[term] else 0;
      var keys' := if term in counts then keys else keys + [term];
      var counts' := counts[term := c + 1];
      CountedNext(keys, counts, seen, terms, j);
      assert Counted(keys', counts', seen + terms[..j + 1]);
      keys, counts := keys', counts';
    }
    assert terms[..|terms|] == terms;
  }

  /** The counting loops of `extractGroupName`: `termCounts` after every term of every
      question has been counted. */
  method CountTerms(markets: seq<UnifiedMarket>) returns (keys: seq<string>, counts: map<string, nat>)
    ensures Counted(keys, counts, AllTerms(markets))
  {
    keys, counts := [], map[];
    for i := 0 to |markets|
      invariant Counted(keys, counts, AllTerms(markets[..i]))
    {
      var terms := GroupTerms(markets[i].question);
      assert markets[..i + 1][..i] == markets[..i];
      keys, counts := CountEach(keys, counts, AllTerms(markets[..i]), terms);
    }
    assert markets[..|markets|] == markets;
  }

  /** The `reduce` of the fallback: the first of the shortest questions. */
  method ShortestQuestion(markets: seq<UnifiedMarket>) returns (shortest: string)
    requires |markets| >= 1
    ensures shortest == markets[ShortestIndex(markets)].question
  {
    shortest := markets[0].question;
    ghost var pick := 0;
    for i := 0 to |markets|
      invariant i == 0 ==> pick == 0
      invariant i > 0 ==> pick == ShortestIndex(markets[..i])
      invariant pick < |markets| && shortest == markets[pick].question
    {
      assert markets[..i + 1][..i] == markets[..i];
      if |markets[i].question| < |shortest| {
        shortest := markets[i].question;
        pick := i;
      }
    }
    assert markets[..|markets|] == markets;
  }

  /** `extractGroupName`: counts the terms of all questions in a map, keeps the terms met at
      least `ceil(n / 2)` times, most frequent first (ties in the order in which the terms
      were first met), at most five, capitalised and joined by spaces; without such a term,
      the first shortest question. */
  method ExtractGroupName(markets: seq<UnifiedMarket>) returns (name: string)
    ensures name == GroupName(markets)
  {
    if |markets| == 0 {
      return "Unknown";
    }
    if |markets| == 1 {
      return markets[0].question;
    }
    var keys, counts := CountTerms(markets);
    var entries := seq(|keys|, k requires 0 <= k < |keys| && keys[k] in counts => (keys[k], counts[keys[k]]));
    assert entries == Entries(AllTerms(markets));
    var threshold := Ceil(|markets| as real * 0.5);
    var common := TermsOf(Take(SortDesc(AtLeast(entries, threshold), EntryCount), 5));
    if |common| == 0 {
      name := ShortestQuestion(markets);
    } else {
      name := Join(CapitalizeAll(common), " ");
    }
  }

  /** The common terms: at most five, each counted at least `ceil(n / 2)` times across the
      questions, most frequent first. */
  lemma CommonEntriesQualify(ms: seq<UnifiedMarket>)
    ensures |CommonEntries(ms)| <= 5
    ensures SortedDesc(CommonEntries(ms), EntryCount)
    ensures forall k :: 0 <= k < |CommonEntries(ms)| ==>
      CommonEntries(ms)[k].1 == Occurrences(AllTerms(ms), CommonEntries(ms)[k].0)
      && CommonEntries(ms)[k].1 >= (|ms| + 1) / 2
  {
    HalfCeil(|ms|);
    var all := AllTerms(ms);
    var q := Candidates(ms);
    var s := SortDesc(q, EntryCount);
    var c := Take(s, 5);
    TakeSorted(s, EntryCount, |c|);
    forall k | 0 <= k < |c|
      ensures c[k].1 == Occurrences(all, c[k].0) && c[k].1 >= (|ms| + 1) / 2
    {
      assert c[k] == s[k];
      assert s[k] in multiset(q);
      AtLeastMembers(Entries(all), Ceil(|ms| as real * 0.5), s[k]);
      EntryIsCounted(all, s[k]);
    }
  }

  /** Every entry holds the number of occurrences of its term. */
  lemma EntryIsCounted(all: seq<string>, e: (string, nat))
    requires e in Entries(all)
    ensures e.1 == Occurrences(all, e.0)
  {
    var i :| 0 <= i < |Entries(all)| && Entries(all)[i] == e;
  }

  /** A term that reaches the threshold but is not among the common terms is crowded out:
      five terms were kept, and each is counted at least as often as it. */
  lemma CommonEntriesAreMostFrequent(ms: seq<UnifiedMarket>, t: string)
    requires t in AllTerms(ms) && Occurrences(AllTerms(ms), t) >= (|ms| + 1) / 2
    requires t !in TermsOf(CommonEntries(ms))
    ensures |CommonEntries(ms)| == 5
    ensures forall k :: 0 <= k < 5 ==> CommonEntries(ms)[k].1 >= Occurrences(AllTerms(ms), t)
  {
    HalfCeil(|ms|);
    var all := AllTerms(ms);
    var e := (t, Occurrences(all, t));
    DistinctElements(all);
    var i :| 0 <= i < |Distinct(all)| && Distinct(all)[i] == t;
    assert Entries(all)[i] == e;
    AtLeastMembers(Entries(all), Ceil(|ms| as real * 0.5), e);
    var common := CommonEntries(ms);
    forall k | 0 <= k < |common|
      ensures common[k] != e
    {
      assert TermsOf(common)[k] != t;
    }
    CrowdedOut(Candidates(ms), e);
  }

  /** An entry that the cut at five leaves out follows five entries counted at least as
      often. */
  lemma CrowdedOut(q: seq<(string, nat)>, e: (string, nat))
    requires e in q && e !in Take(SortDesc(q, EntryCount), 5)
    ensures |Take(SortDesc(q, EntryCount), 5)| == 5
    ensures forall k :: 0 <= k < 5 ==> Take(SortDesc(q, EntryCount), 5)[k].1 >= e.1
  {
    var s := SortDesc(q, EntryCount);
    assert e in multiset(s);
    var p :| 0 <= p < |s| && s[p] == e;
    var c := Take(s, 5);
    assert p >= |c|;
    forall k | 0 <= k < 5
      ensures c[k].1 >= e.1
    {
      assert EntryCount(s[k]) >= EntryCount(s[p]);
    }
  }

  /** The common terms are empty exactly when no term is counted `ceil(n / 2)` times. */
  lemma CommonEntriesEmptyIff(ms: seq<UnifiedMarket>)
    ensures CommonEntries(ms) == [] <==>
      forall t :: t in AllTerms(ms) ==> Occurrences(AllTerms(ms), t) < (|ms| + 1) / 2
  {
    if CommonEntries(ms) == [] {
      forall t | t in AllTerms(ms)
        ensures Occurrences(AllTerms(ms), t) < (|ms| + 1) / 2
      {
        NoCommonTermReachesThreshold(ms, t);
      }
    } else {
      SomeCommonTermReachesThreshold(ms);
    }
  }

  lemma SomeCommonTermReachesThreshold(ms: seq<UnifiedMarket>)
    requires CommonEntries(ms) != []
    ensures exists t :: t in AllTerms(ms) && Occurrences(AllTerms(ms), t) >= (|ms| + 1) / 2
  {
    var first := CommonEntries(ms)[0];
    CommonEntriesQualify(ms);
    OccurrencesPositive(AllTerms(ms), first.0);
  }

  lemma NoCommonTermReachesThreshold(ms: seq<UnifiedMarket>, t: string)
    requires CommonEntries(ms) == [] && t in AllTerms(ms)
    ensures Occurrences(AllTerms(ms), t) < (|ms| + 1) / 2
  {
    if Occurrences(AllTerms(ms), t) >= (|ms| + 1) / 2 {
      assert TermsOf(CommonEntries(ms)) == [];
      CommonEntriesAreMostFrequent(ms, t);
    }
  }

  /** The filter keeps the order of the entries it lets through. */
  lemma {:induction false} AtLeastKeepsOrder(entries: seq<(string, nat)>, threshold: int, i: nat, j: nat)
    requires i < j < |AtLeast(entries, threshold)|
    ensures exists i', j' :: (0 <= i' < j' < |entries|
      && entries[i'] == AtLeast(entries, threshold)[i] && entries[j'] == AtLeast(entries, threshold)[j])
  {
    var r := AtLeast(entries, threshold);
    var rest := AtLeast(entries[1..], threshold);
    if entries[0].1 >= threshold {
      assert r == [entries[0]] + rest;
      if i == 0 {
        AtLeastMembers(entries[1..], threshold, rest[j - 1]);
        var j' :| 0 <= j' < |entries[1..]| && entries[1..][j'] == rest[j - 1];
        assert entries[0] == r[i] && entries[j' + 1] == r[j];
      } else {
        AtLeastKeepsOrder(entries[1..], threshold, i - 1, j - 1);
        var i', j' :| 0 <= i' < j' < |entries[1..]|
          && entries[1..][i'] == rest[i - 1] && entries[1..][j'] == rest[j - 1];
        assert entries[i' + 1] == r[i] && entries[j' + 1] == r[j];
      }
    } else {
      assert r == rest;
      AtLeastKeepsOrder(entries[1..], threshold, i, j);
      var i', j' :| 0 <= i' < j' < |entries[1..]|
        && entries[1..][i'] == rest[i] && entries[1..][j'] == rest[j];
      assert entries[i' + 1] == r[i] && entries[j' + 1] == r[j];
    }
  }

  /** The candidates list their terms in the order in which the terms were first met; the
      stable sort (`Sorting.SortDescIsStable`) keeps that order among equal counts. */
  lemma CandidatesInFirstSeenOrder(ms: seq<UnifiedMarket>, i: nat, j: nat)
    requires i < j < |Candidates(ms)|
    ensures Candidates(ms)[i].0 in AllTerms(ms) && Candidates(ms)[j].0 in AllTerms(ms)
    ensures FirstIndex(AllTerms(ms), Candidates(ms)[i].0) < FirstIndex(AllTerms(ms), Candidates(ms)[j].0)
  {
    var all := AllTerms(ms);
    AtLeastKeepsOrder(Entries(all), Ceil(|ms| as real * 0.5), i, j);
    var i', j' :| 0 <= i' < j' < |Entries(all)|
      && Entries(all)[i'] == Candidates(ms)[i] && Entries(all)[j'] == Candidates(ms)[j];
    DistinctKeepsFirstSeenOrder(all, i', j');
  }

  /** Without common terms, the name is a question of the group no longer than any other. */
  lemma GroupNameFallback(ms: seq<UnifiedMarket>)
    requires |ms| >= 2 && CommonEntries(ms) == []
    ensures exists k :: 0 <= k < |ms| && GroupName(ms) == ms[k].question
    ensures forall k :: 0 <= k < |ms| ==> |GroupName(ms)| <= |ms[k].question|
  {
    ShortestIndexIsFirstShortest(ms);
    assert TermsOf(CommonEntries(ms)) == [];
  }

  // ------------------------------------------------------------------------------------
  // groupMarketsByEvent
  // ------------------------------------------------------------------------------------

  /** No two markets share an id. */
  predicate UniqueIds(ms: seq<UnifiedMarket>)
  {
    forall i, j :: 0 <= i < j < |ms| ==> ms[i].id != ms[j].id
  }

  /** `termsMap` once every market is entered: a later market with the same id replaces the
      terms of an earlier one. */
  function TermsById(ms: seq<UnifiedMarket>): map<string, seq<string>>
  {
    if ms == [] then map[]
    else TermsById(ms[..|ms| - 1])[ms[|ms| - 1].id := GroupTerms(ms[|ms| - 1].question)]
  }

  /** With distinct ids, the map holds the terms of each market's own question. */
  lemma {:induction false} TermsByIdOfUniqueIds(ms: seq<UnifiedMarket>, i: nat)
    requires UniqueIds(ms) && i < |ms|
    ensures ms[i].id in TermsById(ms) && TermsById(ms)[ms[i].id] == GroupTerms(ms[i].question)
  {
    if i < |ms| - 1 {
      var init := ms[..|ms| - 1];
      assert init[i] == ms[i];
      TermsByIdOfUniqueIds(init, i);
    }
  }

  /** `termsMap.get(id) || []` (an array, even an empty one, is truthy). */
  function Lookup(termsMap: map<string, seq<string>>, id: string): seq<string>
  {
    if id in termsMap then termsMap[id] else []
  }

  /** The first loop of `groupMarketsByEvent`. */
  method BuildTermsMap(markets: seq<UnifiedMarket>) returns (termsMap: map<string, seq<string>>)
    ensures termsMap == TermsById(markets)
  {
    termsMap := map[];
    for i := 0 to |markets|
      invariant termsMap == TermsById(markets[..i])
    {
      assert markets[..i + 1][..i] == markets[..i];
      termsMap := termsMap[markets[i].id := GroupTerms(markets[i].question)];
    }
    assert markets[..|markets|] == markets;
  }

  /** A cluster as the inner loop gathers it: markets of the input, its seed first, the
      others of the seed's category and at least `threshold`-similar to the seed. */
  ghost predicate Related(r: seq<UnifiedMarket>, markets: seq<UnifiedMarket>,
                          termsMap: map<string, seq<string>>, threshold: real)
  {
    && |r| >= 1
    && (forall k :: 0 <= k < |r| ==> r[k] in markets)
    && (forall k :: 1 <= k < |r| ==> r[k].category == r[0].category)
    && (forall k :: 1 <= k < |r| ==>
          Jaccard(Lookup(termsMap, r[0].id), Lookup(termsMap, r[k].id)) >= threshold)
  }

  /** The group pushed for a cluster: a summary when it has several markets, the seed alone
      otherwise. The name is computed before the markets are sorted in place. */
  function GroupOf(r: seq<UnifiedMarket>): EventGroup
    requires |r| >= 1
  {
    var seed := r[0];
    if |r| >= 2 then
      EventGroup("group-" + seed.id, GroupName(r), SortDesc(r, Volume), SumOf(r, Volume),
                 SumOf(r, Probability) / (|r| as real), Distinct(Platforms(r)), seed.category)
    else
      EventGroup("single-" + seed.id, seed.question, r, seed.volume, seed.probability,
                 [seed.platform], seed.category)
  }

  /** A group holds its cluster, by decreasing volume; its total and mean are those of its
      markets; its platforms are theirs, each once; it has the category of all of them. */
  lemma GroupOfSummarises(r: seq<UnifiedMarket>)
    requires |r| >= 1
    requires forall k :: 1 <= k < |r| ==> r[k].category == r[0].category
    ensures multiset(GroupOf(r).markets) == multiset(r)
    ensures SortedDesc(GroupOf(r).markets, Volume)
    ensures GroupOf(r).totalVolume == SumOf(GroupOf(r).markets, Volume)
    ensures GroupOf(r).avgProbability == SumOf(GroupOf(r).markets, Probability) / (|GroupOf(r).markets| as real)
    ensures forall m :: m in GroupOf(r).markets ==> m.category == GroupOf(r).category
    ensures NoDuplicates(GroupOf(r).platforms)
    ensures forall p :: p in GroupOf(r).platforms <==> exists m :: m in GroupOf(r).markets && m.platform == p
  {
    var g := GroupOf(r);
    if |r| >= 2 {
      SummaryOf(r, g.markets, g.totalVolume, g.avgProbability, g.platforms);
    } else {
      assert r == [r[0]];
      assert SumOf(r, Volume) == r[0].volume + SumOf([], Volume);
      assert SumOf(r, Probability) == r[0].probability + SumOf([], Probability);
    }
  }

  /** The summary of a cluster of several markets. */
  lemma SummaryOf(r: seq<UnifiedMarket>, markets: seq<UnifiedMarket>, total: real, avg: real,
                  platforms: seq<Platform>)
    requires |r| >= 2 && forall k :: 1 <= k < |r| ==> r[k].category == r[0].category
    requires markets == SortDesc(r, Volume) && total == SumOf(r, Volume)
    requires avg == SumOf(r, Probability) / (|r| as real) && platforms == Distinct(Platforms(r))
    ensures multiset(markets) == multiset(r) && SortedDesc(markets, Volume)
    ensures total == SumOf(markets, Volume)
    ensures avg == SumOf(markets, Probability) / (|markets| as real)
    ensures forall m :: m in markets ==> m.category == r[0].category
    ensures NoDuplicates(platforms)
    ensures forall p :: p in platforms <==> exists m :: m in markets && m.platform == p
  {
    SumOfPermutation(markets, r, Volume);
    SumOfPermutation(markets, r, Probability);
    forall m | m in markets
      ensures m.category == r[0].category
    {
      assert m in multiset(r);
    }
    PlatformsOfPermutation(r, markets);
  }

  /** The distinct platforms of a cluster are those of any reordering of it. */
  lemma PlatformsOfPermutation(r: seq<UnifiedMarket>, markets: seq<UnifiedMarket>)
    requires multiset(markets) == multiset(r)
    ensures NoDuplicates(Distinct(Platforms(r)))
    ensures forall p :: p in Distinct(Platforms(r)) <==> exists m :: m in markets && m.platform == p
  {
    var ps := Platforms(r);
    DistinctElements(ps);
    forall p
      ensures p in Distinct(ps) <==> exists m :: m in markets && m.platform == p
    {
      if p in Distinct(ps) {
        var k :| 0 <= k < |r| && ps[k] == p;
        assert r[k] in multiset(markets);
      }
      if exists m :: m in markets && m.platform == p {
        var m :| m in markets && m.platform == p;
        assert m in multiset(r);
        var k :| 0 <= k < |r| && r[k] == m;
        assert ps[k] == p;
      }
    }
  }

  /** The markets of `ms` whose id is in `ids`, in order. */
  function WithIdIn(ms: seq<UnifiedMarket>, ids: set<string>): seq<UnifiedMarket>
  {
    if ms == [] then [] else (if ms[0].id in ids then [ms[0]] else []) + WithIdIn(ms[1..], ids)
  }

  /** No market but `ms[j]` has the id of `ms[j]`. */
  predicate IdOnlyAt(ms: seq<UnifiedMarket>, j: nat)
    requires j < |ms|
  {
    forall k :: 0 <= k < |ms| && k != j ==> ms[k].id != ms[j].id
  }

  lemma UniqueIdOnlyAt(ms: seq<UnifiedMarket>, j: nat)
    requires j < |ms|
    ensures UniqueIds(ms) ==> IdOnlyAt(ms, j)
  {
  }

  /** Assigning the id of one more market selects that market too. */
  lemma {:induction false} WithIdInAdd(ms: seq<UnifiedMarket>, ids: set<string>, j: nat)
    requires j < |ms| && ms[j].id !in ids
    ensures IdOnlyAt(ms, j) ==>
      multiset(WithIdIn(ms, ids + {ms[j].id})) == multiset(WithIdIn(ms, ids)) + multiset{ms[j]}
  {
    if IdOnlyAt(ms, j) {
      var x := ms[j].id;
      var rest := ms[1..];
      if j == 0 {
        assert forall k :: 0 <= k < |rest| ==> rest[k] == ms[k + 1];
        WithIdInIgnores(rest, ids, x);
      } else {
        assert rest[j - 1] == ms[j];
        assert forall k :: 0 <= k < |rest| && k != j - 1 ==> rest[k] == ms[k + 1];
        assert IdOnlyAt(rest, j - 1);
        WithIdInAdd(rest, ids, j - 1);
      }
    }
  }

  lemma {:induction false} WithIdInIgnores(ms: seq<UnifiedMarket>, ids: set<string>, x: string)
    requires forall k :: 0 <= k < |ms| ==> ms[k].id != x
    ensures WithIdIn(ms, ids + {x}) == WithIdIn(ms, ids)
  {
    if ms != [] {
      WithIdInIgnores(ms[1..], ids, x);
    }
  }

  lemma {:induction false} WithIdInAll(ms: seq<UnifiedMarket>, ids: set<string>)
    requires forall k :: 0 <= k < |ms| ==> ms[k].id in ids
    ensures WithIdIn(ms, ids) == ms
  {
    if ms != [] {
      WithIdInAll(ms[1..], ids);
      assert ms == [ms[0]] + ms[1..];
    }
  }

  lemma {:induction false} WithIdInNone(ms: seq<UnifiedMarket>)
    ensures WithIdIn(ms, {}) == []
  {
    if ms != [] {
      WithIdInNone(ms[1..]);
    }
  }

  /** With distinct ids, the markets whose ids are assigned are those assigned before and
      those of the cluster. */
  ghost predicate Accounted(markets: seq<UnifiedMarket>, ids: set<string>, ids0: set<string>,
                            related: seq<UnifiedMarket>)
  {
    UniqueIds(markets) ==>
      multiset(WithIdIn(markets, ids)) == multiset(WithIdIn(markets, ids0)) + multiset(related)
  }

  /** The test of the inner loop: `other` is not assigned yet, has the seed's category and
      its terms are at least `threshold`-similar to the seed's. */
  predicate Joins(other: UnifiedMarket, seed: UnifiedMarket, ids: set<string>,
                  termsMap: map<string, seq<string>>, threshold: real)
  {
    && other.id !in ids
    && other.category == seed.category
    && Jaccard(Lookup(termsMap, seed.id), Lookup(termsMap, other.id)) >= threshold
  }

  /** The inner loop run from position `j` on around `seed` while the ids in `ids` are
      assigned: the markets it takes, in order, and the ids assigned when it ends. */
  function Sweep(markets: seq<UnifiedMarket>, seed: UnifiedMarket, j: nat, ids: set<string>,
                 termsMap: map<string, seq<string>>, threshold: real): (seq<UnifiedMarket>, set<string>)
    decreases |markets| - j
  {
    if j >= |markets| then ([], ids)
    else if Joins(markets[j], seed, ids, termsMap, threshold) then
      var rest := Sweep(markets, seed, j + 1, ids + {markets[j].id}, termsMap, threshold);
      ([markets[j]] + rest.0, rest.1)
    else Sweep(markets, seed, j + 1, ids, termsMap, threshold)
  }

  /** A sweep takes only markets from position `j` on that pass the test against the ids
      assigned when it starts; it only adds ids. */
  lemma {:induction false} SweepSound(markets: seq<UnifiedMarket>, seed: UnifiedMarket, j: nat,
                                      ids: set<string>, termsMap: map<string, seq<string>>, threshold: real)
    ensures ids <= Sweep(markets, seed, j, ids, termsMap, threshold).1
    ensures forall x :: x in Sweep(markets, seed, j, ids, termsMap, threshold).0 ==>
      exists k :: j <= k < |markets| && markets[k] == x && Joins(markets[k], seed, ids, termsMap, threshold)
    decreases |markets| - j
  {
    if j < |markets| {
      var swept := Sweep(markets, seed, j, ids, termsMap, threshold);
      if Joins(markets[j], seed, ids, termsMap, threshold) {
        var ids' := ids + {markets[j].id};
        SweepSound(markets, seed, j + 1, ids', termsMap, threshold);
        forall x | x in swept.0
          ensures exists k :: j <= k < |markets| && markets[k] == x && Joins(markets[k], seed, ids, termsMap, threshold)
        {
          if x != markets[j] {
            var k :| j + 1 <= k < |markets| && markets[k] == x && Joins(markets[k], seed, ids', termsMap, threshold);
            assert Joins(markets[k], seed, ids, termsMap, threshold);
          }
        }
      } else {
        SweepSound(markets, seed, j + 1, ids, termsMap, threshold);
      }
    }
  }

  /** With distinct ids, a sweep takes every market from position `j` on that passes the test
      against the ids assigned when it starts. */
  lemma {:induction false} SweepComplete(markets: seq<UnifiedMarket>, seed: UnifiedMarket, j: nat,
                                         ids: set<string>, termsMap: map<string, seq<string>>, threshold: real)
    requires UniqueIds(markets)
    ensures forall k :: j <= k < |markets| && Joins(markets[k], seed, ids, termsMap, threshold) ==>
      markets[k] in Sweep(markets, seed, j, ids, termsMap, threshold).0
    decreases |markets| - j
  {
    if j < |markets| {
      if Joins(markets[j], seed, ids, termsMap, threshold) {
        var ids' := ids + {markets[j].id};
        SweepComplete(markets, seed, j + 1, ids', termsMap, threshold);
        forall k | j + 1 <= k < |markets| && Joins(markets[k], seed, ids, termsMap, threshold)
          ensures Joins(markets[k], seed, ids', termsMap, threshold)
        {
          assert markets[k].id != markets[j].id;
        }
      } else {
        SweepComplete(markets, seed, j + 1, ids, termsMap, threshold);
      }
    }
  }

  /** `x` is a market after the seed `markets[i]` that passes the test against `ids`. */
  ghost predicate TakenLater(markets: seq<UnifiedMarket>, i: nat, x: UnifiedMarket, ids: set<string>,
                             termsMap: map<string, seq<string>>, threshold: real)
    requires i < |markets|
  {
    exists j :: i < j < |markets| && markets[j] == x && Joins(markets[j], markets[i], ids, termsMap, threshold)
  }

  /** The inner loop of `groupMarketsByEvent`: gathers around the seed `markets[i]` every
      later unassigned market of its category that is similar enough, assigning them. */
  method Gather(markets: seq<UnifiedMarket>, i: nat, assignedIds0: set<string>,
                termsMap: map<string, seq<string>>, threshold: real)
    returns (related: seq<UnifiedMarket>, assignedIds: set<string>)
    requires i < |markets| && markets[i].id !in assignedIds0
    ensures Related(related, markets, termsMap, threshold) && related[0] == markets[i]
    ensures assignedIds0 + {markets[i].id} <= assignedIds
    ensures Accounted(markets, assignedIds, assignedIds0, related)
    ensures forall k :: 1 <= k < |related| ==>
      TakenLater(markets, i, related[k], assignedIds0 + {markets[i].id}, termsMap, threshold)
    ensures UniqueIds(markets) ==>
      forall j :: i < j < |markets| && Joins(markets[j], markets[i], assignedIds0, termsMap, threshold) ==>
        markets[j] in related
    ensures (related[1..], assignedIds) ==
      Sweep(markets, markets[i], i + 1, assignedIds0 + {markets[i].id}, termsMap, threshold)
  {
    var market := markets[i];
    var terms := Lookup(termsMap, market.id);
    related := [market];
    assignedIds := assignedIds0 + {market.id};
    ghost var whole := Sweep(markets, market, i + 1, assignedIds, termsMap, threshold);
    assert related[1..] == [];
    for j := i + 1 to |markets|
      invariant SweptSoFar(markets, market, j, assignedIds, related, whole, termsMap, threshold)
      invariant related[0] == market
    {
      var other := markets[j];
      if other.id in assignedIds {
        SweepPass(markets, market, j, assignedIds, related, whole, termsMap, threshold);
        continue;
      }
      if market.category != other.category {
        SweepPass(markets, market, j, assignedIds, related, whole, termsMap, threshold);
        continue;
      }
      var otherTerms := Lookup(termsMap, other.id);
      var similarity := CalculateSimilarity(terms, otherTerms);
      if similarity < threshold {
        SweepPass(markets, market, j, assignedIds, related, whole, termsMap, threshold);
      } else {
        SweepTake(markets, market, j, assignedIds, related, whole, termsMap, threshold);
        related := related + [other];
        assignedIds := assignedIds + {other.id};
      }
    }
    GatherDone(markets, i, assignedIds0, assignedIds, related, whole, termsMap, threshold);
  }

  /** What the whole sweep of `Gather` took: later markets that passed the test, and, with
      distinct ids, all of them. */
  lemma GatherDone(markets: seq<UnifiedMarket>, i: nat, ids0: set<string>, ids: set<string>,
                   related: seq<UnifiedMarket>, whole: (seq<UnifiedMarket>, set<string>),
                   termsMap: map<string, seq<string>>, threshold: real)
    requires i < |markets|
    requires whole == Sweep(markets, markets[i], i + 1, ids0 + {markets[i].id}, termsMap, threshold)
    requires markets[i].id !in ids0 && |related| >= 1 && related[0] == markets[i]
    requires SweptSoFar(markets, markets[i], |markets|, ids, related, whole, termsMap, threshold)
    ensures Related(related, markets, termsMap, threshold) && related[0] == markets[i]
    ensures ids0 + {markets[i].id} <= ids
    ensures Accounted(markets, ids, ids0, related)
    ensures forall k :: 1 <= k < |related| ==>
      TakenLater(markets, i, related[k], ids0 + {markets[i].id}, termsMap, threshold)
    ensures UniqueIds(markets) ==>
      forall j :: i < j < |markets| && Joins(markets[j], markets[i], ids0, termsMap, threshold) ==>
        markets[j] in related
    ensures (related[1..], ids) == Sweep(markets, markets[i], i + 1, ids0 + {markets[i].id}, termsMap, threshold)
  {
    SweepDone(markets, markets[i], ids, related, whole, termsMap, threshold);
    GatherAll(markets, i, ids0, related, whole, termsMap, threshold);
    SweepSound(markets, markets[i], i + 1, ids0 + {markets[i].id}, termsMap, threshold);
    forall k | 1 <= k < |related|
      ensures TakenLater(markets, i, related[k], ids0 + {markets[i].id}, termsMap, threshold)
    {
      assert related[k] == related[1..][k - 1];
      assert related[k] in whole.0;
      var j :| i + 1 <= j < |markets| && markets[j] == related[k]
               && Joins(markets[j], markets[i], ids0 + {markets[i].id}, termsMap, threshold);
    }
    TakenRelated(markets, i, related, ids0 + {markets[i].id}, termsMap, threshold);
    if UniqueIds(markets) {
      SweepAccounted(markets, markets[i], i + 1, ids0 + {markets[i].id}, termsMap, threshold);
    }
    GatherAccounted(markets, i, ids0, ids, related);
  }

  /** With distinct ids, the ids `Gather` assigns select the markets assigned before and
      those of its cluster. */
  lemma GatherAccounted(markets: seq<UnifiedMarket>, i: nat, ids0: set<string>, ids: set<string>,
                        related: seq<UnifiedMarket>)
    requires i < |markets| && markets[i].id !in ids0 && |related| >= 1 && related[0] == markets[i]
    requires UniqueIds(markets) ==>
      multiset(WithIdIn(markets, ids)) == multiset(WithIdIn(markets, ids0 + {markets[i].id})) + multiset(related[1..])
    ensures Accounted(markets, ids, ids0, related)
  {
    if UniqueIds(markets) {
      UniqueIdOnlyAt(markets, i);
      WithIdInAdd(markets, ids0, i);
      assert related == [markets[i]] + related[1..];
      assert multiset(related) == multiset{markets[i]} + multiset(related[1..]);
    }
  }

  /** A seed followed by markets taken after it forms a cluster. */
  lemma TakenRelated(markets: seq<UnifiedMarket>, i: nat, related: seq<UnifiedMarket>, ids: set<string>,
                     termsMap: map<string, seq<string>>, threshold: real)
    requires i < |markets| && |related| >= 1 && related[0] == markets[i]
    requires forall k :: 1 <= k < |related| ==> TakenLater(markets, i, related[k], ids, termsMap, threshold)
    ensures Related(related, markets, termsMap, threshold)
  {
    forall k | 1 <= k < |related|
      ensures related[k] in markets && related[k].category == related[0].category
      ensures Jaccard(Lookup(termsMap, related[0].id), Lookup(termsMap, related[k].id)) >= threshold
    {
      assert TakenLater(markets, i, related[k], ids, termsMap, threshold);
    }
  }

  /** With distinct ids, the ids a sweep assigns select exactly the markets it takes. */
  lemma {:induction false} SweepAccounted(markets: seq<UnifiedMarket>, seed: UnifiedMarket, j: nat,
                                          ids: set<string>, termsMap: map<string, seq<string>>, threshold: real)
    requires UniqueIds(markets)
    ensures multiset(WithIdIn(markets, Sweep(markets, seed, j, ids, termsMap, threshold).1))
         == multiset(WithIdIn(markets, ids)) + multiset(Sweep(markets, seed, j, ids, termsMap, threshold).0)
    decreases |markets| - j
  {
    if j < |markets| {
      if Joins(markets[j], seed, ids, termsMap, threshold) {
        SweepAccounted(markets, seed, j + 1, ids + {markets[j].id}, termsMap, threshold);
        UniqueIdOnlyAt(markets, j);
        WithIdInAdd(markets, ids, j);
      } else {
        SweepAccounted(markets, seed, j + 1, ids, termsMap, threshold);
      }
    }
  }

  /** With distinct ids, `Gather` took every later market that passed the test against the
      ids assigned before it. */
  lemma GatherAll(markets: seq<UnifiedMarket>, i: nat, ids0: set<string>, related: seq<UnifiedMarket>,
                  whole: (seq<UnifiedMarket>, set<string>), termsMap: map<string, seq<string>>, threshold: real)
    requires i < |markets| && |related| >= 1
    requires whole == Sweep(markets, markets[i], i + 1, ids0 + {markets[i].id}, termsMap, threshold)
    requires related[1..] == whole.0
    ensures UniqueIds(markets) ==>
      forall j :: i < j < |markets| && Joins(markets[j], markets[i], ids0, termsMap, threshold) ==>
        markets[j] in related
  {
    SweptAllJoining(markets, i, ids0, termsMap, threshold);
    if UniqueIds(markets) {
      forall j | i < j < |markets| && Joins(markets[j], markets[i], ids0, termsMap, threshold)
        ensures markets[j] in related
      {
        assert markets[j] in related[1..];
      }
    }
  }

  /** The loop state of `Gather` at position `j`: the markets taken so far, followed by what
      the rest of the sweep takes, are what the whole sweep takes. */
  ghost predicate SweptSoFar(markets: seq<UnifiedMarket>, seed: UnifiedMarket, j: nat, ids: set<string>,
                             related: seq<UnifiedMarket>, whole: (seq<UnifiedMarket>, set<string>),
                             termsMap: map<string, seq<string>>, threshold: real)
  {
    && |related| >= 1
    && related[1..] + Sweep(markets, seed, j, ids, termsMap, threshold).0 == whole.0
    && Sweep(markets, seed, j, ids, termsMap, threshold).1 == whole.1
  }

  lemma SweepDone(markets: seq<UnifiedMarket>, seed: UnifiedMarket, ids: set<string>,
                  related: seq<UnifiedMarket>, whole: (seq<UnifiedMarket>, set<string>),
                  termsMap: map<string, seq<string>>, threshold: real)
    requires SweptSoFar(markets, seed, |markets|, ids, related, whole, termsMap, threshold)
    ensures related[1..] == whole.0 && ids == whole.1
  {
    assert related[1..] + [] == related[1..];
  }

  lemma SweepPass(markets: seq<UnifiedMarket>, seed: UnifiedMarket, j: nat, ids: set<string>,
                  related: seq<UnifiedMarket>, whole: (seq<UnifiedMarket>, set<string>),
                  termsMap: map<string, seq<string>>, threshold: real)
    requires j < |markets| && !Joins(markets[j], seed, ids, termsMap, threshold)
    requires SweptSoFar(markets, seed, j, ids, related, whole, termsMap, threshold)
    ensures SweptSoFar(markets, seed, j + 1, ids, related, whole, termsMap, threshold)
  {
  }

  lemma SweepTake(markets: seq<UnifiedMarket>, seed: UnifiedMarket, j: nat, ids: set<string>,
                  related: seq<UnifiedMarket>, whole: (seq<UnifiedMarket>, set<string>),
                  termsMap: map<string, seq<string>>, threshold: real)
    requires j < |markets| && Joins(markets[j], seed, ids, termsMap, threshold)
    requires SweptSoFar(markets, seed, j, ids, related, whole, termsMap, threshold)
    ensures SweptSoFar(markets, seed, j + 1, ids + {markets[j].id}, related + [markets[j]], whole,
                       termsMap, threshold)
  {
    var rest := Sweep(markets, seed, j + 1, ids + {markets[j].id}, termsMap, threshold);
    assert (related + [markets[j]])[1..] + rest.0 == related[1..] + ([markets[j]] + rest.0);
  }

  /** With distinct ids, the sweep of the seed `markets[i]` takes every later market that
      passes the test against the ids assigned before the seed. */
  lemma SweptAllJoining(markets: seq<UnifiedMarket>, i: nat, ids: set<string>,
                        termsMap: map<string, seq<string>>, threshold: real)
    requires i < |markets|
    ensures UniqueIds(markets) ==>
      forall j :: i < j < |markets| && Joins(markets[j], markets[i], ids, termsMap, threshold) ==>
        markets[j] in Sweep(markets, markets[i], i + 1, ids + {markets[i].id}, termsMap, threshold).0
  {
    if UniqueIds(markets) {
      SweepComplete(markets, markets[i], i + 1, ids + {markets[i].id}, termsMap, threshold);
      forall j | i < j < |markets| && Joins(markets[j], markets[i], ids, termsMap, threshold)
        ensures Joins(markets[j], markets[i], ids + {markets[i].id}, termsMap, threshold)
      {
        assert markets[j].id != markets[i].id;
      }
    }
  }

  /** The group built for a cluster, its name by `extractGroupName`. */
  method BuildGroup(related: seq<UnifiedMarket>) returns (g: EventGroup)
    requires |related| >= 1
    ensures g == GroupOf(related)
  {
    var market := related[0];
    if |related| >= 2 {
      var platforms := Distinct(Platforms(related));
      var totalVolume := SumOf(related, Volume);
      var avgProbability := SumOf(related, Probability) / (|related| as real);
      var name := ExtractGroupName(related);
      g := EventGroup("group-" + market.id, name, SortDesc(related, Volume), totalVolume,
                      avgProbability, platforms, market.category);
    } else {
      g := EventGroup("single-" + market.id, market.question, related, market.volume,
                      market.probability, [market.platform], market.category);
    }
  }

  /** Every group is the group of a cluster. */
  ghost predicate FromClusters(gs: seq<EventGroup>, markets: seq<UnifiedMarket>,
                               termsMap: map<string, seq<string>>, threshold: real)
  {
    forall g :: g in gs ==> exists r :: Related(r, markets, termsMap, threshold) && g == GroupOf(r)
  }

  /** With distinct ids, the groups hold exactly the markets whose ids are in `ids`. */
  ghost predicate Partitioned(gs: seq<EventGroup>, markets: seq<UnifiedMarket>, ids: set<string>)
  {
    UniqueIds(markets) ==> multiset(FlatMap(gs, MarketsOf)) == multiset(WithIdIn(markets, ids))
  }

  /** Every market before position `i` has its id among `ids`. */
  ghost predicate SeenBefore(markets: seq<UnifiedMarket>, ids: set<string>, i: nat)
    requires i <= |markets|
  {
    forall k :: 0 <= k < i ==> markets[k].id in ids
  }

  lemma SeenStep(markets: seq<UnifiedMarket>, ids: set<string>, ids': set<string>, i: nat)
    requires i < |markets| && SeenBefore(markets, ids, i) && ids + {markets[i].id} <= ids'
    ensures SeenBefore(markets, ids', i + 1)
  {
  }

  lemma PushGroup(gs: seq<EventGroup>, markets: seq<UnifiedMarket>, termsMap: map<string, seq<string>>,
                  threshold: real, ids: set<string>, ids': set<string>, r: seq<UnifiedMarket>)
    requires FromClusters(gs, markets, termsMap, threshold) && Partitioned(gs, markets, ids)
    requires Related(r, markets, termsMap, threshold) && Accounted(markets, ids', ids, r)
    ensures FromClusters(gs + [GroupOf(r)], markets, termsMap, threshold)
    ensures Partitioned(gs + [GroupOf(r)], markets, ids')
  {
    GroupMarketsOf(r);
    FlatMapConcat(gs, [GroupOf(r)], MarketsOf);
  }

  /** A group of one cluster flattens to that cluster. */
  lemma GroupMarketsOf(r: seq<UnifiedMarket>)
    requires |r| >= 1
    ensures multiset(FlatMap([GroupOf(r)], MarketsOf)) == multiset(r)
  {
    assert FlatMap([GroupOf(r)], MarketsOf) == GroupOf(r).markets + FlatMap([], MarketsOf);
  }

  lemma SortGroups(gs: seq<EventGroup>, markets: seq<UnifiedMarket>, termsMap: map<string, seq<string>>,
                   threshold: real, ids: set<string>)
    requires FromClusters(gs, markets, termsMap, threshold) && Partitioned(gs, markets, ids)
    ensures FromClusters(SortDesc(gs, TotalVolume), markets, termsMap, threshold)
    ensures Partitioned(SortDesc(gs, TotalVolume), markets, ids)
  {
    var sorted := SortDesc(gs, TotalVolume);
    FlatMapPermutation(sorted, gs, MarketsOf);
    forall g | g in sorted
      ensures exists r :: Related(r, markets, termsMap, threshold) && g == GroupOf(r)
    {
      assert g in multiset(gs);
      assert g in gs;
    }
  }

  /** The clusters the outer loop builds from position `i` on while the ids in `ids` are
      assigned: each market not assigned yet seeds one, with what its sweep takes. */
  function GreedyClusters(markets: seq<UnifiedMarket>, i: nat, ids: set<string>,
                          termsMap: map<string, seq<string>>, threshold: real): (cs: seq<seq<UnifiedMarket>>)
    ensures forall k :: 0 <= k < |cs| ==> |cs[k]| >= 1
    decreases |markets| - i
  {
    if i >= |markets| then []
    else if markets[i].id in ids then GreedyClusters(markets, i + 1, ids, termsMap, threshold)
    else
      var swept := Sweep(markets, markets[i], i + 1, ids + {markets[i].id}, termsMap, threshold);
      [[markets[i]] + swept.0] + GreedyClusters(markets, i + 1, swept.1, termsMap, threshold)
  }

  /** The group of each cluster, in order. */
  function GroupsOf(cs: seq<seq<UnifiedMarket>>): seq<EventGroup>
    requires forall k :: 0 <= k < |cs| ==> |cs[k]| >= 1
  {
    if cs == [] then [] else GroupsOf(cs[..|cs| - 1]) + [GroupOf(cs[|cs| - 1])]
  }

  /** The loop state of `groupMarketsByEvent` at position `i`: the clusters built so far,
      followed by those the rest of the loop builds, are all the clusters. */
  ghost predicate BuiltSoFar(markets: seq<UnifiedMarket>, i: nat, ids: set<string>,
                             done: seq<seq<UnifiedMarket>>, built: seq<EventGroup>,
                             termsMap: map<string, seq<string>>, threshold: real)
  {
    && (forall k :: 0 <= k < |done| ==> |done[k]| >= 1)
    && built == GroupsOf(done)
    && done + GreedyClusters(markets, i, ids, termsMap, threshold)
       == GreedyClusters(markets, 0, {}, termsMap, threshold)
  }

  lemma BuiltPass(markets: seq<UnifiedMarket>, i: nat, ids: set<string>, done: seq<seq<UnifiedMarket>>,
                  built: seq<EventGroup>, termsMap: map<string, seq<string>>, threshold: real)
    requires i < |markets| && markets[i].id in ids
    requires BuiltSoFar(markets, i, ids, done, built, termsMap, threshold)
    ensures BuiltSoFar(markets, i + 1, ids, done, built, termsMap, threshold)
  {
  }

  lemma BuiltPush(markets: seq<UnifiedMarket>, i: nat, ids: set<string>, ids': set<string>,
                  done: seq<seq<UnifiedMarket>>, built: seq<EventGroup>, related: seq<UnifiedMarket>,
                  termsMap: map<string, seq<string>>, threshold: real)
    requires i < |markets| && markets[i].id !in ids
    requires BuiltSoFar(markets, i, ids, done, built, termsMap, threshold)
    requires |related| >= 1 && related[0] == markets[i]
    requires (related[1..], ids') == Sweep(markets, markets[i], i + 1, ids + {markets[i].id}, termsMap, threshold)
    ensures BuiltSoFar(markets, i + 1, ids', done + [related], built + [GroupOf(related)], termsMap, threshold)
  {
    GreedyStep(markets, i, ids, ids', related, termsMap, threshold);
    var later := GreedyClusters(markets, i + 1, ids', termsMap, threshold);
    assert (done + [related]) + later == done + ([related] + later);
    GroupsOfPush(done, related);
  }

  /** An unassigned market seeds the next cluster, made of it and what its sweep takes. */
  lemma GreedyStep(markets: seq<UnifiedMarket>, i: nat, ids: set<string>, ids': set<string>,
                   related: seq<UnifiedMarket>, termsMap: map<string, seq<string>>, threshold: real)
    requires i < |markets| && markets[i].id !in ids
    requires |related| >= 1 && related[0] == markets[i]
    requires (related[1..], ids') == Sweep(markets, markets[i], i + 1, ids + {markets[i].id}, termsMap, threshold)
    ensures GreedyClusters(markets, i, ids, termsMap, threshold)
         == [related] + GreedyClusters(markets, i + 1, ids', termsMap, threshold)
  {
    assert related == [markets[i]] + related[1..];
  }

  lemma GroupsOfPush(cs: seq<seq<UnifiedMarket>>, c: seq<UnifiedMarket>)
    requires (forall k :: 0 <= k < |cs| ==> |cs[k]| >= 1) && |c| >= 1
    ensures GroupsOf(cs + [c]) == GroupsOf(cs) + [GroupOf(c)]
  {
    assert (cs + [c])[..|cs|] == cs;
  }

  lemma BuiltDone(markets: seq<UnifiedMarket>, ids: set<string>, done: seq<seq<UnifiedMarket>>,
                  built: seq<EventGroup>, termsMap: map<string, seq<string>>, threshold: real)
    requires BuiltSoFar(markets, |markets|, ids, done, built, termsMap, threshold)
    ensures built == GroupsOf(GreedyClusters(markets, 0, {}, termsMap, threshold))
  {
    assert done + [] == done;
  }

  /** The loop state of `groupMarketsByEvent` at position `i`: every group built is that of a
      cluster; with distinct ids they hold exactly the assigned markets; every market before
      `i` is assigned; and the clusters built so far begin the greedy clusters. */
  ghost predicate GroupedSoFar(markets: seq<UnifiedMarket>, i: nat, ids: set<string>,
                               done: seq<seq<UnifiedMarket>>, built: seq<EventGroup>,
                               termsMap: map<string, seq<string>>, threshold: real)
    requires i <= |markets|
  {
    && FromClusters(built, markets, termsMap, threshold)
    && Partitioned(built, markets, ids)
    && SeenBefore(markets, ids, i)
    && BuiltSoFar(markets, i, ids, done, built, termsMap, threshold)
  }

  lemma GroupedPass(markets: seq<UnifiedMarket>, i: nat, ids: set<string>, done: seq<seq<UnifiedMarket>>,
                    built: seq<EventGroup>, termsMap: map<string, seq<string>>, threshold: real)
    requires i < |markets| && markets[i].id in ids
    requires GroupedSoFar(markets, i, ids, done, built, termsMap, threshold)
    ensures GroupedSoFar(markets, i + 1, ids, done, built, termsMap, threshold)
  {
    SeenStep(markets, ids, ids, i);
    BuiltPass(markets, i, ids, done, built, termsMap, threshold);
  }

  lemma GroupedPush(markets: seq<UnifiedMarket>, i: nat, ids: set<string>, ids': set<string>,
                    done: seq<seq<UnifiedMarket>>, built: seq<EventGroup>, related: seq<UnifiedMarket>,
                    termsMap: map<string, seq<string>>, threshold: real)
    requires i < |markets| && markets[i].id !in ids
    requires GroupedSoFar(markets, i, ids, done, built, termsMap, threshold)
    requires Related(related, markets, termsMap, threshold) && related[0] == markets[i]
    requires ids + {markets[i].id} <= ids' && Accounted(markets, ids', ids, related)
    requires (related[1..], ids') == Sweep(markets, markets[i], i + 1, ids + {markets[i].id}, termsMap, threshold)
    ensures GroupedSoFar(markets, i + 1, ids', done + [related], built + [GroupOf(related)], termsMap, threshold)
  {
    PushGroup(built, markets, termsMap, threshold, ids, ids', related);
    SeenStep(markets, ids, ids', i);
    BuiltPush(markets, i, ids, ids', done, built, related, termsMap, threshold);
  }

  lemma GroupedDone(markets: seq<UnifiedMarket>, ids: set<string>, done: seq<seq<UnifiedMarket>>,
                    built: seq<EventGroup>, termsMap: map<string, seq<string>>, threshold: real)
    requires GroupedSoFar(markets, |markets|, ids, done, built, termsMap, threshold)
    ensures FromClusters(built, markets, termsMap, threshold)
    ensures Partitioned(built, markets, ids) && WithIdIn(markets, ids) == markets
    ensures built == GroupsOf(GreedyClusters(markets, 0, {}, termsMap, threshold))
  {
    BuiltDone(markets, ids, done, built, termsMap, threshold);
    WithIdInAll(markets, ids);
  }

  /** `groupMarketsByEvent`: every market not yet assigned seeds a cluster of the later
      similar markets of its category; the groups come out by decreasing total volume.
      With distinct ids, every market lands in exactly one group. */
  method GroupMarketsByEvent(markets: seq<UnifiedMarket>, similarityThreshold: real)
    returns (groups: seq<EventGroup>)
    ensures markets == [] ==> groups == []
    ensures SortedDesc(groups, TotalVolume)
    ensures forall g :: g in groups ==>
      exists r :: Related(r, markets, TermsById(markets), similarityThreshold) && g == GroupOf(r)
    ensures UniqueIds(markets) ==> multiset(FlatMap(groups, MarketsOf)) == multiset(markets)
    ensures groups == SortDesc(GroupsOf(GreedyClusters(markets, 0, {}, TermsById(markets), similarityThreshold)),
                               TotalVolume)
  {
    if |markets| == 0 {
      return [];
    }
    var built: seq<EventGroup> := [];
    var assignedIds: set<string> := {};
    var termsMap := BuildTermsMap(markets);
    ghost var done: seq<seq<UnifiedMarket>> := [];
    WithIdInNone(markets);
    for i := 0 to |markets|
      invariant GroupedSoFar(markets, i, assignedIds, done, built, termsMap, similarityThreshold)
    {
      var market := markets[i];
      if market.id in assignedIds {
        GroupedPass(markets, i, assignedIds, done, built, termsMap, similarityThreshold);
        continue;
      }
      var related, assignedIds' := Gather(markets, i, assignedIds, termsMap, similarityThreshold);
      var g := BuildGroup(related);
      GroupedPush(markets, i, assignedIds, assignedIds', done, built, related, termsMap, similarityThreshold);
      done := done + [related];
      built := built + [g];
      assignedIds := assignedIds';
    }
    GroupedDone(markets, assignedIds, done, built, termsMap, similarityThreshold);
    SortGroups(built, markets, termsMap, similarityThreshold, assignedIds);
    groups := SortDesc(built, TotalVolume);
  }

  /** With distinct ids, the clusters hang together by the similarity of their questions'
      own terms. */
  lemma RelatedBySimilarQuestions(markets: seq<UnifiedMarket>, r: seq<UnifiedMarket>, threshold: real)
    requires UniqueIds(markets) && Related(r, markets, TermsById(markets), threshold)
    ensures forall k :: 1 <= k < |r| ==>
      Jaccard(GroupTerms(r[0].question), GroupTerms(r[k].question)) >= threshold
  {
    forall m | m in markets
      ensures Lookup(TermsById(markets), m.id) == GroupTerms(m.question)
    {
      var i :| 0 <= i < |markets| && markets[i] == m;
      TermsByIdOfUniqueIds(markets, i);
    }
    forall k | 1 <= k < |r|
      ensures Jaccard(GroupTerms(r[0].question), GroupTerms(r[k].question)) >= threshold
    {
      assert r[0] in markets && r[k] in markets;
    }
  }

  // ------------------------------------------------------------------------------------
  // getMultiMarketGroups, getUngroupedMarkets
  // ------------------------------------------------------------------------------------

  predicate IsMultiMarket(g: EventGroup)
  {
    |g.markets| >= 2
  }

  /** `getMultiMarketGroups`: the groups of two markets or more, in order. */
  function MultiMarketGroups(groups: seq<EventGroup>): seq<EventGroup>
  {
    Filter(groups, IsMultiMarket)
  }

  /** `getUngroupedMarkets`: the market of each group of exactly one, in order. */
  function UngroupedMarkets(groups: seq<EventGroup>): seq<UnifiedMarket>
  {
    if groups == [] then []
    else
      (if |groups[0].markets| == 1 then [groups[0].markets[0]] else []) + UngroupedMarkets(groups[1..])
  }

  /** When no group is empty, as with those of `GroupMarketsByEvent`, the two views split the
      groups between them and hold every market of every group exactly once. */
  lemma {:induction false} ViewsPartitionMarkets(groups: seq<EventGroup>)
    requires forall g :: g in groups ==> |g.markets| >= 1
    ensures |MultiMarketGroups(groups)| + |UngroupedMarkets(groups)| == |groups|
    ensures multiset(FlatMap(MultiMarketGroups(groups), MarketsOf)) + multiset(UngroupedMarkets(groups))
      == multiset(FlatMap(groups, MarketsOf))
  {
    if groups != [] {
      var g, rest := groups[0], groups[1..];
      ViewsPartitionMarkets(rest);
      var multi, singles := MultiMarketGroups(rest), UngroupedMarkets(rest);
      assert FlatMap(groups, MarketsOf) == g.markets + FlatMap(rest, MarketsOf);
      if IsMultiMarket(g) {
        assert MultiMarketGroups(groups) == [g] + multi;
        assert ([g] + multi)[1..] == multi;
        assert FlatMap([g] + multi, MarketsOf) == g.markets + FlatMap(multi, MarketsOf);
        assert UngroupedMarkets(groups) == singles;
      } else {
        assert MultiMarketGroups(groups) == multi;
        assert UngroupedMarkets(groups) == [g.markets[0]] + singles;
        assert g.markets == [g.markets[0]];
      }
    }
  }

  /** The groups of clusters are never empty, so the two views above split them. */
  lemma ClusterGroupsNonEmpty(groups: seq<EventGroup>, markets: seq<UnifiedMarket>,
                              termsMap: map<string, seq<string>>, threshold: real)
    requires FromClusters(groups, markets, termsMap, threshold)
    ensures forall g :: g in groups ==> |g.markets| >= 1
  {
    forall g | g in groups
      ensures |g.markets| >= 1
    {
      var r :| Related(r, markets, termsMap, threshold) && g == GroupOf(r);
    }
  }

  /** Filtering the groups keeps their order by volume. */
  lemma {:induction false} MultiMarketGroupsSorted(groups: seq<EventGroup>)
    requires SortedDesc(groups, TotalVolume)
    ensures SortedDesc(MultiMarketGroups(groups), TotalVolume)
  {
    if groups != [] {
      MultiMarketGroupsSorted(groups[1..]);
      var rest := MultiMarketGroups(groups[1..]);
      forall k | 0 <= k < |rest|
        ensures TotalVolume(groups[0]) >= TotalVolume(rest[k])
      {
        FilterMembers(groups[1..], IsMultiMarket, rest[k]);
        var j :| 0 <= j < |groups[1..]| && groups[1..][j] == rest[k];
        assert groups[j + 1] == rest[k];
      }
    }
  }

  /** Each ungrouped market is the only market of one of the groups. */
  lemma {:induction false} UngroupedAreSingles(groups: seq<EventGroup>, m: UnifiedMarket)
    requires m in UngroupedMarkets(groups)
    ensures exists g :: g in groups && g.markets == [m]
  {
    var g := groups[0];
    if |g.markets| == 1 && m == g.markets[0] {
      assert g.markets == [m];
    } else {
      UngroupedAreSingles(groups[1..], m);
      var h :| h in groups[1..] && h.markets == [m];
      assert h in groups;
    }
  }
}
