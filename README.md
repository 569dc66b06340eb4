# PredictHub core, modelled in Dafny

PredictHub gathers prediction markets from Polymarket, Kalshi, Manifold and Metaculus into one
`UnifiedMarket` shape, then:

- groups markets that ask about the same event (`groupMarketsByEvent`);
- looks for arbitrage between platforms that price the same event differently
  (`findArbitrageOpportunities`);
- builds a Manifold market's price history from its bets and keeps at most one point per hour;
- turns a Manifold user's bets into portfolio positions with profit and loss;
- keeps a watchlist of market ids.

This project models those parts as Dafny definitions and proves what each one promises. The modules are:

- `Wrappers`: `Option` and JavaScript's `a || b` for numbers, optional numbers and strings.
- `Seqs`: first-seen de-duplication (`[...new Set(xs)]`), sums (`reduce`), `slice(0, n)`, `filter` and
  `flatMap`.
- `Sorting`: `Array.prototype.sort` with a descending numeric comparator, as a stable insertion
  sort.
- `Text`: `normalizeText`, `split(' ')`, `extractKeyTerms` (with the stop-word list as a
  parameter), substring search and decimal printing.
- `Similarity`: `calculateSimilarity` (Jaccard similarity of the two term sets).
- `Market`: `inferCategory` and the four `parse*` adapters of `src/types/market.ts`.
- `Grouping`: `src/utils/grouping.ts`.
- `Arbitrage`: `src/utils/arbitrage.ts`.
- `ManifoldHistory`: the range switch, the bet loop and `deduplicateHistory` of the Manifold
  history route.
- `ManifoldPortfolio`: the aggregation of bets and the positions / P&L computation of the
  Manifold portfolio route.
- `Watchlist`: the `useWatchlist` hook as a class over a `set<string>`.

How JavaScript is modelled:

- Numbers are `real`.
- `Math.floor` of a division by a positive integer is Dafny's `/` on `int`.
- `Math.round(x)` is characterised as the integer `n` with `n - 0.5 <= x < n + 0.5`.
- A `Map` or a `Record` that a loop fills is a sequence of keys in insertion order plus a
  `map`. Iteration order is insertion order. The portfolio's keys contain `-`, so they are never
  array-index keys that `Object.entries` would reorder.
- Loops that update state step by step are methods with loop invariants. Each method is proved
  equal to a specification function, and the source's promises are proved about that function.

## Model

Functions that only define a source function, with no contract of their own, are described
through the lemma rows about them: `Text.Normalize` (`normalizeText`) through
`Text.NormalizeIsNormalized`; `Text.KeyTerms` (`extractKeyTerms`) through `Text.KeyTermsAreWords`
and `Text.KeepTermsFromWords`; `Arbitrage.AreSameEvent` (`areSameEvent`) through
`Arbitrage.AreSameEventSymmetric`, `Arbitrage.SameEventSharesTerm` and
`Arbitrage.SameQuestionSameEvent`; `Arbitrage.PairKey` (the checked-pair key) through
`Arbitrage.PairKeySymmetric` and `Arbitrage.PairKeyInjective`; `Grouping.MultiMarketGroups`
(`getMultiMarketGroups`) and `Grouping.UngroupedMarkets` (`getUngroupedMarkets`) through
`Grouping.ViewsPartitionMarkets`, `Grouping.MultiMarketGroupsSorted` and
`Grouping.UngroupedAreSingles`; `ManifoldHistory.AfterTime` (the range cut-off) through
`ManifoldHistory.AfterTimeWindows`.

| member | source | states |
|---|---|---|
| Text.NormalizeIsNormalized | src/utils/grouping.ts:14-20 | normalizing yields only lower-case letters, digits and single inner spaces, with no leading or trailing space |
| Text.CollapseSingleSpaced | src/utils/grouping.ts:18 | collapsing whitespace runs leaves no two adjacent spaces |
| Text.TrimNormalizes | src/utils/grouping.ts:19 | trimming a single-spaced word string leaves no space at either end |
| Text.Lower | src/utils/grouping.ts:16 | lower-casing keeps the length and maps every character through ASCII lower-casing |
| Text.Strip | src/utils/grouping.ts:17 | removing non-word characters leaves only letters, digits and whitespace, and never lengthens |
| Text.SkipSpacesIsSuffix | src/utils/grouping.ts:19 | dropping leading spaces yields a suffix of the input |
| Text.SkipTrailingSpacesIsPrefix | src/utils/grouping.ts:19 | dropping trailing spaces yields a prefix of the input |
| Text.JoinSplit | src/utils/grouping.ts:32-33 | joining the pieces of `split(sep)` with `sep` restores the string |
| Text.SplitPieces | src/utils/grouping.ts:32-33 | no piece of a split contains the separator, and every character of a piece comes from the input |
| Text.KeyTermsAreWords | src/utils/grouping.ts:23-35 | every key term is longer than two characters, is not a stop word and consists of letters and digits only |
| Text.KeyTermsOfBlank | src/utils/grouping.ts:23-35 | a question without letters or digits has no key terms |
| Text.KeepTermsFromWords | src/utils/grouping.ts:34 | the filter keeps only words of the input that are longer than two characters and not stop words |
| Text.KeepTermsConcat | src/utils/grouping.ts:34 | filtering distributes over concatenation |
| Text.KeepTermsLargerStopSet | src/utils/arbitrage.ts:29-33 | filtering with a small stop list and then a larger one equals filtering with the larger one |
| Similarity.CalculateSimilarity | src/utils/grouping.ts:38-51 | the counting loop returns exactly the Jaccard similarity of the two term sets, and 0 when either list is empty |
| Similarity.JaccardByCount | src/utils/grouping.ts:44-50 | for non-empty lists the result is the number of shared distinct terms divided by the size of the union |
| Similarity.JaccardBounds | src/utils/grouping.ts:38-51 | the similarity lies between 0 and 1 |
| Similarity.JaccardSymmetric | src/utils/grouping.ts:38-51 | the similarity does not depend on argument order |
| Similarity.JaccardSelf | src/utils/grouping.ts:38-51 | a non-empty term list is fully similar to itself |
| Similarity.JaccardOneIffSameTerms | src/utils/grouping.ts:38-51 | for non-empty lists the similarity is 1 exactly when both have the same term set |
| Market.InferCategory | src/types/market.ts:84-115 | the category is the first rule, in source order, whose keyword occurs in the lower-cased question and tags; `other` when no rule matches |
| Market.KeywordInQuestion | src/types/market.ts:84-115 | a keyword of rule j in the question forces a category of rule j or an earlier rule |
| Market.KeywordInTag | src/types/market.ts:84-115 | a keyword of rule j in any tag forces a category of rule j or an earlier rule |
| Market.ElectionIsPolitics | src/types/market.ts:89-91 | a question mentioning "election" is politics |
| Market.AiSubstringIsTechnologyOrEarlier | src/types/market.ts:98-100 | the bare substring "ai" forces technology or an earlier category |
| Market.RainContainsAi | src/types/market.ts:98 | "will it rain" contains "ai", so unanchored matching misfiles it |
| Market.Round | src/types/market.ts:139 | `Math.round` returns the integer within half a unit of its argument |
| Market.RoundPercent | src/types/market.ts:139 | a price in [0, 1] rounds to a percentage in [0, 100] |
| Market.ParsePolymarket | src/types/market.ts:133-162 | null exactly when the question is empty or the volume (`volumeNum`, else the parsed `volume`, else 0) is not positive; otherwise that volume, the id prefix, fields, URL and category, and a probability that is the whole number nearest to 100 times the first outcome price, or 50 when there is no price |
| Market.ParseKalshi | src/types/market.ts:187-219 | null exactly when the title is empty; subtitle joined with ": "; probability is the whole number nearest to 100 times the last price, else 100 times the bid/ask midpoint, else 50; category inferred from the Kalshi category as a tag |
| Market.ParseManifold | src/types/market.ts:243-272 | null exactly for non-binary, resolved or question-less markets; otherwise the play-money fields, a probability that is the whole number nearest to 100 times the market's probability (50 without one), the group slugs as tags, and an end date that is the ISO string of the close time when it is present and non-zero, absent otherwise |
| Market.ParseMetaculus | src/types/market.ts:312-345 | null exactly for resolved questions or ones without a title; probability is the whole number nearest to 100 times the community median, else the Metaculus median, else 50; volume is the first truthy of the forecaster, forecast and prediction counts, else 0, so it is 0 exactly when every count is missing or 0; URL from url_with_id, else page_url, else the question page |
| Market.AdaptersPrefixIds | src/types/market.ts:146-147 | every adapter prefixes the id with its own platform name |
| Market.IdsDifferAcrossPlatforms | src/types/market.ts:146-147 | two adapted markets from different platforms never share an id |
| Grouping.GroupTermsAreWords | src/utils/grouping.ts:23-35 | grouping key terms avoid the grouping stop words and are alphanumeric words longer than two characters |
| Grouping.ExtractGroupName | src/utils/grouping.ts:54-87 | the method's counting and shortest-question loops compute the specified group name |
| Grouping.CountTerms | src/utils/grouping.ts:59-66 | after the loop, the keys are the distinct terms in first-seen order and each count is that term's number of occurrences |
| Grouping.ShortestQuestion | src/utils/grouping.ts:78-80 | the reduce picks the first shortest question |
| Grouping.ShortestIndexIsFirstShortest | src/utils/grouping.ts:78-80 | the chosen question is no longer than any other, and every earlier one is strictly longer |
| Grouping.HalfCeil | src/utils/grouping.ts:69 | `Math.ceil(n * 0.5)` equals `(n + 1) / 2` in integer division |
| Grouping.CommonEntriesQualify | src/utils/grouping.ts:69-74 | at most five common terms, sorted by count descending, each with its true count and at least half the markets |
| Grouping.CommonEntriesAreMostFrequent | src/utils/grouping.ts:70-73 | a qualifying term is left out only when five terms with at least its count were kept |
| Grouping.CommonEntriesEmptyIff | src/utils/grouping.ts:69-76 | there are no common terms exactly when no term reaches the threshold |
| Grouping.CandidatesInFirstSeenOrder | src/utils/grouping.ts:70-72 | qualifying terms keep the order in which they were first seen |
| Grouping.GroupNameFallback | src/utils/grouping.ts:76-81 | without common terms the name is one of the questions and no longer than any of them |
| Grouping.BuildTermsMap | src/utils/grouping.ts:100-103 | the map sends each id to the key terms of the last market with that id |
| Grouping.TermsByIdOfUniqueIds | src/utils/grouping.ts:100-103 | with unique ids each market's own terms are stored under its id |
| Grouping.Gather | src/utils/grouping.ts:106-131 | the cluster starts with the seed; what follows is exactly what the reference `Sweep` takes (the later markets that are unassigned at their turn, of the seed's category and at least threshold-similar to the seed, in list order) and the assigned set is the sweep's; every member after the seed is such a later market; with unique ids every later market that is unassigned, of the seed's category and similar enough is in the cluster |
| Grouping.SweepSound | src/utils/grouping.ts:116-131 | every market a sweep takes comes from its start position on and passes the loop's test (unassigned, same category, similar enough) against the ids assigned when it starts; the assigned ids only grow |
| Grouping.SweepComplete | src/utils/grouping.ts:116-131 | with unique ids, a sweep takes every market from its start position on that passes the loop's test against the ids assigned when it starts |
| Grouping.SweepAccounted | src/utils/grouping.ts:119-130 | with unique ids, the ids a sweep assigns select exactly the markets assigned before and the ones it takes |
| Grouping.BuildGroup | src/utils/grouping.ts:134-159 | the group record built from a cluster is the specified one |
| Grouping.GroupOfSummarises | src/utils/grouping.ts:134-159 | a group holds a permutation of its cluster sorted by volume, the volume total, the average probability, one category and the distinct platforms present |
| Grouping.GroupMarketsByEvent | src/utils/grouping.ts:90-164 | the groups are exactly the groups of the greedy clusters (`GreedyClusters`: each market unassigned at its turn seeds one, with what its sweep takes), sorted stably by decreasing total volume; no markets give no groups; every group summarises a related cluster; with unique ids the groups partition the markets |
| Grouping.RelatedBySimilarQuestions | src/utils/grouping.ts:124-127 | every member of a cluster after its seed is at least threshold-similar to the seed (the market whose id names the group); the group's own list is re-sorted by volume, so its first market need not be the seed |
| Grouping.ViewsPartitionMarkets | src/utils/grouping.ts:167-176 | the multi-market groups and the ungrouped singles together hold exactly the grouped markets |
| Grouping.MultiMarketGroupsSorted | src/utils/grouping.ts:167-169 | filtering the sorted groups keeps them sorted by total volume |
| Grouping.UngroupedAreSingles | src/utils/grouping.ts:172-176 | every ungrouped market is the only market of some group |
| Grouping.ClusterGroupsNonEmpty | src/utils/grouping.ts:112 | every group has at least one market |
| Arbitrage.ArbitrageTermsAreWords | src/utils/arbitrage.ts:27-34 | arbitrage key terms avoid the arbitrage stop words and are alphanumeric words longer than two characters |
| Arbitrage.StopWordsNested | src/utils/arbitrage.ts:29 | the arbitrage stop words are a strict subset of the grouping stop words |
| Arbitrage.GroupTermsRefineArbitrageTerms | src/utils/arbitrage.ts:27-34 | filtering the arbitrage terms with the grouping stop words gives the grouping terms |
| Arbitrage.AreSameEventSymmetric | src/utils/arbitrage.ts:54-69 | "same event" is symmetric |
| Arbitrage.SameEventSharesTerm | src/utils/arbitrage.ts:54-69 | two markets judged the same event share a key term |
| Arbitrage.SameQuestionSameEvent | src/utils/arbitrage.ts:54-69 | identical questions with key terms, on different platforms in one category, are the same event |
| Arbitrage.JaccardOfDisjoint | src/utils/arbitrage.ts:37-51 | term lists with nothing in common have similarity 0 |
| Arbitrage.PairKeySymmetric | src/utils/arbitrage.ts:86 | the pair key does not depend on the order of the two ids |
| Arbitrage.PairKeyInjective | src/utils/arbitrage.ts:86 | for ids without a bar, equal pair keys mean the same unordered pair of ids |
| Arbitrage.DistinctIdsGiveDistinctPairKeys | src/utils/arbitrage.ts:86-89 | with unique bar-free ids, distinct index pairs have distinct pair keys |
| Arbitrage.MinOfIsLeast | src/utils/arbitrage.ts:105 | `Math.min` is an element no greater than any other |
| Arbitrage.MaxOfIsGreatest | src/utils/arbitrage.ts:106 | `Math.max` is an element no smaller than any other |
| Arbitrage.OpportunityFacts | src/utils/arbitrage.ts:96-124 | an opportunity has at least two markets from the seed's cluster, lists each with its probability, and has lowest/highest prices attained and bounding all prices; its difference is at least the minimum and its profit equals the difference |
| Arbitrage.ClusterAtSeeded | src/utils/arbitrage.ts:80-94 | the seed's cluster contains every later market that is the same event as the seed |
| Arbitrage.CollectSameEvent | src/utils/arbitrage.ts:82-94 | the inner loop records every later pair key; when none was processed before, it collects exactly the same-event later markets in order |
| Arbitrage.FindArbitrageOpportunities | src/utils/arbitrage.ts:72-129 | at most one market gives nothing; the result is sorted by price difference; every opportunity comes from some seed's cluster; with distinct pair keys the result is exactly the per-seed opportunities, stably sorted |
| ManifoldHistory.RangeParam | src/app/api/history/manifold/route.ts:11 | a missing or empty range parameter means "7d" |
| ManifoldHistory.AfterTimeWindows | src/app/api/history/manifold/route.ts:24-39 | the cut-off is one, seven or thirty days before now; 0 for "all"; unknown ranges act as "7d" |
| ManifoldHistory.OrTime | src/app/api/history/manifold/route.ts:93 | `createdTime \|\| updatedTime` |
| ManifoldHistory.PointOfMeaning | src/app/api/history/manifold/route.ts:92-103 | a bet gives a point exactly when it has a non-zero timestamp at or after the cut-off and a probability; the time is the timestamp in whole seconds and the value is probAfter, else probBefore, times 100 |
| ManifoldHistory.PointsOfFromBets | src/app/api/history/manifold/route.ts:90-103 | every point comes from some bet, and there are no more points than bets |
| ManifoldHistory.PointsOfComplete | src/app/api/history/manifold/route.ts:90-103 | every bet that yields a point contributes it |
| ManifoldHistory.BetsToHistory | src/app/api/history/manifold/route.ts:90-109 | the loop yields the bets' points in order, followed by the current probability stamped with now in seconds |
| ManifoldHistory.BetsToHistoryShape | src/app/api/history/manifold/route.ts:90-109 | the history is non-empty, has at most one point per bet plus one, and ends with the current point |
| ManifoldHistory.HourKeyMonotone | src/app/api/history/manifold/route.ts:135 | the hour key never decreases as time increases |
| ManifoldHistory.BucketsWellFormed | src/app/api/history/manifold/route.ts:132-137 | the hour map has distinct keys in insertion order, each stored point lies in its own hour, and it has no more keys than points |
| ManifoldHistory.BucketsKeepLast | src/app/api/history/manifold/route.ts:134-137 | the last point of each hour is the one stored for that hour |
| ManifoldHistory.BucketsHoldLast | src/app/api/history/manifold/route.ts:134-137 | every stored point is the last input point of its hour |
| ManifoldHistory.DeduplicateHistory | src/app/api/history/manifold/route.ts:125-142 | the method gives [] for [] and otherwise the specified deduplication of the time-sorted history |
| ManifoldHistory.DeduplicatedShape | src/app/api/history/manifold/route.ts:125-142 | the result is sorted by time, has at most one point per hour, holds only values in [0, 100] and is no longer than the input |
| ManifoldHistory.DeduplicatedKeepsLast | src/app/api/history/manifold/route.ts:129-141 | a point is kept exactly when its value is in range and it is the last point of its hour after the stable sort by time |
| ManifoldHistory.FilterAfterBucketing | src/app/api/history/manifold/route.ts:136-140 | an hour whose last point is out of range appears nowhere in the result, even if earlier points of that hour were in range |
| ManifoldPortfolio.AggregateBets | src/app/api/portfolio/manifold/route.ts:79-109 | the aggregation loop computes the specified holdings |
| ManifoldPortfolio.AggregatedIgnoresClosed | src/app/api/portfolio/manifold/route.ts:90 | sold and cancelled bets have no effect |
| ManifoldPortfolio.AggregatedKeys | src/app/api/portfolio/manifold/route.ts:92-104 | the holding keys are the distinct contract-outcome keys of the open bets, in first-seen order |
| ManifoldPortfolio.AggregatedHolding | src/app/api/portfolio/manifold/route.ts:94-108 | a key has a holding exactly when some open bet has that key; the holding sums those bets' shares and amounts, takes fields from the first one, and takes its probability from the last truthy probAfter, else the first bet's |
| ManifoldPortfolio.PositionOfFacts | src/app/api/portfolio/manifold/route.ts:116-169 | a holding becomes a position exactly when it has positive shares and its market is not resolved; the position carries the quote's question and URL; its current price is the quote's price for YES and one minus it for NO; average price times size is the amount spent; pnl is value minus amount spent; pnlPercent has pnl's sign, or is 0 without investment |
| ManifoldPortfolio.YesNoComplement | src/app/api/portfolio/manifold/route.ts:131-148 | when the fetched market has a non-zero probability, a YES and a NO position on it have current prices that add up to 1, and both lie in [0, 1] when the probability does |
| ManifoldPortfolio.QuoteFallbacks | src/app/api/portfolio/manifold/route.ts:121-138 | the quote's price is the fetched probability when it is truthy, else the bet's probability when truthy, else 0.5; its URL and question are the fetched ones when non-empty, else the bet's, else empty |
| ManifoldPortfolio.PositionsOfFacts | src/app/api/portfolio/manifold/route.ts:116-173 | positions come from holdings with positive size and keep their outcome; there are no more positions than holdings; distinct keys give distinct position ids |
| ManifoldPortfolio.ManifoldPositions | src/app/api/portfolio/manifold/route.ts:112-179 | the loop returns the first 50 positions by descending absolute pnl, and the totals of value and pnl over all positions |
| ManifoldPortfolio.TopPositions | src/app/api/portfolio/manifold/route.ts:176-179 | the top list is sorted, holds 50 positions or all of them, is a sub-multiset of the positions, and dominates every position cut; the totals are the sums over the kept and cut positions together |
| ManifoldPortfolio.ManifoldPortfolio | src/app/api/portfolio/manifold/route.ts:79-188 | aggregation followed by positions gives the response's positions and totals |
| Watchlist.WatchlistState.constructor | src/hooks/useWatchlist.ts:8 | the watchlist starts empty |
| Watchlist.WatchlistState.Add | src/hooks/useWatchlist.ts:38-44 | the id is added and becomes watched; nothing else changes |
| Watchlist.WatchlistState.Remove | src/hooks/useWatchlist.ts:46-52 | the id is removed and is no longer watched; nothing else changes |
| Watchlist.WatchlistState.Toggle | src/hooks/useWatchlist.ts:54-64 | the id's membership flips; nothing else changes |
| Watchlist.WatchlistState.Clear | src/hooks/useWatchlist.ts:70-72 | afterwards no id is watched |
| Watchlist.WatchlistState.Count | src/hooks/useWatchlist.ts:76 | the count is 0 exactly when the watchlist is empty |
| Watchlist.ToggledFlips | src/hooks/useWatchlist.ts:54-64 | toggling flips the toggled id and leaves every other id unchanged |
| Watchlist.ToggledTwice | src/hooks/useWatchlist.ts:54-64 | toggling the same id twice restores the watchlist |
| Watchlist.AddedIdempotent | src/hooks/useWatchlist.ts:38-44 | adding twice is the same as adding once |
| Watchlist.RemovedAbsent | src/hooks/useWatchlist.ts:46-52 | removing an id leaves it unwatched, and removing an absent id changes nothing |
| Watchlist.ToggledCount | src/hooks/useWatchlist.ts:54-76 | toggling changes the count by exactly one |

## Left out

- Network access, JSON parsing, `NextResponse`, logging and the `try`/`catch` wrappers of the
  routes and adapters are not modelled. Fetched payloads are parameters.
  - The portfolio's per-market fetch is a function `fetch: string -> Option<MarketData>`.
  - A failed or non-ok fetch is `None`.
  - A payload field that is missing or not a number is `None`, or `""` for strings.
- `Date.now()` is a parameter: `now` for the arbitrage ids and the history cut-off, `nowMs` for the
  current history point. `new Date(closeTime).toISOString()` is a parameter function of
  `ParseManifold`.
- The Manifold history route's `currentProbability` comes from a market fetch before the bet loop.
  It is a parameter of `BetsToHistory`.
  - The mock history generator (built on `Math.random`) is not modelled.
  - The fallback responses sent when the fetches fail are not modelled.
- Floating point: numbers are exact reals, so rounding error, `NaN` and infinities are not
  modelled.
  - `deduplicateHistory`'s `!isNaN` test is subsumed by the range test.
  - The portfolio's `Math.abs` keys and sums are exact.
- Timestamps and bet times are integers, as the API returns them.
- Strings are sequences of `char`. There is no UTF-16 surrogate handling.
  - `toLowerCase` maps ASCII letters only.
  - The regular expressions of `normalizeText` and `inferCategory` are written out as character
    predicates and substring searches.
- `Array.prototype.sort` sorts in place. The model uses a pure stable sort on sequences, so
  aliasing of the sorted array is not modelled.
- Default arguments are explicit parameters: `similarityThreshold` (default 0.5) and
  `minDifferencePercent` (default 3).
- `formatArbitrageOpportunity` is display formatting and is not modelled.
- `Position.platform` is the constant `'manifold'` and is omitted from the position record.
- `ManifoldPositions` computes each holding's position through the function `PositionOf` rather
  than inline arithmetic. The values are the same.
- The watchlist's `localStorage` load and save, its `isLoaded` flag, React state scheduling, and
  the global singleton (`getGlobalWatchlist`, `subscribeToWatchlist`) are not modelled.
  `WatchlistState` holds the state that the setters replace.
- `Watchlist.WatchlistState.IsWatched` is a predicate without its own postcondition. Its meaning is
  stated through `Add`, `Remove`, `Toggle` and `Clear`.
- `Grouping.GroupMarketsByEvent` proves the partition property only for inputs with unique ids.
  With duplicate ids the model still follows the code: the assigned set and the terms map are
  keyed by id and the last entry wins.
- Prices are tested for presence only: a JSON `null` price is treated like a missing one and gives
  the default 50. The code tests `!== undefined` (`src/types/market.ts:190`, `:192`, `:248`,
  `:319`, `:321`), so a `null` there would be rounded as 0 instead.
- `Arbitrage.FindArbitrageOpportunities` takes a single `now` for every opportunity id, while the
  code reads `Date.now()` at each push (`src/utils/arbitrage.ts:115`). The stamps may then differ
  between opportunities of one call; the model does not capture that.
- `Arbitrage.FindArbitrageOpportunities` characterises the exact list only when all pair keys
  differ (for example, unique ids without `|`). Otherwise it proves only that the list is sorted
  and that every opportunity comes from a seed's cluster.
