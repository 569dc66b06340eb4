/** The Manifold portfolio route (src/app/api/portfolio/manifold/route.ts): a user's bets are
    aggregated per contract and outcome, the holdings with shares become positions valued at
    the current price, and the positions come out by decreasing absolute profit and loss,
    at most fifty of them, with totals over all of them. The market request of each holding
    is a parameter. */
module ManifoldPortfolio {
  import opened Wrappers
  import opened Seqs
  import opened Sorting

  // ------------------------------------------------------------------------------------
  // Aggregating the bets
  // ------------------------------------------------------------------------------------

  /** A Manifold bet as far as the route reads it; absent numbers and strings are `None`. */
  datatype Bet = Bet(
    contractId: string,
    outcome: string,
    isSold: bool,
    isCancelled: bool,
    shares: Option<real>,
    amount: Option<real>,
    probAfter: Option<real>,
    question: Option<string>,
    contractUrl: Option<string>)

  /** An entry of `contractPositions`. */
  datatype Holding = Holding(
    contractId: string,
    shares: real,
    totalSpent: real,
    outcome: string,
    question: Option<string>,
    url: Option<string>,
    probability: Option<real>)

  /** `contractPositions`: its keys in insertion order, which is the order `Object.entries`
      visits them (no key is an array index, as every key holds a '-'), and its entries. */
  datatype Holdings = Holdings(keys: seq<string>, byKey: map<string, Holding>)

  /** A bet that was neither sold nor cancelled. */
  predicate Open(b: Bet)
  {
    !(b.isSold || b.isCancelled)
  }

  /** `${bet.contractId}-${bet.outcome}`. */
  function KeyOf(b: Bet): string
  {
    b.contractId + "-" + b.outcome
  }

  /** `bet.shares || 0` and `bet.amount || 0`. */
  function SharesOf(b: Bet): real { OrNumber(b.shares, 0.0) }
  function AmountOf(b: Bet): real { OrNumber(b.amount, 0.0) }

  /** A truthy number: present and not 0. */
  predicate Truthy(x: Option<real>)
  {
    x.Some? && x.value != 0.0
  }

  /** One iteration of the aggregation loop. */
  function Record(h: Holdings, b: Bet): Holdings
  {
    if !Open(b) then h
    else
      var key := KeyOf(b);
      var keys := if key in h.byKey then h.keys else h.keys + [key];
      var start := if key in h.byKey then h.byKey[key]
                   else Holding(b.contractId, 0.0, 0.0, b.outcome, b.question, b.contractUrl, b.probAfter);
      var next := start.(shares := start.shares + SharesOf(b),
                         totalSpent := start.totalSpent + AmountOf(b),
                         probability := if Truthy(b.probAfter) then b.probAfter else start.probability);
      Holdings(keys, h.byKey[key := next])
  }

  /** The holdings after the loop has seen all of `bets`. */
  function Aggregated(bets: seq<Bet>): Holdings
  {
    if bets == [] then Holdings([], map[])
    else
      var n := |bets| - 1;
      Record(Aggregated(bets[..n]), bets[n])
  }

  /** The aggregation loop (lines 79-109). */
  method AggregateBets(bets: seq<Bet>) returns (keys: seq<string>, byKey: map<string, Holding>)
    ensures Holdings(keys, byKey) == Aggregated(bets)
  {
    keys := [];
    byKey := map[];
    for n := 0 to |bets|
      invariant Holdings(keys, byKey) == Aggregated(bets[..n])
    {
      assert bets[..n + 1][..n] == bets[..n];
      var bet := bets[n];
      if bet.isSold || bet.isCancelled {
        continue;
      }
      var key := bet.contractId + "-" + bet.outcome;
      if key !in byKey {
        keys := keys + [key];
        byKey := byKey[key := Holding(bet.contractId, 0.0, 0.0, bet.outcome, bet.question,
                                      bet.contractUrl, bet.probAfter)];
      }
      var holding := byKey[key];
      holding := holding.(shares := holding.shares + OrNumber(bet.shares, 0.0));
      holding := holding.(totalSpent := holding.totalSpent + OrNumber(bet.amount, 0.0));
      if bet.probAfter.Some? && bet.probAfter.value != 0.0 {
        holding := holding.(probability := bet.probAfter);
      }
      byKey := byKey[key := holding];
    }
    assert bets[..|bets|] == bets;
  }

  /** The bets that were neither sold nor cancelled, in order. */
  function OpenBets(bets: seq<Bet>): seq<Bet>
  {
    if bets == [] then []
    else
      var n := |bets| - 1;
      OpenBets(bets[..n]) + (if Open(bets[n]) then [bets[n]] else [])
  }

  /** Sold and cancelled bets contribute nothing. */
  lemma {:induction false} AggregatedIgnoresClosed(bets: seq<Bet>)
    ensures Aggregated(bets) == Aggregated(OpenBets(bets))
  {
    if bets != [] {
      var n := |bets| - 1;
      AggregatedIgnoresClosed(bets[..n]);
      if Open(bets[n]) {
        var o := OpenBets(bets[..n]) + [bets[n]];
        assert OpenBets(bets) == o;
        assert o[..|o| - 1] == OpenBets(bets[..n]) && o[|o| - 1] == bets[n];
        assert Aggregated(o) == Record(Aggregated(OpenBets(bets[..n])), bets[n]);
      } else {
        assert OpenBets(bets) == OpenBets(bets[..n]);
      }
    }
  }

  /** The open bets of one key, in order. */
  function BetsFor(bets: seq<Bet>, key: string): seq<Bet>
  {
    if bets == [] then []
    else
      var n := |bets| - 1;
      BetsFor(bets[..n], key) + (if Open(bets[n]) && KeyOf(bets[n]) == key then [bets[n]] else [])
  }

  /** The last truthy `probAfter` of a list of bets. */
  function LastTruthy(bets: seq<Bet>): Option<real>
  {
    if bets == [] then None
    else if Truthy(bets[|bets| - 1].probAfter) then bets[|bets| - 1].probAfter
    else LastTruthy(bets[..|bets| - 1])
  }

  /** The keys of the open bets, in order. */
  function OpenKeys(bets: seq<Bet>): seq<string>
  {
    if bets == [] then []
    else
      var n := |bets| - 1;
      OpenKeys(bets[..n]) + (if Open(bets[n]) then [KeyOf(bets[n])] else [])
  }

  /** The holdings' keys are the distinct keys of the open bets in first-seen order, and are
      exactly the keys that hold an entry. */
  lemma {:induction false} AggregatedKeys(bets: seq<Bet>)
    ensures Aggregated(bets).keys == Distinct(OpenKeys(bets))
    ensures forall key :: key in Aggregated(bets).byKey <==> key in OpenKeys(bets)
  {
    if bets != [] {
      var n := |bets| - 1;
      AggregatedKeys(bets[..n]);
      if Open(bets[n]) {
        var ks := OpenKeys(bets[..n]) + [KeyOf(bets[n])];
        assert OpenKeys(bets) == ks;
        assert ks[..|ks| - 1] == OpenKeys(bets[..n]) && ks[|ks| - 1] == KeyOf(bets[n]);
        DistinctMembers(OpenKeys(bets[..n]), KeyOf(bets[n]));
        assert Distinct(ks) == if KeyOf(bets[n]) in Distinct(OpenKeys(bets[..n])) then Distinct(OpenKeys(bets[..n]))
                               else Distinct(OpenKeys(bets[..n])) + [KeyOf(bets[n])];
      } else {
        assert OpenKeys(bets) == OpenKeys(bets[..n]);
      }
    }
  }

  /** The holding of a key sums the shares and the amounts of that key's open bets, counting
      absent values as 0; its contract, outcome, question and URL come from the first such bet,
      and its probability is the last truthy `probAfter` among them, or else the first bet's. */
  lemma {:induction false} AggregatedHolding(bets: seq<Bet>, key: string)
    ensures key in Aggregated(bets).byKey <==> BetsFor(bets, key) != []
    ensures key in Aggregated(bets).byKey ==> HoldingOf(Aggregated(bets).byKey[key], BetsFor(bets, key))
  {
    if bets != [] {
      var n := |bets| - 1;
      var b := bets[n];
      AggregatedHolding(bets[..n], key);
      var before := BetsFor(bets[..n], key);
      var prev := Aggregated(bets[..n]);
      assert Aggregated(bets) == Record(prev, b);
      if Open(b) && KeyOf(b) == key {
        var mine := before + [b];
        assert BetsFor(bets, key) == mine;
        if before == [] {
          HoldingOfFirst(b);
        } else {
          HoldingOfNext(prev.byKey[key], before, b);
        }
      } else {
        assert BetsFor(bets, key) == before;
      }
    }
  }

  /** A holding summarises the open bets `mine` of its key, as stated for `AggregatedHolding`. */
  ghost predicate HoldingOf(h: Holding, mine: seq<Bet>)
  {
    && mine != []
    && h.shares == SumOf(mine, SharesOf)
    && h.totalSpent == SumOf(mine, AmountOf)
    && h.contractId == mine[0].contractId && h.outcome == mine[0].outcome
    && h.question == mine[0].question && h.url == mine[0].contractUrl
    && h.probability == (if LastTruthy(mine).Some? then LastTruthy(mine) else mine[0].probAfter)
  }

  /** The entry a first bet creates summarises that bet. */
  lemma HoldingOfFirst(b: Bet)
    ensures var start := Holding(b.contractId, 0.0, 0.0, b.outcome, b.question, b.contractUrl, b.probAfter);
      HoldingOf(start.(shares := start.shares + SharesOf(b), totalSpent := start.totalSpent + AmountOf(b),
                       probability := if Truthy(b.probAfter) then b.probAfter else start.probability), [b])
  {
    assert [b][..0] == [];
  }

  /** Updating the entry of earlier bets with one more bet summarises them all. */
  lemma HoldingOfNext(h: Holding, before: seq<Bet>, b: Bet)
    requires HoldingOf(h, before)
    ensures HoldingOf(h.(shares := h.shares + SharesOf(b), totalSpent := h.totalSpent + AmountOf(b),
                         probability := if Truthy(b.probAfter) then b.probAfter else h.probability), before + [b])
  {
    var mine := before + [b];
    assert mine[..|mine| - 1] == before && mine[|mine| - 1] == b && mine[0] == before[0];
    SumOfConcat(before, [b], SharesOf);
    SumOfConcat(before, [b], AmountOf);
  }

  // ------------------------------------------------------------------------------------
  // Positions
  // ------------------------------------------------------------------------------------

  /** What the request for a holding's market returns when it succeeds; absent fields are
      `None`. A failed request is `None` altogether. */
  datatype MarketData = MarketData(probability: Option<real>, url: Option<string>,
                                   question: Option<string>, isResolved: bool)

  /** `Position`; `platform` is always "manifold" and is left out. */
  datatype Position = Position(
    id: string,
    market: string,
    outcome: string,
    size: real,
    avgPrice: real,
    currentPrice: real,
    pnl: real,
    pnlPercent: real,
    url: string)

  /** The price of the holding's outcome: the probability for YES, its complement otherwise. */
  function EffectivePrice(outcome: string, price: real): real
  {
    if outcome == "YES" then price else 1.0 - price
  }

  /** The price, URL and question: the holding's own (`|| 0.5`, `|| ''`) unless the market
      request succeeded and gave truthy ones. */
  function QuoteOf(h: Holding, fetched: Option<MarketData>): Quote
  {
    var price := OrNumber(h.probability, 0.5);
    var url := h.url.GetOr("");
    var question := h.question.GetOr("");
    if fetched.None? then Quote(price, url, question)
    else
      var m := fetched.value;
      Quote(OrNumber(m.probability, price), OrString(m.url.GetOr(""), url), OrString(m.question.GetOr(""), question))
  }

  datatype Quote = Quote(price: real, url: string, question: string)

  /** The position of a holding, if any: none without shares or when the market is resolved. */
  function PositionOf(key: string, h: Holding, fetched: Option<MarketData>): Option<Position>
  {
    if h.shares <= 0.0 then None
    else if fetched.Some? && fetched.value.isResolved then None
    else
      var quote := QuoteOf(h, fetched);
      var size := h.shares;
      var effectivePrice := EffectivePrice(h.outcome, quote.price);
      var currentValue := size * effectivePrice;
      var pnl := currentValue - h.totalSpent;
      var pnlPercent := if h.totalSpent > 0.0 then (pnl / h.totalSpent) * 100.0 else 0.0;
      Some(Position(key, quote.question, h.outcome, size, h.totalSpent / size, effectivePrice, pnl, pnlPercent,
                    quote.url))
  }

  /** `size * effectivePrice`, what `totalValue` adds up. */
  function CurrentValue(p: Position): real { p.size * p.currentPrice }

  function Pnl(p: Position): real { p.pnl }

  /** `Math.abs(p.pnl)`, the sort key. */
  function AbsPnl(p: Position): real { if p.pnl < 0.0 then -p.pnl else p.pnl }

  /** Every key of the list has an entry. */
  predicate Entries(keys: seq<string>, byKey: map<string, Holding>)
  {
    forall a :: 0 <= a < |keys| ==> keys[a] in byKey
  }

  /** The positions of the holdings in key order; `fetch` answers each contract's request. */
  function PositionsOf(keys: seq<string>, byKey: map<string, Holding>,
                       fetch: string -> Option<MarketData>): seq<Position>
    requires Entries(keys, byKey)
  {
    if keys == [] then []
    else
      var n := |keys| - 1;
      assert Entries(keys[..n], byKey) by {
        forall a | 0 <= a < n ensures keys[..n][a] in byKey { assert keys[..n][a] == keys[a]; }
      }
      var h := byKey[keys[n]];
      PositionsOf(keys[..n], byKey, fetch) + OptionToSeq(PositionOf(keys[n], h, fetch(h.contractId)))
  }

  function OptionToSeq<T>(o: Option<T>): seq<T>
  {
    if o.Some? then [o.value] else []
  }

  /** One more key of the list examined. */
  lemma PositionsOfSnoc(keys: seq<string>, a: nat, byKey: map<string, Holding>,
                        fetch: string -> Option<MarketData>)
    requires a < |keys| && Entries(keys, byKey)
    ensures Entries(keys[..a], byKey) && Entries(keys[..a + 1], byKey)
    ensures PositionsOf(keys[..a + 1], byKey, fetch)
      == PositionsOf(keys[..a], byKey, fetch)
         + OptionToSeq(PositionOf(keys[a], byKey[keys[a]], fetch(byKey[keys[a]].contractId)))
  {
    var init := keys[..a + 1];
    assert init[..a] == keys[..a];
    forall c | 0 <= c < |init| ensures init[c] in byKey { assert init[c] == keys[c]; }
  }

  /** The positions loop, the sort by absolute P&L and the cut to fifty (lines 112-179):
      `top` is what is returned, the totals run over every position. */
  method ManifoldPositions(keys: seq<string>, byKey: map<string, Holding>,
                           fetch: string -> Option<MarketData>)
    returns (top: seq<Position>, totalValue: real, totalPnl: real)
    requires Entries(keys, byKey)
    ensures top == Take(SortDesc(PositionsOf(keys, byKey, fetch), AbsPnl), 50)
    ensures totalValue == SumOf(PositionsOf(keys, byKey, fetch), CurrentValue)
    ensures totalPnl == SumOf(PositionsOf(keys, byKey, fetch), Pnl)
  {
    var positions: seq<Position> := [];
    totalValue := 0.0;
    totalPnl := 0.0;
    assert keys[..0] == [];
    for a := 0 to |keys|
      invariant Entries(keys[..a], byKey)
      invariant positions == PositionsOf(keys[..a], byKey, fetch)
      invariant totalValue == SumOf(positions, CurrentValue)
      invariant totalPnl == SumOf(positions, Pnl)
    {
      PositionsOfSnoc(keys, a, byKey, fetch);
      var key := keys[a];
      var pos := byKey[key];
      var next := PositionOf(key, pos, fetch(pos.contractId));
      if next.None? {
        continue;
      }
      var position := next.value;
      TotalsStep(positions, position);
      totalValue := totalValue + CurrentValue(position);
      totalPnl := totalPnl + position.pnl;
      positions := positions + [position];
    }
    assert keys[..|keys|] == keys;
    var sorted := SortDesc(positions, AbsPnl);
    top := Take(sorted, 50);
  }

  /** The running totals grow by the new position's value and P&L. */
  lemma TotalsStep(positions: seq<Position>, p: Position)
    ensures SumOf(positions + [p], CurrentValue) == SumOf(positions, CurrentValue) + CurrentValue(p)
    ensures SumOf(positions + [p], Pnl) == SumOf(positions, Pnl) + p.pnl
  {
    SumOfConcat(positions, [p], CurrentValue);
    SumOfConcat(positions, [p], Pnl);
  }

  /** The whole route after the user and bet requests: aggregate, then value the holdings. */
  method ManifoldPortfolio(bets: seq<Bet>, fetch: string -> Option<MarketData>)
    returns (top: seq<Position>, totalValue: real, totalPnl: real)
    ensures var h := Aggregated(bets);
      && Entries(h.keys, h.byKey)
      && top == Take(SortDesc(PositionsOf(h.keys, h.byKey, fetch), AbsPnl), 50)
      && totalValue == SumOf(PositionsOf(h.keys, h.byKey, fetch), CurrentValue)
      && totalPnl == SumOf(PositionsOf(h.keys, h.byKey, fetch), Pnl)
  {
    var keys, byKey := AggregateBets(bets);
    AggregatedKeys(bets);
    forall a | 0 <= a < |keys|
      ensures keys[a] in byKey
    {
      DistinctMembers(OpenKeys(bets), keys[a]);
    }
    top, totalValue, totalPnl := ManifoldPositions(keys, byKey, fetch);
  }

  // ------------------------------------------------------------------------------------
  // Properties of positions
  // ------------------------------------------------------------------------------------

  /** A holding yields a position exactly when it has shares and its market is not known to
      be resolved. The position carries the key, its size is the shares, the average price
      times the size is the amount spent, the P&L is the current value less the amount spent,
      and the P&L percentage has the P&L's sign when something was spent and is 0 otherwise. */
  lemma PositionOfFacts(key: string, h: Holding, fetched: Option<MarketData>)
    ensures PositionOf(key, h, fetched).Some? <==>
      h.shares > 0.0 && !(fetched.Some? && fetched.value.isResolved)
    ensures PositionOf(key, h, fetched).Some? ==>
      var p := PositionOf(key, h, fetched).value;
      && p.id == key && p.outcome == h.outcome
      && p.market == QuoteOf(h, fetched).question && p.url == QuoteOf(h, fetched).url
      && (h.outcome == "YES" ==> p.currentPrice == QuoteOf(h, fetched).price)
      && (h.outcome != "YES" ==> p.currentPrice == 1.0 - QuoteOf(h, fetched).price)
      && p.size == h.shares > 0.0
      && p.avgPrice * p.size == h.totalSpent
      && p.pnl == p.size * p.currentPrice - h.totalSpent
      && (h.totalSpent <= 0.0 ==> p.pnlPercent == 0.0)
      && (h.totalSpent > 0.0 ==> (p.pnlPercent > 0.0 <==> p.pnl > 0.0) && (p.pnlPercent < 0.0 <==> p.pnl < 0.0))
  {
    if PositionOf(key, h, fetched).Some? {
      var p := PositionOf(key, h, fetched).value;
      if h.totalSpent > 0.0 {
        var q := p.pnl / h.totalSpent;
        assert q * h.totalSpent == p.pnl;
      }
    }
  }

  /** The quote falls back field by field: a truthy value from a successful market request,
      else the holding's own value, else 0.5 for the price and "" for the URL and question. */
  lemma QuoteFallbacks(h: Holding, fetched: Option<MarketData>)
    ensures var q := QuoteOf(h, fetched);
      && (fetched.Some? && fetched.value.probability.Some? && fetched.value.probability.value != 0.0 ==>
            q.price == fetched.value.probability.value)
      && (!(fetched.Some? && fetched.value.probability.Some? && fetched.value.probability.value != 0.0) ==>
            q.price == if h.probability.Some? && h.probability.value != 0.0 then h.probability.value else 0.5)
      && (fetched.Some? && fetched.value.url.Some? && fetched.value.url.value != "" ==>
            q.url == fetched.value.url.value)
      && (!(fetched.Some? && fetched.value.url.Some? && fetched.value.url.value != "") ==>
            q.url == if h.url.Some? then h.url.value else "")
      && (fetched.Some? && fetched.value.question.Some? && fetched.value.question.value != "" ==>
            q.question == fetched.value.question.value)
      && (!(fetched.Some? && fetched.value.question.Some? && fetched.value.question.value != "") ==>
            q.question == if h.question.Some? then h.question.value else "")
  {
  }

  /** A YES and a NO position on a market whose request returned a probability are priced at
      complementary prices, both in [0, 1] when that probability is. */
  lemma YesNoComplement(yesKey: string, yes: Holding, noKey: string, no: Holding, fetched: Option<MarketData>)
    requires yes.outcome == "YES" && no.outcome == "NO"
    requires fetched.Some? && fetched.value.probability.Some? && fetched.value.probability.value != 0.0
    requires PositionOf(yesKey, yes, fetched).Some? && PositionOf(noKey, no, fetched).Some?
    ensures PositionOf(yesKey, yes, fetched).value.currentPrice
      + PositionOf(noKey, no, fetched).value.currentPrice == 1.0
    ensures 0.0 <= fetched.value.probability.value <= 1.0 ==>
      && 0.0 <= PositionOf(yesKey, yes, fetched).value.currentPrice <= 1.0
      && 0.0 <= PositionOf(noKey, no, fetched).value.currentPrice <= 1.0
  {
  }

  /** Every position comes from a key of the list, with positive size and that key's outcome,
      and there is at most one per key, so distinct keys give distinct ids. */
  lemma {:induction false} PositionsOfFacts(keys: seq<string>, byKey: map<string, Holding>,
                                            fetch: string -> Option<MarketData>)
    requires Entries(keys, byKey)
    ensures |PositionsOf(keys, byKey, fetch)| <= |keys|
    ensures forall p :: p in PositionsOf(keys, byKey, fetch) ==>
      p.id in keys && p.size > 0.0 && p.outcome == byKey[p.id].outcome
    ensures NoDuplicates(keys) ==> NoDuplicates(IdsOf(PositionsOf(keys, byKey, fetch)))
  {
    if keys != [] {
      var n := |keys| - 1;
      var init := keys[..n];
      assert Entries(init, byKey) by {
        forall a | 0 <= a < n ensures init[a] in byKey { assert init[a] == keys[a]; }
      }
      PositionsOfFacts(init, byKey, fetch);
      var h := byKey[keys[n]];
      PositionOfFacts(keys[n], h, fetch(h.contractId));
      var before := PositionsOf(init, byKey, fetch);
      var extra := OptionToSeq(PositionOf(keys[n], h, fetch(h.contractId)));
      IdsOfConcat(before, extra);
      forall p | p in before ensures p.id in keys { assert p.id in init; }
      if NoDuplicates(keys) && extra != [] {
        assert NoDuplicates(init);
        forall a | 0 <= a < |before| ensures before[a].id != keys[n] {
          assert before[a].id in init;
        }
        assert IdsOf(extra) == [keys[n]];
      }
    }
  }

  /** The ids of positions. */
  function IdsOf(ps: seq<Position>): (r: seq<string>)
    ensures |r| == |ps|
    ensures forall a :: 0 <= a < |ps| ==> r[a] == ps[a].id
  {
    seq(|ps|, a requires 0 <= a < |ps| => ps[a].id)
  }

  lemma IdsOfConcat(a: seq<Position>, b: seq<Position>)
    ensures IdsOf(a + b) == IdsOf(a) + IdsOf(b)
  {
  }

  /** The returned positions are the ones with the largest absolute P&L, at most fifty and
      exactly fifty when there are more, in decreasing order; the totals also count the
      positions cut off. */
  lemma TopPositions(all: seq<Position>)
    ensures var sorted := SortDesc(all, AbsPnl);
      var top := Take(sorted, 50);
      && SortedDesc(top, AbsPnl)
      && |top| == (if |all| < 50 then |all| else 50)
      && multiset(top) <= multiset(all)
      && (forall a, b :: 0 <= a < |top| <= b < |sorted| ==> AbsPnl(top[a]) >= AbsPnl(sorted[b]))
      && SumOf(all, Pnl) == SumOf(top, Pnl) + SumOf(sorted[|top|..], Pnl)
      && SumOf(all, CurrentValue) == SumOf(top, CurrentValue) + SumOf(sorted[|top|..], CurrentValue)
  {
    var sorted := SortDesc(all, AbsPnl);
    var top := Take(sorted, 50);
    TakeSorted(sorted, AbsPnl, |top|);
    SplitSorted(all, sorted, |top|, Pnl);
    SplitSorted(all, sorted, |top|, CurrentValue);
  }

  /** Cutting a reordering of `all` in two splits its multiset and its sums. */
  lemma SplitSorted(all: seq<Position>, sorted: seq<Position>, n: nat, f: Position -> real)
    requires multiset(sorted) == multiset(all) && n <= |sorted|
    ensures multiset(sorted[..n]) <= multiset(all)
    ensures SumOf(all, f) == SumOf(sorted[..n], f) + SumOf(sorted[n..], f)
  {
    assert sorted == sorted[..n] + sorted[n..];
    assert multiset(sorted) == multiset(sorted[..n]) + multiset(sorted[n..]);
    SumOfPermutation(all, sorted, f);
    SumOfConcat(sorted[..n], sorted[n..], f);
  }
}
