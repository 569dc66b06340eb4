/** src/types/market.ts: the unified market record, category inference by keyword groups
    and the four platform adapters that turn a platform's payload into a unified market or
    reject it. */
module Market {
  import opened Wrappers
  import opened Text

  datatype Platform = Polymarket | Kalshi | Manifold | Metaculus

  datatype Category =
    | Politics | Crypto | Sports | Science | Economics | Entertainment | Technology | World | Other

  /** `UnifiedMarket`; `probability` is a percentage, `endDate` and `imageUrl` are optional. */
  datatype UnifiedMarket = UnifiedMarket(
    id: string,
    question: string,
    platform: Platform,
    probability: real,
    volume: real,
    volumeLabel: string,
    category: Category,
    endDate: Option<string>,
    url: string,
    imageUrl: Option<string>,
    isPlayMoney: bool)

  // ------------------------------------------------------------------------------------
  // Category inference
  // ------------------------------------------------------------------------------------

  const PoliticsKeywords: seq<string> := ["trump", "biden", "election", "president", "congress",
    "senate", "governor", "democrat", "republican", "vote", "polling", "political"]
  const CryptoKeywords: seq<string> := ["bitcoin", "ethereum", "crypto", "btc", "eth", "token",
    "blockchain", "defi", "nft"]
  const SportsKeywords: seq<string> := ["nfl", "nba", "mlb", "soccer", "football", "basketball",
    "baseball", "tennis", "olympics", "championship", "super bowl", "world cup"]
  const TechnologyKeywords: seq<string> := ["ai", "artificial intelligence", "gpt", "openai",
    "google", "apple", "microsoft", "tech", "software", "startup"]
  const ScienceKeywords: seq<string> := ["climate", "science", "research", "study", "nasa",
    "space", "physics", "biology", "medicine", "vaccine", "virus"]
  const EconomicsKeywords: seq<string> := ["gdp", "inflation", "fed", "interest rate", "stock",
    "market", "economy", "recession", "unemployment", "trade"]
  const EntertainmentKeywords: seq<string> := ["movie", "oscar", "emmy", "grammy", "album",
    "song", "celebrity", "netflix", "disney", "entertainment", "tv", "show"]
  const WorldKeywords: seq<string> := ["war", "ukraine", "russia", "china", "country",
    "international", "global", "nation", "treaty"]

  /** The keyword groups in the order in which they are tried. */
  const Rules: seq<(Category, seq<string>)> := [
    (Politics, PoliticsKeywords), (Crypto, CryptoKeywords), (Sports, SportsKeywords),
    (Technology, TechnologyKeywords), (Science, ScienceKeywords),
    (Economics, EconomicsKeywords), (Entertainment, EntertainmentKeywords),
    (World, WorldKeywords)]

  /** The position of a category's group in `Rules`; `Other` comes after all of them. */
  function Priority(c: Category): (p: nat)
    ensures p <= |Rules|
    ensures p < |Rules| ==> Rules[p].0 == c
    ensures p == |Rules| <==> c == Other
  {
    match c
    case Politics => 0
    case Crypto => 1
    case Sports => 2
    case Technology => 3
    case Science => 4
    case Economics => 5
    case Entertainment => 6
    case World => 7
    case Other => 8
  }

  /** `tags.map(tag => tag.toLowerCase())`. */
  function LowerAll(tags: seq<string>): (r: seq<string>)
    ensures |r| == |tags|
    ensures forall i :: 0 <= i < |tags| ==> r[i] == Lower(tags[i])
  {
    seq(|tags|, i requires 0 <= i < |tags| => Lower(tags[i]))
  }

  /** The text the keywords are searched in: the lower-cased question, a space, and the
      lower-cased tags joined by spaces. A missing tag list is the empty one. */
  function Combined(question: string, tags: seq<string>): string
  {
    Lower(question) + " " + Join(LowerAll(tags), " ")
  }

  /** `inferCategory`: the first keyword group, in the order of `Rules`, one of whose
      keywords occurs anywhere in the combined text; `Other` when none does. */
  function InferCategory(question: string, tags: seq<string>): (c: Category)
    ensures forall m :: 0 <= m < Priority(c) ==> !ContainsAny(Combined(question, tags), Rules[m].1)
    ensures c != Other ==> ContainsAny(Combined(question, tags), Rules[Priority(c)].1)
  {
    var combined := Combined(question, tags);
    if ContainsAny(combined, PoliticsKeywords) then Politics
    else if ContainsAny(combined, CryptoKeywords) then Crypto
    else if ContainsAny(combined, SportsKeywords) then Sports
    else if ContainsAny(combined, TechnologyKeywords) then Technology
    else if ContainsAny(combined, ScienceKeywords) then Science
    else if ContainsAny(combined, EconomicsKeywords) then Economics
    else if ContainsAny(combined, EntertainmentKeywords) then Entertainment
    else if ContainsAny(combined, WorldKeywords) then World
    else Other
  }

  /** A keyword of the group at position `j` anywhere in the combined text gives that group
      or one tried before it. */
  lemma KeywordBoundsPriority(question: string, tags: seq<string>, j: nat, k: string)
    requires j < |Rules| && k in Rules[j].1 && Contains(Combined(question, tags), k)
    ensures Priority(InferCategory(question, tags)) <= j
  {
  }

  /** A keyword met only in the question is enough (the match is an unanchored substring
      test). */
  lemma KeywordInQuestion(question: string, tags: seq<string>, j: nat, k: string)
    requires j < |Rules| && k in Rules[j].1 && Contains(Lower(question), k)
    ensures Priority(InferCategory(question, tags)) <= j
  {
    ContainsInConcat([], Lower(question), " " + Join(LowerAll(tags), " "), k);
    assert [] + Lower(question) + (" " + Join(LowerAll(tags), " ")) == Combined(question, tags);
    KeywordBoundsPriority(question, tags, j, k);
  }

  /** A keyword met only in one of the tags is enough. */
  lemma KeywordInTag(question: string, tags: seq<string>, i: nat, j: nat, k: string)
    requires i < |tags| && j < |Rules| && k in Rules[j].1 && Contains(Lower(tags[i]), k)
    ensures Priority(InferCategory(question, tags)) <= j
  {
    ContainsInJoin(LowerAll(tags), " ", i, k);
    ContainsInConcat(Lower(question) + " ", Join(LowerAll(tags), " "), [], k);
    assert Lower(question) + " " + Join(LowerAll(tags), " ") + [] == Combined(question, tags);
    KeywordBoundsPriority(question, tags, j, k);
  }

  /** A string found in one of the joined pieces is found in the joined string. */
  lemma {:induction false} ContainsInJoin(ws: seq<string>, sep: string, i: nat, k: string)
    requires i < |ws| && Contains(ws[i], k)
    ensures Contains(Join(ws, sep), k)
  {
    if |ws| == 1 {
      assert Join(ws, sep) == ws[0];
    } else if i == 0 {
      ContainsInConcat([], ws[0], sep + Join(ws[1..], sep), k);
      assert [] + ws[0] + (sep + Join(ws[1..], sep)) == Join(ws, sep);
    } else {
      assert ws[1..][i - 1] == ws[i];
      ContainsInJoin(ws[1..], sep, i - 1, k);
      ContainsInConcat(ws[0] + sep, Join(ws[1..], sep), [], k);
      assert ws[0] + sep + Join(ws[1..], sep) + [] == Join(ws, sep);
    }
  }

  /** The politics group is tried first: a question that mentions an election is about
      politics whatever else it mentions ("bitcoin" included). */
  lemma ElectionIsPolitics(question: string, tags: seq<string>)
    requires Contains(Lower(question), "election")
    ensures InferCategory(question, tags) == Politics
  {
    KeywordInQuestion(question, tags, 0, "election");
  }

  /** "ai" matches inside any word ("rain", "said"): such a question is never classified
      below technology. */
  lemma AiSubstringIsTechnologyOrEarlier(question: string, tags: seq<string>)
    requires Contains(Lower(question), "ai")
    ensures InferCategory(question, tags) in {Politics, Crypto, Sports, Technology}
  {
    KeywordInQuestion(question, tags, 3, "ai");
  }

  /** "rain" contains "ai". */
  lemma RainContainsAi()
    ensures Contains(Lower("will it rain"), "ai")
  {
    assert OccursAt(Lower("will it rain"), "ai", 9);
  }

  // ------------------------------------------------------------------------------------
  // Platform adapters
  // ------------------------------------------------------------------------------------

  /** `Math.round`: the nearest integer, halves rounded up. */
  function Round(x: real): (n: int)
    ensures n as real - 0.5 <= x < n as real + 0.5
  {
    (x + 0.5).Floor
  }

  /** A probability in [0, 1] becomes a whole percentage in [0, 100]. */
  lemma RoundPercent(p: real)
    requires 0.0 <= p <= 1.0
    ensures 0 <= Round(p * 100.0) <= 100
  {
  }

  /** The id prefix each adapter puts in front of the platform's own id. */
  function IdPrefix(p: Platform): string
  {
    match p
    case Polymarket => "polymarket-"
    case Kalshi => "kalshi-"
    case Manifold => "manifold-"
    case Metaculus => "metaculus-"
  }

  /** `endDate: x || null`: an empty or missing date is no date. */
  function OptionalText(s: string): (r: Option<string>)
    ensures r.None? <==> s == ""
    ensures r.Some? ==> r.value == s
  {
    if s == "" then None else Some(s)
  }

  /** `PolymarketRaw`. Missing strings are empty. `firstPrice` is `parseFloat` of the first
      element of `JSON.parse(outcomePrices || '[]')` when that is an array with at least one
      element, and `None` otherwise; `volumeParsed` is `parseFloat(volume)`, `None` when that
      is `NaN`. */
  datatype PolymarketRaw = PolymarketRaw(
    id: string,
    question: string,
    slug: string,
    image: Option<string>,
    firstPrice: Option<real>,
    volumeParsed: Option<real>,
    volumeNum: Option<real>,
    endDateIso: string)

  /** `parsePolymarket`. */
  function ParsePolymarket(raw: PolymarketRaw): (r: Option<UnifiedMarket>)
    ensures r.None? <==>
      raw.question == "" || OrNumber(raw.volumeNum, OrNumber(raw.volumeParsed, 0.0)) <= 0.0
    ensures r.Some? ==>
      && r.value.id == IdPrefix(Polymarket) + raw.id
      && r.value.question == raw.question
      && r.value.platform == Polymarket
      && r.value.volume > 0.0
      && r.value.volumeLabel == "USDC"
      && r.value.category == InferCategory(raw.question, [])
      && r.value.endDate == OptionalText(raw.endDateIso)
      && r.value.url == "https://polymarket.com/event/" + raw.slug
      && r.value.imageUrl == raw.image
      && !r.value.isPlayMoney
    ensures r.Some? && raw.firstPrice.None? ==> r.value.probability == 50.0
    ensures r.Some? && raw.firstPrice.Some? ==>
      r.value.probability == Round(raw.firstPrice.value * 100.0) as real
    ensures r.Some? ==> r.value.volume == OrNumber(raw.volumeNum, OrNumber(raw.volumeParsed, 0.0))
    ensures raw.volumeNum.Some? && raw.volumeNum.value > 0.0 && raw.question != "" ==>
      r.Some? && r.value.volume == raw.volumeNum.value
  {
    var probability := if raw.firstPrice.Some? then Round(raw.firstPrice.value * 100.0) as real else 50.0;
    var volume := OrNumber(raw.volumeNum, OrNumber(raw.volumeParsed, 0.0));
    if raw.question == "" || volume <= 0.0 then None
    else Some(UnifiedMarket(
      IdPrefix(Polymarket) + raw.id, raw.question, Polymarket, probability, volume, "USDC",
      InferCategory(raw.question, []), OptionalText(raw.endDateIso),
      "https://polymarket.com/event/" + raw.slug, raw.image, false))
  }

  /** `KalshiMarket`. Missing strings are empty; missing numbers are `None`. */
  datatype KalshiRaw = KalshiRaw(
    ticker: string,
    title: string,
    subtitle: string,
    category: string,
    yesBid: Option<real>,
    yesAsk: Option<real>,
    lastPrice: Option<real>,
    volume: Option<real>,
    volume24h: Option<real>,
    closeTime: string)

  /** `parseKalshi`. */
  function ParseKalshi(raw: KalshiRaw): (r: Option<UnifiedMarket>)
    ensures r.None? <==> raw.title == ""
    ensures r.Some? ==>
      && r.value.id == IdPrefix(Kalshi) + raw.ticker
      && r.value.platform == Kalshi
      && r.value.volume == OrNumber(raw.volume, OrNumber(raw.volume24h, 0.0))
      && r.value.volumeLabel == "USD"
      && r.value.endDate == OptionalText(raw.closeTime)
      && r.value.url == "https://kalshi.com/markets/" + raw.ticker
      && r.value.imageUrl.None?
      && !r.value.isPlayMoney
    ensures r.Some? && raw.subtitle == "" ==> r.value.question == raw.title
    ensures r.Some? && raw.subtitle != "" ==> r.value.question == raw.title + ": " + raw.subtitle
    ensures r.Some? && raw.category == "" ==> r.value.category == InferCategory(r.value.question, [])
    ensures r.Some? && raw.category != "" ==>
      r.value.category == InferCategory(r.value.question, [raw.category])
    ensures r.Some? && raw.lastPrice.Some? ==>
      r.value.probability == Round(raw.lastPrice.value * 100.0) as real
    ensures r.Some? && raw.lastPrice.None? && raw.yesBid.Some? && raw.yesAsk.Some? ==>
      r.value.probability == Round((raw.yesBid.value + raw.yesAsk.value) / 2.0 * 100.0) as real
    ensures r.Some? && raw.lastPrice.None? && (raw.yesBid.None? || raw.yesAsk.None?) ==>
      r.value.probability == 50.0
  {
    var probability :=
      if raw.lastPrice.Some? then Round(raw.lastPrice.value * 100.0) as real
      else if raw.yesBid.Some? && raw.yesAsk.Some? then
        Round(((raw.yesBid.value + raw.yesAsk.value) / 2.0) * 100.0) as real
      else 50.0;
    var volume := OrNumber(raw.volume, OrNumber(raw.volume24h, 0.0));
    if raw.title == "" then None
    else
      var question := if raw.subtitle != "" then raw.title + ": " + raw.subtitle else raw.title;
      var tags := if raw.category != "" then [raw.category] else [];
      Some(UnifiedMarket(
        IdPrefix(Kalshi) + raw.ticker, question, Kalshi, probability, volume, "USD",
        InferCategory(question, tags), OptionalText(raw.closeTime),
        "https://kalshi.com/markets/" + raw.ticker, None, false))
  }

  /** `ManifoldMarket`. Missing strings and lists are empty, a missing `isResolved` is false,
      missing numbers are `None`. */
  datatype ManifoldRaw = ManifoldRaw(
    id: string,
    question: string,
    slug: string,
    creatorUsername: string,
    probability: Option<real>,
    volume: Option<real>,
    closeTime: Option<real>,
    isResolved: bool,
    groupSlugs: seq<string>,
    coverImageUrl: Option<string>,
    outcomeType: string)

  /** `parseManifold`. `isoString` stands for `new Date(t).toISOString()`. */
  function ParseManifold(raw: ManifoldRaw, isoString: real -> string): (r: Option<UnifiedMarket>)
    ensures r.None? <==>
      (raw.outcomeType != "" && raw.outcomeType != "BINARY") || raw.isResolved || raw.question == ""
    ensures r.Some? ==>
      && r.value.id == IdPrefix(Manifold) + raw.id
      && r.value.question == raw.question
      && r.value.platform == Manifold
      && r.value.volume == OrNumber(raw.volume, 0.0)
      && r.value.volumeLabel == "Mana (Play $)"
      && r.value.category == InferCategory(raw.question, raw.groupSlugs)
      && r.value.url == "https://manifold.markets/" + raw.creatorUsername + "/" + raw.slug
      && r.value.imageUrl == raw.coverImageUrl
      && r.value.isPlayMoney
    ensures r.Some? && raw.probability.None? ==> r.value.probability == 50.0
    ensures r.Some? && raw.probability.Some? ==>
      r.value.probability == Round(raw.probability.value * 100.0) as real
    ensures r.Some? ==>
      (r.value.endDate.Some? <==> raw.closeTime.Some? && raw.closeTime.value != 0.0)
    ensures r.Some? ==>
      r.value.endDate ==
        (if raw.closeTime.Some? && raw.closeTime.value != 0.0 then Some(isoString(raw.closeTime.value)) else None)
  {
    if raw.outcomeType != "" && raw.outcomeType != "BINARY" then None
    else if raw.isResolved then None
    else
      var probability :=
        if raw.probability.Some? then Round(raw.probability.value * 100.0) as real else 50.0;
      var volume := OrNumber(raw.volume, 0.0);
      if raw.question == "" then None
      else
        var endDate :=
          if raw.closeTime.Some? && raw.closeTime.value != 0.0 then Some(isoString(raw.closeTime.value))
          else None;
        Some(UnifiedMarket(
          IdPrefix(Manifold) + raw.id, raw.question, Manifold, probability, volume,
          "Mana (Play $)", InferCategory(raw.question, raw.groupSlugs), endDate,
          "https://manifold.markets/" + raw.creatorUsername + "/" + raw.slug,
          raw.coverImageUrl, true))
  }

  /** `MetaculusQuestion`. Missing strings are empty; `resolution` is `None` when it is `null`
      or missing; `communityQ2` and `metaculusQ2` are the nested `full.q2` values. */
  datatype MetaculusRaw = MetaculusRaw(
    id: nat,
    title: string,
    titleShort: string,
    urlWithId: string,
    pageUrl: string,
    closeTime: string,
    effectedCloseTime: string,
    resolution: Option<real>,
    communityQ2: Option<real>,
    metaculusQ2: Option<real>,
    numberOfForecasters: Option<real>,
    forecastsCount: Option<real>,
    predictionCount: Option<real>)

  /** `parseMetaculus`. */
  function ParseMetaculus(raw: MetaculusRaw): (r: Option<UnifiedMarket>)
    ensures r.None? <==> raw.resolution.Some? || (raw.title == "" && raw.titleShort == "")
    ensures r.Some? ==>
      && r.value.id == IdPrefix(Metaculus) + NatToString(raw.id)
      && r.value.question == OrString(raw.title, raw.titleShort)
      && r.value.platform == Metaculus
      && r.value.volumeLabel == "Forecasts"
      && r.value.category == InferCategory(r.value.question, [])
      && r.value.endDate == OptionalText(OrString(raw.closeTime, raw.effectedCloseTime))
      && r.value.imageUrl.None?
      && r.value.isPlayMoney
    ensures r.Some? && raw.title != "" ==> r.value.question == raw.title
    ensures r.Some? && raw.communityQ2.Some? ==>
      r.value.probability == Round(raw.communityQ2.value * 100.0) as real
    ensures r.Some? && raw.communityQ2.None? && raw.metaculusQ2.Some? ==>
      r.value.probability == Round(raw.metaculusQ2.value * 100.0) as real
    ensures r.Some? && raw.communityQ2.None? && raw.metaculusQ2.None? ==>
      r.value.probability == 50.0
    ensures r.Some? ==>
      r.value.volume == OrNumber(raw.numberOfForecasters,
        OrNumber(raw.forecastsCount, OrNumber(raw.predictionCount, 0.0)))
    ensures r.Some? ==> (r.value.volume == 0.0 <==>
      (forall c :: c in [raw.numberOfForecasters, raw.forecastsCount, raw.predictionCount] ==>
         c.None? || c.value == 0.0))
    ensures r.Some? && raw.urlWithId == "" && raw.pageUrl == "" ==>
      r.value.url == "https://www.metaculus.com/questions/" + NatToString(raw.id) + "/"
    ensures r.Some? && raw.urlWithId != "" ==> r.value.url == raw.urlWithId
    ensures r.Some? && raw.urlWithId == "" && raw.pageUrl != "" ==> r.value.url == raw.pageUrl
  {
    if raw.resolution.Some? then None
    else
      var probability :=
        if raw.communityQ2.Some? then Round(raw.communityQ2.value * 100.0) as real
        else if raw.metaculusQ2.Some? then Round(raw.metaculusQ2.value * 100.0) as real
        else 50.0;
      var title := OrString(raw.title, raw.titleShort);
      if title == "" then None
      else
        var forecastCount := OrNumber(raw.numberOfForecasters,
          OrNumber(raw.forecastsCount, OrNumber(raw.predictionCount, 0.0)));
        var url := OrString(raw.urlWithId, OrString(raw.pageUrl,
          "https://www.metaculus.com/questions/" + NatToString(raw.id) + "/"));
        Some(UnifiedMarket(
          IdPrefix(Metaculus) + NatToString(raw.id), title, Metaculus, probability,
          forecastCount, "Forecasts", InferCategory(title, []),
          OptionalText(OrString(raw.closeTime, raw.effectedCloseTime)), url, None, true))
  }

  /** The id of a market an adapter returns starts with its platform's prefix. */
  predicate IdMatchesPlatform(m: UnifiedMarket)
  {
    |IdPrefix(m.platform)| <= |m.id| && m.id[..|IdPrefix(m.platform)|] == IdPrefix(m.platform)
  }

  /** Every adapter labels its markets with its own platform and prefixes their ids with it. */
  lemma AdaptersPrefixIds(p: PolymarketRaw, k: KalshiRaw, m: ManifoldRaw,
                          iso: real -> string, q: MetaculusRaw)
    ensures ParsePolymarket(p).Some? ==> IdMatchesPlatform(ParsePolymarket(p).value)
    ensures ParseKalshi(k).Some? ==> IdMatchesPlatform(ParseKalshi(k).value)
    ensures ParseManifold(m, iso).Some? ==> IdMatchesPlatform(ParseManifold(m, iso).value)
    ensures ParseMetaculus(q).Some? ==> IdMatchesPlatform(ParseMetaculus(q).value)
  {
    assert forall a: string, b: string :: (a + b)[..|a|] == a;
  }

  /** Markets of different platforms whose ids carry their platform prefixes never share an
      id, so ids from the four adapters cannot collide across platforms. */
  lemma IdsDifferAcrossPlatforms(a: UnifiedMarket, b: UnifiedMarket)
    requires IdMatchesPlatform(a) && IdMatchesPlatform(b) && a.platform != b.platform
    ensures a.id != b.id
  {
    var pa, pb := IdPrefix(a.platform), IdPrefix(b.platform);
    assert a.id[..|pa|][0] == a.id[0] && a.id[..|pa|][1] == a.id[1];
    assert b.id[..|pb|][0] == b.id[0] && b.id[..|pb|][1] == b.id[1];
  }
}
