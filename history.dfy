/** The Manifold price-history route (src/app/api/history/manifold/route.ts): the range
    window, the conversion of bets into history points and `deduplicateHistory`, which keeps
    one point per hour. Times of points are whole seconds; bet timestamps are milliseconds. */
module ManifoldHistory {
  import opened Wrappers
  import opened Seqs
  import opened Sorting

  /** `HistoryPoint`: a time in seconds and a price in percent. */
  datatype HistoryPoint = HistoryPoint(time: int, value: real)

  // ------------------------------------------------------------------------------------
  // The range window
  // ------------------------------------------------------------------------------------

  const HourMs: int := 60 * 60 * 1000
  const DayMs: int := 24 * HourMs

  /** `searchParams.get('range') || '7d'`: a missing or empty range is a week. */
  function RangeParam(param: Option<string>): (range: string)
    ensures param.Some? && param.value != "" ==> range == param.value
    ensures param.None? || param.value == "" ==> range == "7d"
  {
    OrString(param.GetOr(""), "7d")
  }

  /** The `switch (range)` that picks the earliest bet time (ms) shown; `now` is `Date.now()`. */
  function AfterTime(range: string, now: int): int
  {
    match range
    case "24h" => now - 24 * 60 * 60 * 1000
    case "7d" => now - 7 * 24 * 60 * 60 * 1000
    case "30d" => now - 30 * 24 * 60 * 60 * 1000
    case "all" => 0
    case _ => now - 7 * 24 * 60 * 60 * 1000
  }

  /** "all" shows everything since the epoch, the named windows are one day, one week and
      thirty days long, and every other range behaves like "7d". */
  lemma AfterTimeWindows(range: string, now: int)
    ensures AfterTime("all", now) == 0
    ensures now - AfterTime("24h", now) == DayMs
    ensures now - AfterTime("7d", now) == 7 * DayMs
    ensures now - AfterTime("30d", now) == 30 * DayMs
    ensures range !in {"24h", "7d", "30d", "all"} ==> AfterTime(range, now) == AfterTime("7d", now)
    ensures AfterTime("30d", now) <= AfterTime("7d", now) <= AfterTime("24h", now) < now
  {
  }

  // ------------------------------------------------------------------------------------
  // Bets to points
  // ------------------------------------------------------------------------------------

  /** A Manifold bet as far as the route reads it: timestamps in milliseconds and the
      probabilities before and after it, each possibly absent. */
  datatype Bet = Bet(createdTime: Option<int>, updatedTime: Option<int>,
                     probBefore: Option<real>, probAfter: Option<real>)

  /** `x || y` on optional integers: absent and 0 are falsy. */
  function OrTime(x: Option<int>, y: Option<int>): (r: Option<int>)
    ensures x.Some? && x.value != 0 ==> r == x
    ensures x.None? || x.value == 0 ==> r == y
  {
    if x.Some? && x.value != 0 then x else y
  }

  /** The point a bet contributes: none without a truthy timestamp at or after `afterTime`
      or without a numeric `probAfter || probBefore`; otherwise the timestamp in whole
      seconds (`Math.floor(timestamp / 1000)`) and the probability in percent. */
  function PointOf(bet: Bet, afterTime: int): Option<HistoryPoint>
  {
    var timestamp := OrTime(bet.createdTime, bet.updatedTime);
    if timestamp.None? || timestamp.value == 0 || timestamp.value < afterTime then None
    else
      match OrOption(bet.probAfter, bet.probBefore)
      case None => None
      case Some(probability) => Some(HistoryPoint(timestamp.value / 1000, probability * 100.0))
  }

  /** A point is made exactly from a bet with a truthy timestamp at or after the window start
      and a usable probability; its time is the second in which the bet was made and its
      value the probability after the bet (before it when that is absent or 0), in percent. */
  lemma PointOfMeaning(bet: Bet, afterTime: int)
    ensures PointOf(bet, afterTime).Some? <==>
      && OrTime(bet.createdTime, bet.updatedTime).Some?
      && OrTime(bet.createdTime, bet.updatedTime).value != 0
      && OrTime(bet.createdTime, bet.updatedTime).value >= afterTime
      && OrOption(bet.probAfter, bet.probBefore).Some?
    ensures PointOf(bet, afterTime).Some? ==>
      var ts := OrTime(bet.createdTime, bet.updatedTime).value;
      var p := PointOf(bet, afterTime).value;
      && p.time * 1000 <= ts < p.time * 1000 + 1000
      && (bet.probAfter.Some? && bet.probAfter.value != 0.0 ==> p.value == bet.probAfter.value * 100.0)
      && (bet.probAfter.None? || bet.probAfter.value == 0.0 ==> p.value == bet.probBefore.value * 100.0)
  {
  }

  /** The points of the bets, in bet order. */
  function PointsOf(bets: seq<Bet>, afterTime: int): seq<HistoryPoint>
  {
    if bets == [] then []
    else
      var n := |bets| - 1;
      PointsOf(bets[..n], afterTime) + OptionToSeq(PointOf(bets[n], afterTime))
  }

  function OptionToSeq<T>(o: Option<T>): seq<T>
  {
    if o.Some? then [o.value] else []
  }

  /** Each bet contributes at most one point, and every point is the point of some bet. */
  lemma {:induction false} PointsOfFromBets(bets: seq<Bet>, afterTime: int)
    ensures |PointsOf(bets, afterTime)| <= |bets|
    ensures forall p :: p in PointsOf(bets, afterTime) ==>
      exists k :: 0 <= k < |bets| && PointOf(bets[k], afterTime) == Some(p)
  {
    if bets != [] {
      var n := |bets| - 1;
      PointsOfFromBets(bets[..n], afterTime);
      forall p | p in PointsOf(bets, afterTime)
        ensures exists k :: 0 <= k < |bets| && PointOf(bets[k], afterTime) == Some(p)
      {
        if p in PointsOf(bets[..n], afterTime) {
          var k :| 0 <= k < n && PointOf(bets[..n][k], afterTime) == Some(p);
          assert bets[..n][k] == bets[k];
        } else {
          assert PointOf(bets[n], afterTime) == Some(p);
        }
      }
    }
  }

  /** Every bet whose point exists contributes it. */
  lemma {:induction false} PointsOfComplete(bets: seq<Bet>, afterTime: int, k: nat)
    requires k < |bets| && PointOf(bets[k], afterTime).Some?
    ensures PointOf(bets[k], afterTime).value in PointsOf(bets, afterTime)
  {
    var n := |bets| - 1;
    if k < n {
      assert bets[..n][k] == bets[k];
      PointsOfComplete(bets[..n], afterTime, k);
    }
  }

  /** The loop over the bets (lines 90-103) and the current price appended as the latest
      point; `nowMs` is the `Date.now()` of that last point. */
  method BetsToHistory(bets: seq<Bet>, afterTime: int, currentProbability: real, nowMs: int)
    returns (history: seq<HistoryPoint>)
    ensures history == PointsOf(bets, afterTime) + [HistoryPoint(nowMs / 1000, currentProbability)]
  {
    history := [];
    for k := 0 to |bets|
      invariant history == PointsOf(bets[..k], afterTime)
    {
      assert bets[..k + 1][..k] == bets[..k];
      var bet := bets[k];
      var timestamp := OrTime(bet.createdTime, bet.updatedTime);
      if timestamp.None? || timestamp.value == 0 || timestamp.value < afterTime {
        continue;
      }
      var probability := OrOption(bet.probAfter, bet.probBefore);
      if probability.Some? {
        history := history + [HistoryPoint(timestamp.value / 1000, probability.value * 100.0)];
      }
    }
    assert bets[..|bets|] == bets;
    history := history + [HistoryPoint(nowMs / 1000, currentProbability)];
  }

  /** The history ends with the current price and holds at most one point per bet before it. */
  lemma BetsToHistoryShape(bets: seq<Bet>, afterTime: int, currentProbability: real, nowMs: int)
    ensures var history := PointsOf(bets, afterTime) + [HistoryPoint(nowMs / 1000, currentProbability)];
      && 1 <= |history| <= |bets| + 1
      && history[|history| - 1] == HistoryPoint(nowMs / 1000, currentProbability)
  {
    PointsOfFromBets(bets, afterTime);
  }

  // ------------------------------------------------------------------------------------
  // deduplicateHistory
  // ------------------------------------------------------------------------------------

  /** `Math.floor(time / 3600) * 3600`: the start of the hour holding `time`. */
  function HourKey(time: int): int
  {
    (time / 3600) * 3600
  }

  /** Later times fall in the same or a later hour. */
  lemma HourKeyMonotone(t1: int, t2: int)
    requires t1 <= t2
    ensures HourKey(t1) <= HourKey(t2)
  {
    assert t1 / 3600 <= t2 / 3600;
  }

  /** The sort key of `(a, b) => a.time - b.time`: ascending by time is descending by `-time`. */
  function TimeKey(p: HistoryPoint): real
  {
    -(p.time as real)
  }

  /** `!isNaN(p.value) && p.value >= 0 && p.value <= 100`. */
  predicate InRange(p: HistoryPoint)
  {
    0.0 <= p.value <= 100.0
  }

  /** The `Map<number, HistoryPoint>` of hour buckets: keys in first insertion order and the
      point stored under each. */
  datatype HourMap = HourMap(keys: seq<int>, points: map<int, HistoryPoint>)

  /** `hourMap.set(k, p)`: a new key goes last; an existing key keeps its place and takes the
      new point. */
  function Put(h: HourMap, k: int, p: HistoryPoint): (r: HourMap)
    ensures r.points == h.points[k := p]
  {
    HourMap(if k in h.points then h.keys else h.keys + [k], h.points[k := p])
  }

  /** The hour map after setting every point of `s` under its hour, in order. */
  function Buckets(s: seq<HistoryPoint>): HourMap
  {
    if s == [] then HourMap([], map[])
    else
      var n := |s| - 1;
      Put(Buckets(s[..n]), HourKey(s[n].time), s[n])
  }

  /** The keys are distinct and are exactly the keys holding a point. */
  ghost predicate WellFormed(h: HourMap)
  {
    && NoDuplicates(h.keys)
    && (forall a :: 0 <= a < |h.keys| ==> h.keys[a] in h.points)
    && (forall k :: k in h.points ==> k in h.keys)
  }

  /** `Array.from(hourMap.values())`. */
  function Values(h: HourMap): (r: seq<HistoryPoint>)
    requires forall a :: 0 <= a < |h.keys| ==> h.keys[a] in h.points
    ensures |r| == |h.keys|
    ensures forall a :: 0 <= a < |r| ==> r[a] == h.points[h.keys[a]]
  {
    seq(|h.keys|, a requires 0 <= a < |h.keys| => h.points[h.keys[a]])
  }

  /** No later point of `s` falls in the hour of `s[j]`. */
  ghost predicate LastOfBucket(s: seq<HistoryPoint>, j: nat)
    requires j < |s|
  {
    forall j' :: j < j' < |s| ==> HourKey(s[j'].time) != HourKey(s[j].time)
  }

  /** `p` survives deduplication of the time-sorted `sorted`: its value is in [0, 100] and it
      is the last point of its hour. */
  ghost predicate KeptFrom(sorted: seq<HistoryPoint>, p: HistoryPoint)
  {
    InRange(p) && exists j :: 0 <= j < |sorted| && sorted[j] == p && LastOfBucket(sorted, j)
  }

  /** The hours of the points strictly increase; in particular no two share an hour and the
      times strictly increase. */
  ghost predicate HoursIncrease(s: seq<HistoryPoint>)
  {
    forall a, b :: 0 <= a < b < |s| ==> HourKey(s[a].time) < HourKey(s[b].time)
  }

  /** Times never decrease. */
  ghost predicate TimesAscend(s: seq<HistoryPoint>)
  {
    forall a, b :: 0 <= a < b < |s| ==> s[a].time <= s[b].time
  }

  /** The bucket map is well formed, has no more keys than points, and stores each point
      under its own hour. */
  lemma {:induction false} BucketsWellFormed(s: seq<HistoryPoint>)
    ensures WellFormed(Buckets(s)) && |Buckets(s).keys| <= |s|
    ensures forall k :: k in Buckets(s).points ==> HourKey(Buckets(s).points[k].time) == k
  {
    if s != [] {
      BucketsWellFormed(s[..|s| - 1]);
    }
  }

  /** The last point of each hour is the one stored for that hour. */
  lemma {:induction false} BucketsKeepLast(s: seq<HistoryPoint>, j: nat)
    requires j < |s| && LastOfBucket(s, j)
    ensures HourKey(s[j].time) in Buckets(s).points && Buckets(s).points[HourKey(s[j].time)] == s[j]
  {
    var n := |s| - 1;
    if j < n {
      assert s[..n][j] == s[j];
      assert LastOfBucket(s[..n], j);
      BucketsKeepLast(s[..n], j);
    }
  }

  /** Every stored point is the last point of its hour. */
  lemma {:induction false} BucketsHoldLast(s: seq<HistoryPoint>, k: int)
    requires k in Buckets(s).points
    ensures exists j :: 0 <= j < |s| && s[j] == Buckets(s).points[k] && HourKey(s[j].time) == k
                        && LastOfBucket(s, j)
  {
    var n := |s| - 1;
    if k == HourKey(s[n].time) {
      assert LastOfBucket(s, n);
    } else {
      BucketsHoldLast(s[..n], k);
      var j :| 0 <= j < n && s[..n][j] == Buckets(s[..n]).points[k] && HourKey(s[..n][j].time) == k
               && LastOfBucket(s[..n], j);
      assert s[j] == s[..n][j];
      assert LastOfBucket(s, j);
    }
  }

  /** Over points in time order the hour keys come out strictly increasing, none later than
      the hour of the last point. */
  lemma {:induction false} BucketsOfAscending(s: seq<HistoryPoint>)
    requires TimesAscend(s)
    ensures var keys := Buckets(s).keys;
      forall a, b :: 0 <= a < b < |keys| ==> keys[a] < keys[b]
    ensures s != [] ==> forall k :: k in Buckets(s).keys ==> k <= HourKey(s[|s| - 1].time)
  {
    if s != [] {
      var n := |s| - 1;
      var h := Buckets(s[..n]);
      var kn := HourKey(s[n].time);
      assert TimesAscend(s[..n]);
      BucketsOfAscending(s[..n]);
      BucketsWellFormed(s[..n]);
      if n > 0 {
        HourKeyMonotone(s[n - 1].time, s[n].time);
        assert s[..n][n - 1] == s[n - 1];
      }
      assert below: forall k :: k in h.keys ==> k <= kn;
      var keys := Buckets(s).keys;
      if kn !in h.points {
        assert keys == h.keys + [kn];
        forall a, b | 0 <= a < b < |keys|
          ensures keys[a] < keys[b]
        {
          if b == |h.keys| {
            assert keys[a] == h.keys[a];
          }
        }
      }
    }
  }

  /** What is left of time-sorted points: bucket them by hour keeping the last, drop values
      outside [0, 100], sort by time again. */
  function HourlyInRange(sorted: seq<HistoryPoint>): seq<HistoryPoint>
  {
    BucketsWellFormed(sorted);
    SortDesc(Filter(Values(Buckets(sorted)), InRange), TimeKey)
  }

  /** The result of the source: the points sorted by time, then bucketed and filtered. */
  function Deduplicated(history: seq<HistoryPoint>): seq<HistoryPoint>
  {
    if history == [] then [] else HourlyInRange(SortDesc(history, TimeKey))
  }

  /** `deduplicateHistory`. */
  method DeduplicateHistory(history: seq<HistoryPoint>) returns (result: seq<HistoryPoint>)
    ensures history == [] ==> result == []
    ensures result == Deduplicated(history)
  {
    if |history| == 0 {
      return [];
    }
    var sorted := SortDesc(history, TimeKey);
    var keys: seq<int> := [];
    var points: map<int, HistoryPoint> := map[];
    for j := 0 to |sorted|
      invariant HourMap(keys, points) == Buckets(sorted[..j])
    {
      assert sorted[..j + 1][..j] == sorted[..j];
      var point := sorted[j];
      var hourKey := HourKey(point.time);
      if hourKey !in points {
        keys := keys + [hourKey];
      }
      points := points[hourKey := point];
    }
    assert sorted[..|sorted|] == sorted;
    BucketsWellFormed(sorted);
    result := SortDesc(Filter(Values(HourMap(keys, points)), InRange), TimeKey);
  }

  /** Points sorted by the time key are in time order. */
  lemma SortedByTimeKey(s: seq<HistoryPoint>)
    requires SortedDesc(s, TimeKey)
    ensures TimesAscend(s)
  {
    forall a, b | 0 <= a < b < |s|
      ensures s[a].time <= s[b].time
    {
      assert TimeKey(s[a]) >= TimeKey(s[b]);
    }
  }

  /** Points whose hours increase are sorted by the time key. */
  lemma HoursIncreaseSorted(s: seq<HistoryPoint>)
    requires HoursIncrease(s)
    ensures SortedDesc(s, TimeKey)
  {
    forall a, b | 0 <= a < b < |s|
      ensures TimeKey(s[a]) >= TimeKey(s[b])
    {
      if s[a].time > s[b].time {
        HourKeyMonotone(s[b].time, s[a].time);
      }
    }
  }

  /** Dropping points keeps the hours increasing. */
  lemma {:induction false} FilterHoursIncrease(s: seq<HistoryPoint>)
    requires HoursIncrease(s)
    ensures HoursIncrease(Filter(s, InRange))
  {
    if s != [] {
      assert HoursIncrease(s[1..]);
      FilterHoursIncrease(s[1..]);
      var rest := Filter(s[1..], InRange);
      if InRange(s[0]) {
        var r := [s[0]] + rest;
        forall b | 0 < b < |r|
          ensures HourKey(r[0].time) < HourKey(r[b].time)
        {
          FilterMembers(s[1..], InRange, r[b]);
          var c :| 0 <= c < |s[1..]| && s[1..][c] == r[b];
          assert s[c + 1] == r[b];
        }
        assert HoursIncrease(r);
      }
    }
  }

  /** The values of the hour map over time-sorted points lie in increasing hours. */
  lemma ValuesHoursIncrease(sorted: seq<HistoryPoint>)
    requires TimesAscend(sorted)
    ensures WellFormed(Buckets(sorted))
    ensures HoursIncrease(Values(Buckets(sorted)))
  {
    BucketsWellFormed(sorted);
    BucketsOfAscending(sorted);
  }

  /** Over time-sorted points the final sort leaves the filtered values as they are. */
  lemma HourlyIsFilter(sorted: seq<HistoryPoint>)
    requires TimesAscend(sorted)
    ensures WellFormed(Buckets(sorted))
    ensures HourlyInRange(sorted) == Filter(Values(Buckets(sorted)), InRange)
    ensures HoursIncrease(HourlyInRange(sorted))
  {
    ValuesHoursIncrease(sorted);
    var kept := Filter(Values(Buckets(sorted)), InRange);
    FilterHoursIncrease(Values(Buckets(sorted)));
    HoursIncreaseSorted(kept);
    SortDescOfSorted(kept, TimeKey);
  }

  /** Over time-sorted points: increasing hours, values in range, no more points. */
  lemma HourlyShape(sorted: seq<HistoryPoint>)
    requires TimesAscend(sorted)
    ensures HoursIncrease(HourlyInRange(sorted))
    ensures forall p :: p in HourlyInRange(sorted) ==> InRange(p)
    ensures |HourlyInRange(sorted)| <= |sorted|
  {
    HourlyIsFilter(sorted);
    BucketsWellFormed(sorted);
    var values := Values(Buckets(sorted));
    forall p | p in HourlyInRange(sorted)
      ensures InRange(p)
    {
      FilterMembers(values, InRange, p);
    }
  }

  /** Over time-sorted points a point is kept exactly when it is the last of its hour and in
      range. */
  lemma HourlyKeepsLast(sorted: seq<HistoryPoint>, p: HistoryPoint)
    requires TimesAscend(sorted)
    ensures p in HourlyInRange(sorted) <==> KeptFrom(sorted, p)
  {
    HourlyIsFilter(sorted);
    var h := Buckets(sorted);
    var values := Values(h);
    FilterMembers(values, InRange, p);
    if p in values {
      var a :| 0 <= a < |values| && values[a] == p;
      BucketsHoldLast(sorted, h.keys[a]);
    }
    if exists j :: 0 <= j < |sorted| && sorted[j] == p && LastOfBucket(sorted, j) {
      var j :| 0 <= j < |sorted| && sorted[j] == p && LastOfBucket(sorted, j);
      BucketsKeepLast(sorted, j);
      var a :| 0 <= a < |h.keys| && h.keys[a] == HourKey(p.time);
      assert values[a] == p;
    }
  }

  /** `deduplicateHistory`: points in strictly increasing hours (so sorted by time, at most one
      per hour), all values in [0, 100], and no more points than were given. */
  lemma DeduplicatedShape(history: seq<HistoryPoint>)
    ensures HoursIncrease(Deduplicated(history))
    ensures TimesAscend(Deduplicated(history))
    ensures forall a, b :: 0 <= a < b < |Deduplicated(history)| ==>
      HourKey(Deduplicated(history)[a].time) != HourKey(Deduplicated(history)[b].time)
    ensures forall p :: p in Deduplicated(history) ==> InRange(p)
    ensures |Deduplicated(history)| <= |history|
  {
    if history != [] {
      var sorted := SortDesc(history, TimeKey);
      SortedByTimeKey(sorted);
      HourlyShape(sorted);
      var r := HourlyInRange(sorted);
      HoursIncreaseSorted(r);
      SortedByTimeKey(r);
    }
  }

  /** A point is kept exactly when it is the last point of its hour in time order (ties in
      time keep their input order) and its value is in [0, 100]. */
  lemma DeduplicatedKeepsLast(history: seq<HistoryPoint>, p: HistoryPoint)
    ensures p in Deduplicated(history) <==> KeptFrom(SortDesc(history, TimeKey), p)
  {
    var sorted := SortDesc(history, TimeKey);
    if history == [] {
      assert |sorted| == 0;
      assert Deduplicated(history) == [];
    } else {
      assert Deduplicated(history) == HourlyInRange(sorted);
      SortedByTimeKey(sorted);
      HourlyKeepsLast(sorted, p);
    }
  }

  /** Filtering comes after bucketing: when the last point of an hour is out of range, no
      point of that hour is kept, even an earlier one in range. */
  lemma FilterAfterBucketing(history: seq<HistoryPoint>, j: nat)
    requires j < |history|
    requires var sorted := SortDesc(history, TimeKey); LastOfBucket(sorted, j) && !InRange(sorted[j])
    ensures var sorted := SortDesc(history, TimeKey);
      forall p :: p in Deduplicated(history) ==> HourKey(p.time) != HourKey(sorted[j].time)
  {
    var sorted := SortDesc(history, TimeKey);
    SortedByTimeKey(sorted);
    HourlyDropsBucket(sorted, j);
  }

  lemma HourlyDropsBucket(sorted: seq<HistoryPoint>, j: nat)
    requires TimesAscend(sorted) && j < |sorted| && LastOfBucket(sorted, j) && !InRange(sorted[j])
    ensures forall p :: p in HourlyInRange(sorted) ==> HourKey(p.time) != HourKey(sorted[j].time)
  {
    forall p | p in HourlyInRange(sorted)
      ensures HourKey(p.time) != HourKey(sorted[j].time)
    {
      HourlyKeepsLast(sorted, p);
      var j' :| 0 <= j' < |sorted| && sorted[j'] == p && LastOfBucket(sorted, j');
      if j' < j {
        assert HourKey(sorted[j].time) != HourKey(sorted[j'].time);
      } else if j' > j {
        assert HourKey(sorted[j'].time) != HourKey(sorted[j].time);
      } else {
        assert false;
      }
    }
  }
}
