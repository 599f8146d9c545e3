/** The look-ahead defence: what the engine sees at time `t` depends on no forecast run
    and no quote after `t` (core/features/queries.py, core/engine/markets.py). */
module LookAhead {
  import opened Lists
  import opened WeatherUtils
  import opened Shared
  import opened Features

  function RunBy(t: int): ForecastRow -> bool { (r: ForecastRow) => r.runTime <= t }

  function SeenBy(t: int): SnapshotRow -> bool { (s: SnapshotRow) => s.asOf <= t }

  /** The newest quotes of a ticker up to `t`: several rows when several share that time. */
  function NewestQuotes(d: SharedData, ticker: string, t: int): seq<SnapshotRow> {
    var time := Latest(Filter(d.snapshots, SnapshotUpTo(ticker, t)), SnapshotTime());
    if time.None? then [] else Filter(d.snapshots, SnapshotAt(ticker, time.value))
  }

  /** Rows that tie for newest are the same quote, so it does not matter which is returned. */
  ghost predicate TiesAgree(d: SharedData, t: int) {
    forall ticker :: Settled(NewestQuotes(d, ticker, t))
  }

  predicate Settled(rows: seq<SnapshotRow>) {
    forall x, y :: x in rows && y in rows ==> x == y
  }

  /** Two databases with the same reference rows and, in whatever physical order, the same
      forecasts and quotes up to `t`. */
  predicate Agree(a: SharedData, b: SharedData, t: int) {
    && a.locations == b.locations
    && a.markets == b.markets
    && multiset(Filter(a.forecasts, RunBy(t))) == multiset(Filter(b.forecasts, RunBy(t)))
    && multiset(Filter(a.snapshots, SeenBy(t))) == multiset(Filter(b.snapshots, SeenBy(t)))
  }

  /** A query whose rows all lie before `t` reads the same bag from both. */
  lemma VisibleRows<T>(xs: seq<T>, ys: seq<T>, visible: T -> bool, query: T -> bool)
    requires multiset(Filter(xs, visible)) == multiset(Filter(ys, visible))
    requires forall r :: query(r) ==> visible(r)
    ensures multiset(Filter(xs, query)) == multiset(Filter(ys, query))
  {
    FilterWithin(xs, query, visible);
    FilterWithin(ys, query, visible);
    FilterPermutation(Filter(xs, visible), Filter(ys, visible), query);
  }

  lemma WindowPermutation(xs: seq<ForecastRow>, ys: seq<ForecastRow>, asOf: int, target: Option<int>)
    requires multiset(xs) == multiset(ys)
    ensures TargetWindow(xs, asOf, target) == TargetWindow(ys, asOf, target)
  {
    assert |multiset(xs)| == |xs| && |multiset(ys)| == |ys|;
    assert forall r :: r in xs <==> r in multiset(xs);
    assert forall r :: r in ys <==> r in multiset(ys);
    FilterPermutation(xs, ys, WindowStarted(asOf));
    LatestPermutation(Filter(xs, WindowStarted(asOf)), Filter(ys, WindowStarted(asOf)), WindowOf());
  }

  lemma ForecastsAgree(a: SharedData, b: SharedData, t: int, k: RunKey, target: Option<int>)
    requires Agree(a, b, t)
    ensures multiset(LatestForecastRows(a, k, t, target)) == multiset(LatestForecastRows(b, k, t, target))
  {
    VisibleRows(a.forecasts, b.forecasts, RunBy(t), RunUpTo(k, t));
    LatestPermutation(Filter(a.forecasts, RunUpTo(k, t)), Filter(b.forecasts, RunUpTo(k, t)), RunTimeOf());
    LatestIsMaximum(Filter(a.forecasts, RunUpTo(k, t)), RunTimeOf());
    var run := Latest(Filter(a.forecasts, RunUpTo(k, t)), RunTimeOf());
    if run.Some? {
      var r :| r in Filter(a.forecasts, RunUpTo(k, t)) && r.runTime == run.value;
      FilterMember(a.forecasts, RunUpTo(k, t), r);
      VisibleRows(a.forecasts, b.forecasts, RunBy(t), RunAt(k, run.value));
      var xs, ys := Filter(a.forecasts, RunAt(k, run.value)), Filter(b.forecasts, RunAt(k, run.value));
      WindowPermutation(xs, ys, t, target);
      var window := TargetWindow(xs, t, target);
      if window.Some? { FilterPermutation(xs, ys, InWindow(window.value)); }
    }
  }

  /** The mean and the newest run of equal bags of rows are equal. */
  lemma SameBagSameSummary(xs: seq<ForecastRow>, ys: seq<ForecastRow>)
    requires multiset(xs) == multiset(ys)
    ensures |xs| == |ys| && EnsembleMean(xs) == EnsembleMean(ys)
    ensures SumReal(xs, ValueOf()) == SumReal(ys, ValueOf())
    ensures Latest(xs, RunTimeOf()) == Latest(ys, RunTimeOf())
  {
    assert |multiset(xs)| == |xs| && |multiset(ys)| == |ys|;
    SumRealPermutation(xs, ys, ValueOf());
    LatestPermutation(xs, ys, RunTimeOf());
  }

  lemma SnapshotsAgree(a: SharedData, b: SharedData, t: int, ticker: string)
    requires Agree(a, b, t) && Settled(NewestQuotes(a, ticker, t))
    ensures LatestSnapshot(a, ticker, t) == LatestSnapshot(b, ticker, t)
  {
    VisibleRows(a.snapshots, b.snapshots, SeenBy(t), SnapshotUpTo(ticker, t));
    var seen := Filter(a.snapshots, SnapshotUpTo(ticker, t));
    LatestPermutation(seen, Filter(b.snapshots, SnapshotUpTo(ticker, t)), SnapshotTime());
    LatestIsMaximum(seen, SnapshotTime());
    var time := Latest(seen, SnapshotTime());
    if time.Some? {
      var r :| r in seen && r.asOf == time.value;
      FilterMember(a.snapshots, SnapshotUpTo(ticker, t), r);
      VisibleRows(a.snapshots, b.snapshots, SeenBy(t), SnapshotAt(ticker, time.value));
      var xs, ys := Filter(a.snapshots, SnapshotAt(ticker, time.value)), Filter(b.snapshots, SnapshotAt(ticker, time.value));
      assert |multiset(xs)| == |xs| && |multiset(ys)| == |ys|;
      if |xs| > 0 {
        var x, y := xs[|xs| - 1], ys[|ys| - 1];
        assert y in multiset(xs);
        assert x in xs && y in xs;
      }
    }
  }

  /** Moving one row to the end of the table changes no bag of rows, and every query that
      returns the row returns it last. */
  lemma MoveToEnd(rows: seq<SnapshotRow>, z: SnapshotRow, query: SnapshotRow -> bool) returns (moved: seq<SnapshotRow>)
    requires z in rows && query(z)
    ensures multiset(moved) == multiset(rows)
    ensures |Filter(moved, query)| > 0 && Filter(moved, query)[|Filter(moved, query)| - 1] == z
  {
    var k :| 0 <= k < |rows| && rows[k] == z;
    var rest := rows[..k] + rows[k + 1..];
    RemoveAt(rows, k);
    assert z in multiset(rows);
    moved := rest + [z];
    FilterAppend(rest, z, query);
  }

  /** And that is exactly when: if two different quotes tie for newest, the same rows stored
      in another order answer the query differently. */
  lemma TiedQuotesDependOnOrder(d: SharedData, t: int, ticker: string) returns (d': SharedData)
    requires !Settled(NewestQuotes(d, ticker, t))
    ensures Agree(d, d', t) && multiset(d'.snapshots) == multiset(d.snapshots)
    ensures LatestSnapshot(d', ticker, t) != LatestSnapshot(d, ticker, t)
  {
    var time := Latest(Filter(d.snapshots, SnapshotUpTo(ticker, t)), SnapshotTime()).value;
    var x, y :| x in NewestQuotes(d, ticker, t) && y in NewestQuotes(d, ticker, t) && x != y;
    var z := if LatestSnapshot(d, ticker, t) == Some(x) then y else x;
    FilterMember(d.snapshots, SnapshotAt(ticker, time), z);
    var moved := MoveToEnd(d.snapshots, z, SnapshotAt(ticker, time));
    d' := d.(snapshots := moved);
    FilterPermutation(d.snapshots, moved, SeenBy(t));
    FilterPermutation(d.snapshots, moved, SnapshotUpTo(ticker, t));
    LatestPermutation(Filter(d.snapshots, SnapshotUpTo(ticker, t)), Filter(moved, SnapshotUpTo(ticker, t)), SnapshotTime());
  }

  lemma {:induction false} FlatMapSame<T, U>(xs: seq<T>, f: T -> seq<U>, g: T -> seq<U>)
    requires forall x :: x in xs ==> f(x) == g(x)
    ensures FlatMap(xs, f) == FlatMap(xs, g)
    decreases |xs|
  {
    if |xs| == 0 {
    } else {
      FlatMapSame(xs[..|xs| - 1], f, g);
    }
  }

  /** No feature computed at `t`, by any provider, sees past `t`. */
  lemma FeaturesDoNotLookAhead(a: SharedData, b: SharedData, t: int, target: Option<int>)
    requires Agree(a, b, t) && TiesAgree(a, t)
    ensures AllFeatures(a, t, target) == AllFeatures(b, t, target)
  {
    forall location: string
      ensures EnsemblePair(a, t, target)(location) == EnsemblePair(b, t, target)(location)
      ensures DisagreementOf(a, t, target)(location) == DisagreementOf(b, t, target)(location)
    {
      LocationFeaturesAgree(a, b, t, target, location);
    }
    FlatMapSame(a.locations, EnsemblePair(a, t, target), EnsemblePair(b, t, target));
    assert MapSeq(a.locations, DisagreementOf(a, t, target)) == MapSeq(a.locations, DisagreementOf(b, t, target));
    var markets := ListOpenMarkets(a, t);
    forall m: Market ensures SpreadOf(a, t)(m) == SpreadOf(b, t)(m) {
      assert Settled(NewestQuotes(a, m.ticker, t));
      SnapshotsAgree(a, b, t, m.ticker);
    }
    assert MapSeq(markets, SpreadOf(a, t)) == MapSeq(markets, SpreadOf(b, t));
  }

  /** What the temperature features read of a bag of rows. */
  predicate SameSummary(xs: seq<ForecastRow>, ys: seq<ForecastRow>) {
    |xs| == |ys| && SumReal(xs, ValueOf()) == SumReal(ys, ValueOf()) && Latest(xs, RunTimeOf()) == Latest(ys, RunTimeOf())
  }

  lemma SourceSummaryAgrees(a: SharedData, b: SharedData, t: int, target: Option<int>, location: string, source: ForecastSource)
    requires Agree(a, b, t)
    ensures SameSummary(TemperatureRows(a, location, source, t, target), TemperatureRows(b, location, source, t, target))
  {
    ForecastsAgree(a, b, t, RunKey(location, source, TEMPERATURE_VARIABLE), target);
    SameBagSameSummary(TemperatureRows(a, location, source, t, target), TemperatureRows(b, location, source, t, target));
  }

  lemma SummariesDecide(xs: seq<ForecastRow>, ys: seq<ForecastRow>, xs': seq<ForecastRow>, ys': seq<ForecastRow>)
    requires SameSummary(xs, ys) && SameSummary(xs', ys')
    ensures forall subject :: EnsembleOf(xs, subject) == EnsembleOf(ys, subject)
    ensures forall location, asOf :: Disagreement(xs, xs', location, asOf) == Disagreement(ys, ys', location, asOf)
  {
  }

  lemma LocationFeaturesAgree(a: SharedData, b: SharedData, t: int, target: Option<int>, location: string)
    requires Agree(a, b, t)
    ensures EnsembleFeature(a, location, Gfs, t, target) == EnsembleFeature(b, location, Gfs, t, target)
    ensures EnsembleFeature(a, location, Ecmwf, t, target) == EnsembleFeature(b, location, Ecmwf, t, target)
    ensures DisagreementFeature(a, location, t, target) == DisagreementFeature(b, location, t, target)
  {
    SourceSummaryAgrees(a, b, t, target, location, Gfs);
    SourceSummaryAgrees(a, b, t, target, location, Ecmwf);
    var gfs, gfs' := TemperatureRows(a, location, Gfs, t, target), TemperatureRows(b, location, Gfs, t, target);
    var ecmwf, ecmwf' := TemperatureRows(a, location, Ecmwf, t, target), TemperatureRows(b, location, Ecmwf, t, target);
    SummariesDecide(gfs, gfs', ecmwf, ecmwf');
    SummariesDecide(ecmwf, ecmwf', gfs, gfs');
  }

  /** Nor does any market state. */
  lemma MarketsDoNotLookAhead(a: SharedData, b: SharedData, t: int)
    requires Agree(a, b, t) && TiesAgree(a, t)
    ensures MarketStates(a, t) == MarketStates(b, t)
  {
    forall m: Market ensures MarketStateAt(a, t)(m) == MarketStateAt(b, t)(m) {
      assert Settled(NewestQuotes(a, m.ticker, t));
      SnapshotsAgree(a, b, t, m.ticker);
    }
    CollectSame(ListOpenMarkets(a, t), MarketStateAt(a, t), MarketStateAt(b, t));
  }

  /** An ingestion run that brings only later rows and touches no reference row is
      invisible at `t`. */
  lemma LaterIngestionIsInvisible(d: SharedData, r: FetchResult, t: int)
    requires |r.marketUpserts| == 0
    requires forall s :: s in r.snapshots ==> s.asOf > t
    requires forall f :: f in r.forecasts ==> f.runTime > t
    ensures Agree(d, Persist(d, r), t)
  {
    FilterNothing(d.forecasts, r.forecasts, RunBy(t));
    FilterNothing(d.snapshots, r.snapshots, SeenBy(t));
  }

  lemma {:induction false} FilterNothing<T>(xs: seq<T>, ys: seq<T>, p: T -> bool)
    requires forall y :: y in ys ==> !p(y)
    ensures Filter(xs + ys, p) == Filter(xs, p)
    decreases |ys|
  {
    if |ys| == 0 {
      assert xs + ys == xs;
    } else {
      var last := |ys| - 1;
      assert xs + ys == (xs + ys[..last]) + [ys[last]];
      FilterNothing(xs, ys[..last], p);
      FilterAppend(xs + ys[..last], ys[last], p);
    }
  }

  // ---------------------------------------------------------------- what the defence does not cover

  /** What a tick at `t` reads of a market row: whether it is listed, and the series of a
      listed and quoted one. */
  predicate ReadTheSame(d: SharedData, m: Market, u: Market, t: int) {
    && Tradable(t)(m) == Tradable(t)(u)
    && (Tradable(t)(m) && LatestSnapshot(d, m.ticker, t).Some? ==> MarketSeries(m) == MarketSeries(u))
  }

  /** The markets listed when the row between `before` and `after` is `m`. */
  lemma ListedAround(before: seq<Market>, m: Market, after: seq<Market>, t: int)
    ensures Filter(before + [m] + after, Tradable(t))
         == Filter(before, Tradable(t)) + (if Tradable(t)(m) then [m] else []) + Filter(after, Tradable(t))
  {
    FilterConcat(before + [m], after, Tradable(t));
    FilterAppend(before, m, Tradable(t));
  }

  lemma StatesAround(d: SharedData, before: seq<Market>, m: Market, after: seq<Market>, t: int)
    requires d.markets == before + [m] + after
    ensures var state := MarketStateAt(d, t)(m);
            MarketStates(d, t)
            == Collect(Filter(before, Tradable(t)), MarketStateAt(d, t))
               + (if Tradable(t)(m) && state.Some? then [state.value] else [])
               + Collect(Filter(after, Tradable(t)), MarketStateAt(d, t))
  {
    var f := MarketStateAt(d, t);
    var listed := if Tradable(t)(m) then [m] else [];
    ListedAround(before, m, after, t);
    CollectConcat(Filter(before, Tradable(t)) + listed, Filter(after, Tradable(t)), f);
    CollectConcat(Filter(before, Tradable(t)), listed, f);
    if Tradable(t)(m) { CollectOne(m, f); }
  }

  /** Reference rows are overwritten in place and carry no as-of time, so refreshing one can
      reach back: it is invisible to ticks at an earlier `t` exactly when they read the same
      of the old row and the new one. */
  lemma RefreshIsInvisibleIff(d: SharedData, k: nat, u: Market, t: int, target: Option<int>)
    requires InTickerOrder(d.markets) && k < |d.markets| && d.markets[k].ticker == u.ticker
    ensures var d' := Persist(d, FetchResult([u], [], [], []));
            (AllFeatures(d', t, target) == AllFeatures(d, t, target) && MarketStates(d', t) == MarketStates(d, t))
            <==> ReadTheSame(d, d.markets[k], u, t)
  {
    var m, before, after := d.markets[k], d.markets[..k], d.markets[k + 1..];
    var d' := Persist(d, FetchResult([u], [], [], []));
    assert UpsertAll(d.markets, [u]) == Upsert(d.markets, u) by { assert [u][..0] == []; }
    UpsertReplaces(d.markets, u, k);
    assert d.markets == before + [m] + after;
    RefreshedFeatures(d, d', before, m, u, after, t, target);
    if Tradable(t)(m) == Tradable(t)(u) { RefreshedStates(d, d', before, m, u, after, t); }
  }

  /** A market row that arrives later is invisible at an earlier `t` exactly when it is not
      listed at `t`. */
  lemma InsertIsInvisibleIff(d: SharedData, u: Market, t: int, target: Option<int>)
    requires forall m :: m in d.markets ==> m.ticker != u.ticker
    ensures var d' := Persist(d, FetchResult([u], [], [], []));
            (AllFeatures(d', t, target) == AllFeatures(d, t, target) && MarketStates(d', t) == MarketStates(d, t))
            <==> !Tradable(t)(u)
  {
    var d' := Persist(d, FetchResult([u], [], [], []));
    assert UpsertAll(d.markets, [u]) == Upsert(d.markets, u) by { assert [u][..0] == []; }
    var k := UpsertInserts(d.markets, u);
    var before, after := d.markets[..k], d.markets[k..];
    assert d.markets == before + after;
    assert d' == d.(markets := before + [u] + after);
    ListingGrowsIff(d, d', before, u, after, t);
    if Tradable(t)(u) {
      MoreFeatures(d, d', t, target);
    } else {
      SameListing(d, d'.markets, t, target);
    }
  }

  lemma ListingGrowsIff(d: SharedData, d': SharedData, before: seq<Market>, u: Market, after: seq<Market>, t: int)
    requires d.markets == before + after && d'.markets == before + [u] + after
    ensures if Tradable(t)(u) then |ListOpenMarkets(d', t)| == |ListOpenMarkets(d, t)| + 1
            else ListOpenMarkets(d', t) == ListOpenMarkets(d, t)
  {
    ListedAround(before, u, after, t);
    FilterConcat(before, after, Tradable(t));
  }

  /** A longer listing has more spread features. */
  lemma MoreFeatures(d: SharedData, d': SharedData, t: int, target: Option<int>)
    requires d' == d.(markets := d'.markets) && |ListOpenMarkets(d', t)| != |ListOpenMarkets(d, t)|
    ensures AllFeatures(d', t, target) != AllFeatures(d, t, target)
  {
    LocationsIgnoreMarkets(d, d'.markets, t, target);
  }

  lemma SameListing(d: SharedData, ms: seq<Market>, t: int, target: Option<int>)
    requires ListOpenMarkets(d.(markets := ms), t) == ListOpenMarkets(d, t)
    ensures AllFeatures(d.(markets := ms), t, target) == AllFeatures(d, t, target)
    ensures MarketStates(d.(markets := ms), t) == MarketStates(d, t)
  {
    var d' := d.(markets := ms);
    var listed := ListOpenMarkets(d, t);
    LocationsIgnoreMarkets(d, ms, t, target);
    forall m: Market ensures MarketStateAt(d', t)(m) == MarketStateAt(d, t)(m) { StatesOfOneTicker(d, ms, m, m, t); }
    CollectSame(listed, MarketStateAt(d', t), MarketStateAt(d, t));
    forall m: Market ensures SpreadOf(d', t)(m) == SpreadOf(d, t)(m) { SpreadIgnoresMarkets(d, ms, m, m, t); }
    assert MapSeq(listed, SpreadOf(d', t)) == MapSeq(listed, SpreadOf(d, t));
  }

  lemma QueriesIgnoreMarkets(d: SharedData, ms: seq<Market>, k: RunKey, ticker: string, t: int, target: Option<int>)
    ensures LatestForecastRows(d.(markets := ms), k, t, target) == LatestForecastRows(d, k, t, target)
    ensures LatestSnapshot(d.(markets := ms), ticker, t) == LatestSnapshot(d, ticker, t)
  {
  }

  lemma LocationsIgnoreMarkets(d: SharedData, ms: seq<Market>, t: int, target: Option<int>)
    ensures FlatMap(d.locations, EnsemblePair(d.(markets := ms), t, target)) == FlatMap(d.locations, EnsemblePair(d, t, target))
    ensures MapSeq(d.locations, DisagreementOf(d.(markets := ms), t, target)) == MapSeq(d.locations, DisagreementOf(d, t, target))
  {
    var d' := d.(markets := ms);
    forall location: string
      ensures EnsemblePair(d', t, target)(location) == EnsemblePair(d, t, target)(location)
      ensures DisagreementOf(d', t, target)(location) == DisagreementOf(d, t, target)(location)
    {
      QueriesIgnoreMarkets(d, ms, RunKey(location, Gfs, TEMPERATURE_VARIABLE), "", t, target);
      QueriesIgnoreMarkets(d, ms, RunKey(location, Ecmwf, TEMPERATURE_VARIABLE), "", t, target);
    }
    FlatMapSame(d.locations, EnsemblePair(d', t, target), EnsemblePair(d, t, target));
  }

  lemma SpreadIgnoresMarkets(d: SharedData, ms: seq<Market>, x: Market, y: Market, t: int)
    requires x.ticker == y.ticker
    ensures SpreadOf(d.(markets := ms), t)(x) == SpreadOf(d, t)(y)
  {
    QueriesIgnoreMarkets(d, ms, RunKey("", Gfs, TEMPERATURE_VARIABLE), x.ticker, t, None);
  }

  lemma RefreshedFeatures(
    d: SharedData, d': SharedData, before: seq<Market>, m: Market, u: Market, after: seq<Market>, t: int, target: Option<int>)
    requires d.markets == before + [m] + after && d' == d.(markets := before + [u] + after) && m.ticker == u.ticker
    ensures AllFeatures(d', t, target) == AllFeatures(d, t, target) <==> Tradable(t)(m) == Tradable(t)(u)
  {
    LocationsIgnoreMarkets(d, d'.markets, t, target);
    RefreshedSpreads(d, d', before, m, u, after, t);
    var located := FlatMap(d.locations, EnsemblePair(d, t, target)) + MapSeq(d.locations, DisagreementOf(d, t, target));
    SuffixDecides(located, MapSeq(ListOpenMarkets(d, t), SpreadOf(d, t)), MapSeq(ListOpenMarkets(d', t), SpreadOf(d', t)));
  }

  lemma SuffixDecides<T>(front: seq<T>, xs: seq<T>, ys: seq<T>)
    ensures front + xs == front + ys <==> xs == ys
  {
    assert (front + xs)[|front|..] == xs && (front + ys)[|front|..] == ys;
  }

  lemma MapSeqSame<T, U>(xs: seq<T>, ys: seq<T>, f: T -> U, g: T -> U)
    requires |xs| == |ys| && forall i :: 0 <= i < |xs| ==> f(xs[i]) == g(ys[i])
    ensures MapSeq(xs, f) == MapSeq(ys, g)
  {
    forall i | 0 <= i < |xs| ensures MapSeq(xs, f)[i] == MapSeq(ys, g)[i] { }
  }

  /** Exchanging a row for one of the same ticker keeps the tickers of a list. */
  lemma SameTickersAround(front: seq<Market>, mid: seq<Market>, mid': seq<Market>, back: seq<Market>, i: nat)
    requires |mid| == |mid'| && forall k :: 0 <= k < |mid| ==> mid[k].ticker == mid'[k].ticker
    requires i < |front + mid + back|
    ensures (front + mid + back)[i].ticker == (front + mid' + back)[i].ticker
  {
  }

  lemma RefreshedSpreads(
    d: SharedData, d': SharedData, before: seq<Market>, m: Market, u: Market, after: seq<Market>, t: int)
    requires d.markets == before + [m] + after && d' == d.(markets := before + [u] + after) && m.ticker == u.ticker
    ensures MapSeq(ListOpenMarkets(d, t), SpreadOf(d, t)) == MapSeq(ListOpenMarkets(d', t), SpreadOf(d', t))
            <==> Tradable(t)(m) == Tradable(t)(u)
  {
    ListedAround(before, m, after, t);
    ListedAround(before, u, after, t);
    if Tradable(t)(m) == Tradable(t)(u) {
      var front, back := Filter(before, Tradable(t)), Filter(after, Tradable(t));
      var mid, mid' := if Tradable(t)(m) then [m] else [], if Tradable(t)(u) then [u] else [];
      KeptSpreads(d, d'.markets, front, mid, mid', back, t);
    } else {
      LengthsDiffer(ListOpenMarkets(d, t), ListOpenMarkets(d', t), SpreadOf(d, t), SpreadOf(d', t));
    }
  }

  lemma LengthsDiffer<T, U>(xs: seq<T>, ys: seq<T>, f: T -> U, g: T -> U)
    requires |xs| != |ys|
    ensures MapSeq(xs, f) != MapSeq(ys, g)
  {
    assert |MapSeq(xs, f)| != |MapSeq(ys, g)|;
  }

  lemma KeptSpreads(
    d: SharedData, ms: seq<Market>, front: seq<Market>, mid: seq<Market>, mid': seq<Market>, back: seq<Market>, t: int)
    requires |mid| == |mid'| && forall k :: 0 <= k < |mid| ==> mid[k].ticker == mid'[k].ticker
    ensures MapSeq(front + mid + back, SpreadOf(d, t)) == MapSeq(front + mid' + back, SpreadOf(d.(markets := ms), t))
  {
    var xs, ys := front + mid + back, front + mid' + back;
    forall i | 0 <= i < |xs| ensures SpreadOf(d, t)(xs[i]) == SpreadOf(d.(markets := ms), t)(ys[i]) {
      SameTickersAround(front, mid, mid', back, i);
      SpreadIgnoresMarkets(d, ms, ys[i], xs[i], t);
    }
    MapSeqSame(xs, ys, SpreadOf(d, t), SpreadOf(d.(markets := ms), t));
  }

  /** Rows of the same ticker become the same state exactly when neither is quoted or their
      series agree. */
  lemma StatesOfOneTicker(d: SharedData, ms: seq<Market>, m: Market, u: Market, t: int)
    requires m.ticker == u.ticker
    ensures MarketStateAt(d.(markets := ms), t)(u) == MarketStateAt(d, t)(m)
            <==> (LatestSnapshot(d, m.ticker, t).Some? ==> MarketSeries(m) == MarketSeries(u))
    ensures MarketStateAt(d.(markets := ms), t)(u).Some? == MarketStateAt(d, t)(m).Some?
  {
    QueriesIgnoreMarkets(d, ms, RunKey("", Gfs, TEMPERATURE_VARIABLE), m.ticker, t, None);
  }

  lemma RefreshedStates(
    d: SharedData, d': SharedData, before: seq<Market>, m: Market, u: Market, after: seq<Market>, t: int)
    requires d.markets == before + [m] + after && d' == d.(markets := before + [u] + after) && m.ticker == u.ticker
    requires Tradable(t)(m) == Tradable(t)(u)
    ensures MarketStates(d', t) == MarketStates(d, t) <==> ReadTheSame(d, m, u, t)
  {
    var f, f' := MarketStateAt(d, t), MarketStateAt(d', t);
    forall x: Market ensures f'(x) == f(x) { StatesOfOneTicker(d, d'.markets, x, x, t); }
    CollectSame(Filter(before, Tradable(t)), f, f');
    CollectSame(Filter(after, Tradable(t)), f, f');
    StatesOfOneTicker(d, d'.markets, m, u, t);
    StatesAround(d, before, m, after, t);
    StatesAround(d', before, u, after, t);
    if Tradable(t)(m) && f(m).Some? {
      MiddleDecides(Collect(Filter(before, Tradable(t)), f), f(m).value, f'(u).value, Collect(Filter(after, Tradable(t)), f));
    }
  }

  lemma MiddleDecides<T>(front: seq<T>, x: T, y: T, back: seq<T>)
    ensures front + [y] + back == front + [x] + back <==> x == y
  {
    assert (front + [x] + back)[|front|] == x && (front + [y] + back)[|front|] == y;
  }

  lemma {:induction false} FlatMapPairs(locations: seq<string>, f: string -> seq<FeatureValue>)
    requires forall x :: |f(x)| == 2
    ensures |FlatMap(locations, f)| == 2 * |locations|
    decreases |locations|
  {
    if |locations| == 0 {
    } else {
      FlatMapPairs(locations[..|locations| - 1], f);
    }
  }

  lemma FeatureCount(d: SharedData, t: int, target: Option<int>)
    ensures |AllFeatures(d, t, target)| == 3 * |d.locations| + |ListOpenMarkets(d, t)|
  {
    FlatMapPairs(d.locations, EnsemblePair(d, t, target));
  }

  lemma {:induction false} InsertSortedLength(locations: seq<string>, id: string)
    ensures |InsertSorted(locations, id)| == |locations| + 1
    decreases |locations|
  {
    if |locations| == 0 {
    } else if !Precedes(id, locations[0]) {
      InsertSortedLength(locations[1..], id);
    }
  }

  /** Inserting adds to the length exactly when something was missing. */
  lemma {:induction false} InsertLocationsLength(locations: seq<string>, ids: seq<string>)
    ensures |InsertLocations(locations, ids)| >= |locations|
    ensures |InsertLocations(locations, ids)| == |locations| ==> InsertLocations(locations, ids) == locations
    decreases |ids|
  {
    if |ids| == 0 {
    } else {
      InsertLocationsLength(locations, ids[..|ids| - 1]);
      InsertSortedLength(InsertLocations(locations, ids[..|ids| - 1]), ids[|ids| - 1]);
    }
  }

  /** Seeding the locations is invisible at an earlier `t` exactly when none was missing. */
  lemma SeedingIsInvisibleIff(d: SharedData, t: int, target: Option<int>)
    ensures AllFeatures(SeedLocations(d), t, target) == AllFeatures(d, t, target)
            <==> forall id :: id in SEED_LOCATIONS ==> id in d.locations
  {
    FeatureCount(d, t, target);
    FeatureCount(SeedLocations(d), t, target);
    InsertLocationsLength(d.locations, SEED_LOCATIONS);
    InsertLocationsMembers(d.locations, SEED_LOCATIONS);
    if forall id :: id in SEED_LOCATIONS ==> id in d.locations { NothingToInsert(d.locations, SEED_LOCATIONS); }
  }

  lemma {:induction false} NothingToInsert(locations: seq<string>, ids: seq<string>)
    requires forall id :: id in ids ==> id in locations
    ensures InsertLocations(locations, ids) == locations
    decreases |ids|
  {
    if |ids| == 0 {
    } else {
      assert ids[|ids| - 1] in ids;
      NothingToInsert(locations, ids[..|ids| - 1]);
    }
  }
}
