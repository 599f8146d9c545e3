/** From the tables to what a strategy proposes: which markets a tick shows, when each strategy
    drafts a signal on one, and what the draft says (core/features/queries.py,
    core/engine/markets.py, core/strategies/). */
module Drafts {
  import opened Lists
  import opened Domain
  import opened WeatherUtils
  import opened Shared
  import opened Features
  import opened FeatureTheorems
  import opened Strategies
  import LedgerSpec
  import Means
  import Sizing

  // ---------------------------------------------------------------- the markets of a tick

  /** A market that may be traded at `asOf`: open or active, and not yet closed. */
  predicate MayTrade(m: Market, asOf: int) {
    (m.status == "open" || m.status == "active") && !(m.closeTime.Some? && m.closeTime.value <= asOf)
  }

  /** The series is the market's own or else what stands before the first dash of its ticker. */
  predicate SeriesOf(m: Market, series: string) {
    if |m.series| > 0 then series == m.series
    else '-' !in series && (m.ticker == series || series + "-" <= m.ticker)
  }

  lemma SeriesIsRead(m: Market, series: string)
    ensures MarketSeries(m) == series <==> SeriesOf(m, series)
  {
    if |m.series| == 0 {
      var parts := Sizing.SplitDash(m.ticker);
      Sizing.SplitJoin(m.ticker);
      if |parts| > 1 { assert m.ticker == parts[0] + "-" + Sizing.JoinDash(parts[1..]); }
      if SeriesOf(m, series) {
        if m.ticker == series {
          Sizing.NoDashNoSplit(series);
        } else {
          var rest := m.ticker[|series| + 1..];
          assert m.ticker == series + "-" + rest;
          Sizing.SplitAtDash(series, rest);
        }
      }
    }
  }

  /** What a state says: its market's names and place, and the newest quote. */
  ghost predicate StateOf(d: SharedData, asOf: int, m: Market, k: nat, s: MarketState) {
    && m in d.markets && MayTrade(m, asOf) && NewestQuote(d, m.ticker, asOf, k)
    && s.ticker == m.ticker && SeriesOf(m, s.series) && s.location == LocationForSeries(s.series)
    && s.bid == d.snapshots[k].bid && s.ask == d.snapshots[k].ask && s.mid == d.snapshots[k].mid && s.asOf == d.snapshots[k].asOf
  }

  lemma NewestIsUnique(d: SharedData, ticker: string, asOf: int, k: nat, k': nat)
    requires NewestQuote(d, ticker, asOf, k) && NewestQuote(d, ticker, asOf, k')
    ensures k == k'
  {
  }

  lemma ListedIff(d: SharedData, asOf: int, m: Market)
    ensures m in ListOpenMarkets(d, asOf) <==> m in d.markets && MayTrade(m, asOf)
  {
    FilterMember(d.markets, Tradable(asOf), m);
  }

  /** A tick shows exactly the markets that may be traded and have a quote, at their newest quote. */
  lemma StatesIff(d: SharedData, asOf: int, s: MarketState)
    ensures s in MarketStates(d, asOf) <==> exists m, k: nat :: StateOf(d, asOf, m, k, s)
  {
    var f := MarketStateAt(d, asOf);
    if s in MarketStates(d, asOf) {
      CollectMember(ListOpenMarkets(d, asOf), f, s);
      var m :| m in ListOpenMarkets(d, asOf) && f(m) == Some(s);
      ListedIff(d, asOf, m);
      var k := QuoteQuery(d, m.ticker, asOf);
      SeriesIsRead(m, s.series);
      assert StateOf(d, asOf, m, k, s);
    }
    if m, k: nat :| StateOf(d, asOf, m, k, s) {
      var k' := QuoteQuery(d, m.ticker, asOf);
      assert d.snapshots[k] in d.snapshots;
      NewestIsUnique(d, m.ticker, asOf, k, k');
      SeriesIsRead(m, s.series);
      ListedIff(d, asOf, m);
      CollectHolds(ListOpenMarkets(d, asOf), f, m);
    }
  }

  /** The places a series can be at are exactly the seeded ones. */
  lemma PlacesAreSeeded(place: string)
    ensures place in SEED_LOCATIONS <==> exists series :: LocationForSeries(series) == Some(place)
  {
    if place in SEED_LOCATIONS { var series := SeededPlace(place); }
    if series :| LocationForSeries(series) == Some(place) { SixPlaces(series); }
  }

  lemma SeededPlace(place: string) returns (series: string)
    requires place in SEED_LOCATIONS
    ensures LocationForSeries(series) == Some(place)
  {
    var table := SERIES_TO_LOCATION;
    assert SEED_LOCATIONS == [table[4].1, table[0].1, table[1].1, table[5].1, table[3].1, table[2].1];
    var i :| 0 <= i < 6 && table[i].1 == place;
    OwnWord(i);
    series := table[i].0;
  }

  lemma OwnWord(i: nat)
    requires i < |SERIES_TO_LOCATION|
    ensures LocationForSeries(SERIES_TO_LOCATION[i].0) == Some(SERIES_TO_LOCATION[i].1)
  {
    LocationIff(SERIES_TO_LOCATION[i].0, SERIES_TO_LOCATION[i].1);
    assert Begins(SERIES_TO_LOCATION[i].0, SERIES_TO_LOCATION[i].0) by { WordsAreUpper(i); }
  }

  lemma WordsAreUpper(i: nat)
    requires i < |SERIES_TO_LOCATION|
    ensures forall k :: 0 <= k < |SERIES_TO_LOCATION[i].0| ==> SameLetter(SERIES_TO_LOCATION[i].0[k], SERIES_TO_LOCATION[i].0[k])
  {
  }

  // ---------------------------------------------------------------- the mean a strategy works with

  /** The average of the model means there are. */
  function Outlook(gfs: Option<real>, ecmwf: Option<real>): Option<real> {
    match (gfs, ecmwf)
    case (Some(g), Some(e)) => Some((g + e) / 2.0)
    case (Some(g), None) => Some(g)
    case (None, Some(e)) => Some(e)
    case (None, None) => None
  }

  function ModelMean(v: View, location: string, source: ForecastSource): Option<real> {
    FeatureFrom(v, OfModel(location, source)).value
  }

  lemma RollupOfOne(f: FeatureValue, location: string)
    requires Numeric()(f)
    ensures var r := Aggregate([f], location);
            r.Some? && r.value.status.Present? && r.value.value == f.value && r.value.subject == location
  {
    FilterOfOne(f, Numeric());
    SumOfOne(f, NumberIn());
    LatestOfOne(f, TimeOf());
  }

  lemma RollupIgnores(parts: seq<FeatureValue>, usable: seq<FeatureValue>, location: string)
    requires Filter(parts, Numeric()) == Filter(usable, Numeric())
    ensures Aggregate(parts, location) == Aggregate(usable, location)
  {
  }

  lemma RollupOfBothIsAverage(g: FeatureValue, e: FeatureValue, location: string)
    requires Numeric()(g) && Numeric()(e)
    ensures var r := Aggregate([g, e], location);
            r.Some? && r.value.status.Present? && r.value.subject == location && r.value.value == Outlook(g.value, e.value)
  {
    RollupOfBoth(g, e, location);
    FilterOfTwo(g, e, Numeric());
    var usable := Filter([g, e], Numeric());
    assert usable == [g, e];
    SumOfTwo(g, e, NumberIn());
    var total, count := SumReal(usable, NumberIn()), |usable| as real;
    assert Aggregate([g, e], location).value.value == Some(total / count);
    assert total == g.value.value + e.value.value;
    Means.MeanOfTwo(total, count);
  }

  lemma RollupOfPair(g: FeatureValue, e: FeatureValue, location: string)
    requires (Numeric()(g) <==> g.value.Some?) && (Numeric()(e) <==> e.value.Some?)
    ensures var r := Aggregate([g, e], location);
            && r.Some? == Outlook(g.value, e.value).Some?
            && (r.Some? ==> r.value.status.Present? && r.value.subject == location && r.value.value == Outlook(g.value, e.value))
  {
    FilterOfTwo(g, e, Numeric());
    FilterOfOne(g, Numeric());
    FilterOfOne(e, Numeric());
    if Numeric()(g) && Numeric()(e) {
      RollupOfBothIsAverage(g, e, location);
    } else if Numeric()(g) {
      RollupIgnores([g, e], [g], location);
      RollupOfOne(g, location);
    } else if Numeric()(e) {
      RollupIgnores([g, e], [e], location);
      RollupOfOne(e, location);
    }
  }

  /** The rollup of a location is the average of its model means, and missing when both are. */
  lemma RollupMeaning(v: View, location: string)
    ensures var r := Aggregate(ModelMeans(v, location), location);
            && r.Some? == Outlook(ModelMean(v, location, Gfs), ModelMean(v, location, Ecmwf)).Some?
            && (r.Some? ==> r.value.status.Present? && r.value.subject == location
                            && r.value.value == Outlook(ModelMean(v, location, Gfs), ModelMean(v, location, Ecmwf)))
  {
    MissingHasNoValue(v, location, Gfs);
    MissingHasNoValue(v, location, Ecmwf);
    RollupOfPair(FeatureFrom(v, OfModel(location, Gfs)), FeatureFrom(v, OfModel(location, Ecmwf)), location);
  }

  lemma MissingHasNoValue(v: View, location: string, source: ForecastSource)
    ensures var f := FeatureFrom(v, OfModel(location, source));
            (f.value.Some? <==> f.status.Present?) && (f.value.Some? <==> Numeric()(f))
  {
  }

  // ---------------------------------------------------------------- when a strategy drafts

  /** The bid and ask of an uncrossed quote. */
  predicate Uncrossed(s: MarketState) { s.bid.Some? && s.ask.Some? && s.bid.value <= s.ask.value }

  function Probability(mean: real): real {
    if (mean - 32.0) / 100.0 < 0.05 then 0.05 else if (mean - 32.0) / 100.0 > 0.95 then 0.95 else (mean - 32.0) / 100.0
  }

  function Distance(x: real, y: real): real { if x < y then y - x else x - y }

  function Given(v: View, s: MarketState): FeatureMap { FeaturesForMarket(Index(v), s.location, s.ticker) }

  lemma ScopedToOwn(given: FeatureMap, location: string, ticker: string)
    requires given.Keys <= {KALSHI_SPREAD, FORECAST_DISAGREEMENT, ENSEMBLE_MEAN_TEMP}
    requires KALSHI_SPREAD in given ==> given[KALSHI_SPREAD].subject == ticker
    requires FORECAST_DISAGREEMENT in given ==> given[FORECAST_DISAGREEMENT].subject == location
    requires ENSEMBLE_MEAN_TEMP in given ==> given[ENSEMBLE_MEAN_TEMP].subject == location
    ensures ScopedTo(given, location, ticker) == given
  {
  }

  /** The numbers a shown market's features carry. */
  lemma GivenNumbers(v: View, s: MarketState, location: string)
    requires Shown(v, s, location)
    ensures var given, gfs, ecmwf := Given(v, s), ModelMean(v, location, Gfs), ModelMean(v, location, Ecmwf);
            && NumericFeature(Lookup(given, KALSHI_SPREAD)) == (if Uncrossed(s) then Some(s.ask.value - s.bid.value) else None)
            && NumericFeature(Lookup(given, ENSEMBLE_MEAN_TEMP)) == Outlook(gfs, ecmwf)
            && NumericFeature(Lookup(given, FORECAST_DISAGREEMENT))
               == if gfs.Some? && ecmwf.Some? then Some(Distance(gfs.value, ecmwf.value)) else None
  {
    SpreadOfState(v, s, location);
    MarketSees(v, location, s.ticker);
    RollupMeaning(v, location);
    DisagreementNumber(v, location);
  }

  lemma GivenAreOwn(v: View, s: MarketState, location: string)
    requires Shown(v, s, location)
    ensures ScopedTo(Given(v, s), location, s.ticker) == Given(v, s)
  {
    SpreadOfState(v, s, location);
    MarketSees(v, location, s.ticker);
    RollupMeaning(v, location);
    FeatureLabels(v, OfMarket(s.ticker));
    FeatureLabels(v, OfLocation(location));
    ScopedToOwn(Given(v, s), location, s.ticker);
  }

  lemma SpreadOfState(v: View, s: MarketState, location: string)
    requires Shown(v, s, location)
    ensures Listed(v, s.ticker) && LocationForSeries(s.series) == Some(location)
    ensures NumericFeature(Some(SpreadFeature(v.d, s.ticker, v.asOf)))
         == if Uncrossed(s) then Some(s.ask.value - s.bid.value) else None
  {
    ShownStates(v, s, location);
    CollectMember(ListOpenMarkets(v.d, v.asOf), MarketStateAt(v.d, v.asOf), s);
  }

  lemma DisagreementNumber(v: View, location: string)
    ensures var gfs, ecmwf := ModelMean(v, location, Gfs), ModelMean(v, location, Ecmwf);
            NumericFeature(Some(DisagreementFeature(v.d, location, v.asOf, v.target)))
            == if gfs.Some? && ecmwf.Some? then Some(Distance(gfs.value, ecmwf.value)) else None
  {
    DisagreementMeaning(v, location);
    MissingHasNoValue(v, location, Gfs);
    MissingHasNoValue(v, location, Ecmwf);
  }

  lemma NumbersArePresent(given: FeatureMap)
    requires NumericFeature(Lookup(given, KALSHI_SPREAD)).Some? && NumericFeature(Lookup(given, ENSEMBLE_MEAN_TEMP)).Some?
    ensures RequiredPresent(BASE_FEATURES, given)
    ensures NumericFeature(Lookup(given, FORECAST_DISAGREEMENT)).Some? ==>
              RequiredPresent(BASE_FEATURES + {FORECAST_DISAGREEMENT}, given)
  {
  }

  lemma ShownIsWeather(v: View, s: MarketState, location: string)
    requires Shown(v, s, location)
    ensures WeatherSeries(s.series) && LocationForSeries(s.series) == Some(location)
    ensures ScopedTo(Given(v, s), location, s.ticker) == Given(v, s)
  {
    GivenAreOwn(v, s, location);
    SpreadOfState(v, s, location);
    LocatedIsWeather(s.series, location);
  }

  function SideAt(mean: real, mid: real): Side { if mean >= 100.0 * mid + 32.0 then Yes else No }

  function AtMostOne(x: real): real { if x > 1.0 then 1.0 else x }

  /** The features carry these model means and the quote's width. */
  predicate Carries(s: MarketState, given: FeatureMap, gfs: Option<real>, ecmwf: Option<real>) {
    && NumericFeature(Lookup(given, KALSHI_SPREAD)) == (if Uncrossed(s) then Some(s.ask.value - s.bid.value) else None)
    && NumericFeature(Lookup(given, ENSEMBLE_MEAN_TEMP)) == Outlook(gfs, ecmwf)
    && NumericFeature(Lookup(given, FORECAST_DISAGREEMENT))
       == if gfs.Some? && ecmwf.Some? then Some(Distance(gfs.value, ecmwf.value)) else None
  }

  /** They are this market's own. */
  predicate Owns(s: MarketState, given: FeatureMap, location: string) {
    && WeatherSeries(s.series) && LocationForSeries(s.series) == Some(location)
    && ScopedTo(given, location, s.ticker) == given
  }

  lemma ShownCarries(v: View, s: MarketState, location: string)
    requires Shown(v, s, location)
    ensures Carries(s, Given(v, s), ModelMean(v, location, Gfs), ModelMean(v, location, Ecmwf))
    ensures Owns(s, Given(v, s), location)
  {
    GivenNumbers(v, s, location);
    ShownIsWeather(v, s, location);
  }

  /** What the stale-quote strategy makes of two model means. */
  function StaleDraft(s: MarketState, gfs: Option<real>, ecmwf: Option<real>, config: StrategyConfig): Option<SignalDraft> {
    var outlook := Outlook(gfs, ecmwf);
    if && Uncrossed(s) && s.mid.Some? && outlook.Some?
       && s.ask.value - s.bid.value >= OrDefault(config.wideSpreadThreshold, 0.08)
    then Some(SignalDraft(s.ticker, Probability(outlook.value),
                          AtMostOne(OrDefault(config.confidenceFloor, 0.55) + s.ask.value - s.bid.value),
                          SideAt(outlook.value, s.mid.value)))
    else None
  }

  lemma StaleOnNumbers(
    s: MarketState, given: FeatureMap, location: string, config: StrategyConfig, gfs: Option<real>, ecmwf: Option<real>)
    requires Owns(s, given, location) && Carries(s, given, gfs, ecmwf)
    ensures EvaluateStaleQuote(s, given, config) == StaleDraft(s, gfs, ecmwf, config)
  {
    if Uncrossed(s) && Outlook(gfs, ecmwf).Some? { NumbersArePresent(given); }
  }

  /** The stale-quote strategy drafts exactly when the quote is uncrossed and wide, has a mid
      price, and some model has rows: on the side and at the probability the average of the model
      means implies. */
  lemma StaleQuoteDraftsIff(v: View, s: MarketState, location: string, config: StrategyConfig)
    requires Shown(v, s, location)
    ensures Evaluate(LedgerSpec.STALE_QUOTE, s, Given(v, s), config)
         == StaleDraft(s, ModelMean(v, location, Gfs), ModelMean(v, location, Ecmwf), config)
  {
    ShownCarries(v, s, location);
    ByName(s, Given(v, s), config);
    StaleOnNumbers(s, Given(v, s), location, config, ModelMean(v, location, Gfs), ModelMean(v, location, Ecmwf));
  }

  lemma ByName(s: MarketState, given: FeatureMap, config: StrategyConfig)
    ensures Evaluate(LedgerSpec.STALE_QUOTE, s, given, config) == EvaluateStaleQuote(s, given, config)
    ensures Evaluate(LedgerSpec.ENSEMBLE_DISAGREEMENT, s, given, config) == EvaluateDisagreement(s, given, config)
  {
    assert |LedgerSpec.STALE_QUOTE| != |LedgerSpec.ENSEMBLE_DISAGREEMENT|;
  }

  /** What the disagreement strategy makes of them. */
  function DisagreementDraft(s: MarketState, gfs: Option<real>, ecmwf: Option<real>, config: StrategyConfig): Option<SignalDraft> {
    if !Uncrossed(s) || s.mid.None? || gfs.None? || ecmwf.None? then None
    else
      var mean, apart := (gfs.value + ecmwf.value) / 2.0, Distance(gfs.value, ecmwf.value);
      var off := Distance(s.mid.value, Probability(mean));
      if && apart >= OrDefault(config.disagreementThreshold, 2.0)
         && off > (s.ask.value - s.bid.value) * OrDefault(config.spreadMarginMultiplier, 1.5)
      then Some(SignalDraft(s.ticker, Probability(mean),
                            AtMostOne(OrDefault(config.confidenceFloor, 0.55) + apart / 10.0 + off / 0.2),
                            SideAt(mean, s.mid.value)))
      else None
  }

  lemma DisagreementOnNumbers(
    s: MarketState, given: FeatureMap, location: string, config: StrategyConfig, gfs: Option<real>, ecmwf: Option<real>)
    requires Owns(s, given, location) && Carries(s, given, gfs, ecmwf)
    ensures EvaluateDisagreement(s, given, config) == DisagreementDraft(s, gfs, ecmwf, config)
  {
    if Uncrossed(s) && Outlook(gfs, ecmwf).Some? { NumbersArePresent(given); }
  }

  /** The disagreement strategy drafts exactly when both models have rows and differ by the
      threshold, the quote is uncrossed with a mid price, and the mid price is off the implied
      probability by more than the margin on the spread. */
  lemma DisagreementDraftsIff(v: View, s: MarketState, location: string, config: StrategyConfig)
    requires Shown(v, s, location)
    ensures Evaluate(LedgerSpec.ENSEMBLE_DISAGREEMENT, s, Given(v, s), config)
         == DisagreementDraft(s, ModelMean(v, location, Gfs), ModelMean(v, location, Ecmwf), config)
  {
    ShownCarries(v, s, location);
    ByName(s, Given(v, s), config);
    DisagreementOnNumbers(s, Given(v, s), location, config, ModelMean(v, location, Gfs), ModelMean(v, location, Ecmwf));
  }
}
