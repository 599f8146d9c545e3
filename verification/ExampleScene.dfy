/** One market and two model runs, and what the registered strategies make of them: the scene
    of the example runs. */
module ExampleScene {
  import opened Lists
  import opened WeatherUtils
  import opened Sizing
  import opened Shared
  import opened Features
  import opened FeatureTheorems

  const TICKER := "KXHIGHNY"
  const PLACE := "nyc"
  const LISTING := Market(TICKER, TICKER, "open", None)
  const GFS_ROW := ForecastRow(Gfs, 90, PLACE, 90, TEMPERATURE_VARIABLE, 128.0)

  /** The quote, and when the second model ran. */
  datatype Setting = Setting(bid: real, ask: real, run: int)

  function EcmwfRow(q: Setting): ForecastRow { ForecastRow(Ecmwf, q.run, PLACE, 90, TEMPERATURE_VARIABLE, 130.0) }

  function Mid(q: Setting): real { (q.bid + q.ask) / 2.0 }

  function Quote(q: Setting): SnapshotRow { SnapshotRow(TICKER, 100, Some(q.bid), Some(q.ask), Some(Mid(q))) }

  /** One listed market at a known place, quoted at 100. */
  predicate Quoted(d: SharedData, q: Setting) {
    && PLACE in d.locations && PlainLocations(d) && d.markets == [LISTING] && d.snapshots == [Quote(q)]
  }

  /** Two models, run at 90 and at or before it, forecast 128 and 130 degrees. */
  predicate Scene(d: SharedData, q: Setting) {
    Quoted(d, q) && q.run <= 90 && d.forecasts == [GFS_ROW, EcmwfRow(q)]
  }

  /** Only one model has run. */
  predicate OneModelScene(d: SharedData, q: Setting) { Quoted(d, q) && d.forecasts == [GFS_ROW] }

  /** The scene at the quote's time or any time after. */
  function At(d: SharedData, t: int): View { View(d, t, None) }

  // ---------------------------------------------------------------- the features

  function RowOf(q: Setting, source: ForecastSource): ForecastRow { if source.Gfs? then GFS_ROW else EcmwfRow(q) }

  lemma RowsOfKey(q: Setting, t: int, source: ForecastSource)
    requires q.run <= 90 && t >= 100
    ensures var k, rows, row := RunKey(PLACE, source, TEMPERATURE_VARIABLE), [GFS_ROW, EcmwfRow(q)], RowOf(q, source);
            Filter(rows, RunUpTo(k, t)) == [row] && Filter(rows, RunAt(k, row.runTime)) == [row]
  {
    var k := RunKey(PLACE, source, TEMPERATURE_VARIABLE);
    FilterOfTwo(GFS_ROW, EcmwfRow(q), RunUpTo(k, t));
    FilterOfTwo(GFS_ROW, EcmwfRow(q), RunAt(k, RowOf(q, source).runTime));
  }

  lemma OneRowPerModel(d: SharedData, q: Setting, t: int, source: ForecastSource)
    requires Scene(d, q) && t >= 100
    ensures ModelRows(At(d, t), PLACE, source) == [RowOf(q, source)]
  {
    var row := RowOf(q, source);
    RowsOfKey(q, t, source);
    LatestOfOne(row, RunTimeOf());
    FilterOfOne(row, WindowStarted(t));
    LatestOfOne(row, WindowOf());
    FilterOfOne(row, InWindow(90));
  }

  function ModelFeature(q: Setting, source: ForecastSource): FeatureValue {
    PresentFeature(ENSEMBLE_MEAN_TEMP, LocationSubject, PLACE + ":" + SourceName(source), RowOf(q, source).runTime,
                   RowOf(q, source).value)
  }

  lemma SceneModels(d: SharedData, q: Setting, t: int, source: ForecastSource)
    requires Scene(d, q) && t >= 100
    ensures FeatureFrom(At(d, t), OfModel(PLACE, source)) == ModelFeature(q, source)
  {
    OneRowPerModel(d, q, t, source);
    SumOfOne(RowOf(q, source), ValueOf());
    LatestOfOne(RowOf(q, source), RunTimeOf());
  }

  const DISAGREEMENT := PresentFeature(FORECAST_DISAGREEMENT, LocationSubject, PLACE, 90, 2.0)
  const ENSEMBLE := PresentFeature(ENSEMBLE_MEAN_TEMP, LocationSubject, PLACE, 90, 129.0)

  lemma SceneDisagreement(d: SharedData, q: Setting, t: int)
    requires Scene(d, q) && t >= 100
    ensures DisagreementFeature(d, PLACE, t, None) == DISAGREEMENT
  {
    OneRowPerModel(d, q, t, Gfs);
    OneRowPerModel(d, q, t, Ecmwf);
    SumOfOne(GFS_ROW, ValueOf());
    SumOfOne(EcmwfRow(q), ValueOf());
    LatestOfOne(GFS_ROW, RunTimeOf());
    LatestOfOne(EcmwfRow(q), RunTimeOf());
  }

  lemma SceneEnsemble(d: SharedData, q: Setting, t: int)
    requires Scene(d, q) && t >= 100
    ensures Aggregate(ModelMeans(At(d, t), PLACE), PLACE) == Some(ENSEMBLE)
  {
    SceneModels(d, q, t, Gfs);
    SceneModels(d, q, t, Ecmwf);
    var g, e := ModelFeature(q, Gfs), ModelFeature(q, Ecmwf);
    assert ModelMeans(At(d, t), PLACE) == [g, e];
    FilterOfTwo(g, e, Numeric());
    assert [g, e][..1] == [g];
    SumOfOne(g, NumberIn());
    LatestOfOne(g, TimeOf());
  }

  function SpreadIn(q: Setting): FeatureValue {
    PresentFeature(KALSHI_SPREAD, MarketSubject, TICKER, 100, q.ask - q.bid)
  }

  lemma SceneQuote(d: SharedData, q: Setting, t: int)
    requires Quoted(d, q) && t >= 100
    ensures LatestSnapshot(d, TICKER, t) == Some(Quote(q))
  {
    var row := Quote(q);
    FilterOfOne(row, SnapshotUpTo(TICKER, t));
    LatestOfOne(row, SnapshotTime());
    FilterOfOne(row, SnapshotAt(TICKER, 100));
  }

  function Given(q: Setting): FeatureMap {
    map[KALSHI_SPREAD := SpreadIn(q), FORECAST_DISAGREEMENT := DISAGREEMENT, ENSEMBLE_MEAN_TEMP := ENSEMBLE]
  }

  lemma SceneLists(d: SharedData, q: Setting, t: int)
    requires Quoted(d, q) && t >= 100
    ensures ListOpenMarkets(d, t) == [LISTING] && Listed(At(d, t), TICKER)
  {
    FilterOfOne(LISTING, Tradable(t));
    assert LISTING in ListOpenMarkets(d, t);
  }

  lemma SceneSpread(d: SharedData, q: Setting, t: int)
    requires Quoted(d, q) && t >= 100 && q.bid <= q.ask
    ensures SpreadFeature(d, TICKER, t) == SpreadIn(q)
  {
    SceneQuote(d, q, t);
  }

  /** The market is given all three features. */
  lemma SceneGives(d: SharedData, q: Setting, t: int)
    requires Scene(d, q) && t >= 100 && q.bid <= q.ask
    ensures FeaturesForMarket(Index(At(d, t)), Some(PLACE), TICKER) == Given(q)
  {
    SceneLists(d, q, t);
    SceneSpread(d, q, t);
    SceneDisagreement(d, q, t);
    SceneEnsemble(d, q, t);
    MarketSees(At(d, t), PLACE, TICKER);
    MapByLookups(FeaturesForMarket(Index(At(d, t)), Some(PLACE), TICKER), SpreadIn(q), DISAGREEMENT, ENSEMBLE);
  }

  lemma MapByLookups(a: FeatureMap, spread: FeatureValue, dis: FeatureValue, mean: FeatureValue)
    requires a.Keys <= {KALSHI_SPREAD, FORECAST_DISAGREEMENT, ENSEMBLE_MEAN_TEMP}
    requires Lookup(a, KALSHI_SPREAD) == Some(spread) && Lookup(a, FORECAST_DISAGREEMENT) == Some(dis)
    requires Lookup(a, ENSEMBLE_MEAN_TEMP) == Some(mean)
    ensures a == map[KALSHI_SPREAD := spread, FORECAST_DISAGREEMENT := dis, ENSEMBLE_MEAN_TEMP := mean]
  {
  }

  // ---------------------------------------------------------------- the market

  lemma SeriesIsNyc()
    ensures WeatherSeries(TICKER) && LocationForSeries(TICKER) == Some(PLACE)
    ensures SettlementKey(TICKER) == None
  {
    assert Upper(TICKER) == TICKER;
    assert SERIES_TO_LOCATION[0] == (TICKER, PLACE);
    NoDashNoSplit(TICKER);
  }

  function StateOf(q: Setting): MarketState {
    MarketState(TICKER, TICKER, Some(q.bid), Some(q.ask), Some(Mid(q)), 100, Some(PLACE))
  }

  lemma SceneState(d: SharedData, q: Setting, t: int)
    requires Quoted(d, q) && t >= 100
    ensures MarketStateAt(d, t)(LISTING) == Some(StateOf(q))
  {
    SceneQuote(d, q, t);
    SeriesIsNyc();
  }

  lemma SceneMarket(d: SharedData, q: Setting, t: int)
    requires Quoted(d, q) && t >= 100
    ensures MarketStates(d, t) == [StateOf(q)]
  {
    SceneLists(d, q, t);
    SceneState(d, q, t);
    CollectOne(LISTING, MarketStateAt(d, t));
  }

  // ---------------------------------------------------------------- one model only

  const NO_DISAGREEMENT := MissingFeature(FORECAST_DISAGREEMENT, LocationSubject, PLACE)
  const ONE_MODEL_MEAN := PresentFeature(ENSEMBLE_MEAN_TEMP, LocationSubject, PLACE, 90, 128.0)

  lemma OneModelRows(d: SharedData, q: Setting, t: int)
    requires OneModelScene(d, q) && t >= 100
    ensures ModelRows(At(d, t), PLACE, Gfs) == [GFS_ROW] && ModelRows(At(d, t), PLACE, Ecmwf) == []
  {
    RowsOfTheModelRun(d, q, t);
    FilterOfOne(GFS_ROW, RunUpTo(RunKey(PLACE, Ecmwf, TEMPERATURE_VARIABLE), t));
  }

  lemma RowsOfTheModelRun(d: SharedData, q: Setting, t: int)
    requires OneModelScene(d, q) && t >= 100
    ensures ModelRows(At(d, t), PLACE, Gfs) == [GFS_ROW]
  {
    var k := RunKey(PLACE, Gfs, TEMPERATURE_VARIABLE);
    FilterOfOne(GFS_ROW, RunUpTo(k, t));
    LatestOfOne(GFS_ROW, RunTimeOf());
    FilterOfOne(GFS_ROW, RunAt(k, 90));
    FilterOfOne(GFS_ROW, WindowStarted(t));
    LatestOfOne(GFS_ROW, WindowOf());
    FilterOfOne(GFS_ROW, InWindow(90));
  }

  lemma OneModelFeatures(d: SharedData, q: Setting, t: int)
    requires OneModelScene(d, q) && t >= 100
    ensures DisagreementFeature(d, PLACE, t, None) == NO_DISAGREEMENT
    ensures Aggregate(ModelMeans(At(d, t), PLACE), PLACE) == Some(ONE_MODEL_MEAN)
  {
    OneModelRows(d, q, t);
    SumOfOne(GFS_ROW, ValueOf());
    LatestOfOne(GFS_ROW, RunTimeOf());
    var g, e := FeatureFrom(At(d, t), OfModel(PLACE, Gfs)), FeatureFrom(At(d, t), OfModel(PLACE, Ecmwf));
    assert Numeric()(g) && !Numeric()(e) && g.asOf == Some(90) && g.value == Some(128.0);
    assert ModelMeans(At(d, t), PLACE) == [g, e];
    FilterOfTwo(g, e, Numeric());
    SumOfOne(g, NumberIn());
    LatestOfOne(g, TimeOf());
  }

  function OneModelGiven(q: Setting): FeatureMap {
    map[KALSHI_SPREAD := SpreadIn(q), FORECAST_DISAGREEMENT := NO_DISAGREEMENT, ENSEMBLE_MEAN_TEMP := ONE_MODEL_MEAN]
  }

  lemma OneModelGives(d: SharedData, q: Setting, t: int)
    requires OneModelScene(d, q) && t >= 100 && q.bid <= q.ask
    ensures FeaturesForMarket(Index(At(d, t)), Some(PLACE), TICKER) == OneModelGiven(q)
  {
    SceneLists(d, q, t);
    SceneSpread(d, q, t);
    OneModelFeatures(d, q, t);
    MarketSees(At(d, t), PLACE, TICKER);
    MapByLookups(FeaturesForMarket(Index(At(d, t)), Some(PLACE), TICKER), SpreadIn(q), NO_DISAGREEMENT, ONE_MODEL_MEAN);
  }
}
