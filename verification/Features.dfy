/** From the shared database to what a strategy sees: the three feature providers, the
    feature index, market states and the features scoped to one market
    (core/features/, core/engine/markets.py). */
module Features {
  import opened Lists
  import opened Domain
  import opened WeatherUtils
  import opened Shared
  import Sizing

  const TEMPERATURE_VARIABLE := "temperature_2m"
  const ENSEMBLE_MEAN_TEMP := "ensemble_mean_temp"
  const FORECAST_DISAGREEMENT := "forecast_disagreement"
  const KALSHI_SPREAD := "kalshi_spread"

  function PresentFeature(provider: string, kind: SubjectKind, subject: string, asOf: int, value: real): FeatureValue {
    FeatureValue(provider, kind, subject, Present, Some(asOf), Some(value))
  }

  function MissingFeature(provider: string, kind: SubjectKind, subject: string): FeatureValue {
    FeatureValue(provider, kind, subject, Missing, None, None)
  }

  // ---------------------------------------------------------------- providers

  function SourceName(source: ForecastSource): string { if source.Gfs? then "gfs" else "ecmwf" }

  function TemperatureRows(d: SharedData, location: string, source: ForecastSource, asOf: int, target: Option<int>)
    : seq<ForecastRow>
  {
    LatestForecastRows(d, RunKey(location, source, TEMPERATURE_VARIABLE), asOf, target)
  }

  function EnsembleFeature(d: SharedData, location: string, source: ForecastSource, asOf: int, target: Option<int>)
    : FeatureValue
  {
    EnsembleOf(TemperatureRows(d, location, source, asOf, target), location + ":" + SourceName(source))
  }

  function EnsembleOf(rows: seq<ForecastRow>, subject: string): FeatureValue {
    var mean, runTime := EnsembleMean(rows), Latest(rows, RunTimeOf());
    if mean.None? || runTime.None? then MissingFeature(ENSEMBLE_MEAN_TEMP, LocationSubject, subject)
    else PresentFeature(ENSEMBLE_MEAN_TEMP, LocationSubject, subject, runTime.value, mean.value)
  }

  function Abs(x: real): real { if x < 0.0 then -x else x }

  function DisagreementFeature(d: SharedData, location: string, asOf: int, target: Option<int>): FeatureValue {
    Disagreement(TemperatureRows(d, location, Gfs, asOf, target), TemperatureRows(d, location, Ecmwf, asOf, target),
                 location, asOf)
  }

  function Disagreement(gfs: seq<ForecastRow>, ecmwf: seq<ForecastRow>, location: string, asOf: int): FeatureValue {
    if |gfs| == 0 || |ecmwf| == 0 then MissingFeature(FORECAST_DISAGREEMENT, LocationSubject, location)
    else
      PresentFeature(FORECAST_DISAGREEMENT, LocationSubject, location,
                     Max(OrDefault(Latest(gfs, RunTimeOf()), asOf), OrDefault(Latest(ecmwf, RunTimeOf()), asOf)),
                     Abs(SumReal(gfs, ValueOf()) / |gfs| as real - SumReal(ecmwf, ValueOf()) / |ecmwf| as real))
  }

  function SpreadFeature(d: SharedData, ticker: string, asOf: int): FeatureValue {
    var missing := MissingFeature(KALSHI_SPREAD, MarketSubject, ticker);
    match LatestSnapshot(d, ticker, asOf)
    case None => missing
    case Some(s) =>
      if s.bid.None? || s.ask.None? then missing
      else if s.ask.value - s.bid.value < 0.0 then missing
      else PresentFeature(KALSHI_SPREAD, MarketSubject, ticker, s.asOf, s.ask.value - s.bid.value)
  }

  function EnsemblePair(d: SharedData, asOf: int, target: Option<int>): string -> seq<FeatureValue> {
    (location: string) =>
      [EnsembleFeature(d, location, Gfs, asOf, target), EnsembleFeature(d, location, Ecmwf, asOf, target)]
  }

  function DisagreementOf(d: SharedData, asOf: int, target: Option<int>): string -> FeatureValue {
    (location: string) => DisagreementFeature(d, location, asOf, target)
  }

  function SpreadOf(d: SharedData, asOf: int): Market -> FeatureValue {
    (m: Market) => SpreadFeature(d, m.ticker, asOf)
  }

  /** Everything the registered providers compute in one tick, in order. */
  function AllFeatures(d: SharedData, asOf: int, target: Option<int>): seq<FeatureValue> {
    FlatMap(d.locations, EnsemblePair(d, asOf, target))
    + MapSeq(d.locations, DisagreementOf(d, asOf, target))
    + MapSeq(ListOpenMarkets(d, asOf), SpreadOf(d, asOf))
  }

  /** The inner loop of the ensemble provider: one feature per model. */
  method ComputeModelMeans(d: SharedData, location: string, asOf: int, target: Option<int>) returns (means: seq<FeatureValue>)
    ensures means == EnsemblePair(d, asOf, target)(location)
  {
    var sources := [Gfs, Ecmwf];
    means := [];
    for k := 0 to |sources|
      invariant |means| == k && forall j :: 0 <= j < k ==> means[j] == EnsembleFeature(d, location, sources[j], asOf, target)
    {
      means := means + [EnsembleFeature(d, location, sources[k], asOf, target)];
    }
  }

  method ComputeEnsembleMeanTemp(d: SharedData, asOf: int, target: Option<int>) returns (results: seq<FeatureValue>)
    ensures results == FlatMap(d.locations, EnsemblePair(d, asOf, target))
  {
    results := [];
    for i := 0 to |d.locations|
      invariant results == FlatMap(d.locations[..i], EnsemblePair(d, asOf, target))
    {
      assert d.locations[..i + 1] == d.locations[..i] + [d.locations[i]];
      FlatMapAppend(d.locations[..i], d.locations[i], EnsemblePair(d, asOf, target));
      var means := ComputeModelMeans(d, d.locations[i], asOf, target);
      results := results + means;
    }
    assert d.locations[..|d.locations|] == d.locations;
  }

  method ComputeForecastDisagreement(d: SharedData, asOf: int, target: Option<int>) returns (results: seq<FeatureValue>)
    ensures results == MapSeq(d.locations, DisagreementOf(d, asOf, target))
  {
    results := [];
    for i := 0 to |d.locations|
      invariant results == MapSeq(d.locations[..i], DisagreementOf(d, asOf, target))
    {
      assert d.locations[..i + 1][..i] == d.locations[..i];
      results := results + [DisagreementOf(d, asOf, target)(d.locations[i])];
    }
    assert d.locations[..|d.locations|] == d.locations;
  }

  method ComputeKalshiSpread(d: SharedData, asOf: int) returns (results: seq<FeatureValue>)
    ensures results == MapSeq(ListOpenMarkets(d, asOf), SpreadOf(d, asOf))
  {
    results := [];
    var markets := ListOpenMarkets(d, asOf);
    for i := 0 to |markets|
      invariant results == MapSeq(markets[..i], SpreadOf(d, asOf))
    {
      assert markets[..i + 1][..i] == markets[..i];
      results := results + [SpreadFeature(d, markets[i].ticker, asOf)];
    }
    assert markets[..|markets|] == markets;
  }

  // ---------------------------------------------------------------- feature index

  function KindName(kind: SubjectKind): string {
    match kind
    case MarketSubject => "market"
    case LocationSubject => "location"
    case UnknownSubject => "unknown"
  }

  function FeatureKey(f: FeatureValue): string { f.provider + ":" + KindName(f.kind) + ":" + f.subject }

  /** `indexed[key] = feature`: a new key goes last, a known key keeps its place. */
  function Put(index: seq<FeatureValue>, f: FeatureValue): seq<FeatureValue> {
    if |index| == 0 then [f]
    else if FeatureKey(index[0]) == FeatureKey(f) then [f] + index[1..]
    else [index[0]] + Put(index[1..], f)
  }

  function IndexFeatures(features: seq<FeatureValue>): seq<FeatureValue> {
    if |features| == 0 then [] else Put(IndexFeatures(features[..|features| - 1]), features[|features| - 1])
  }

  method BuildIndex(features: seq<FeatureValue>) returns (index: seq<FeatureValue>)
    ensures index == IndexFeatures(features)
  {
    index := [];
    for i := 0 to |features|
      invariant index == IndexFeatures(features[..i])
    {
      assert features[..i + 1][..i] == features[..i];
      index := Put(index, features[i]);
    }
    assert features[..|features|] == features;
  }

  function HasKey(key: string): FeatureValue -> bool { (f: FeatureValue) => FeatureKey(f) == key }

  /** `indexed.get(key)`. */
  function KeyedAt(index: seq<FeatureValue>, key: string): Option<FeatureValue> {
    if |index| == 0 then None
    else if FeatureKey(index[0]) == key then Some(index[0])
    else KeyedAt(index[1..], key)
  }

  lemma {:induction false} PutThenGet(index: seq<FeatureValue>, f: FeatureValue, key: string)
    ensures KeyedAt(Put(index, f), key) == if FeatureKey(f) == key then Some(f) else KeyedAt(index, key)
    decreases |index|
  {
    if |index| == 0 {
    } else {
      PutThenGet(index[1..], f, key);
      assert Put(index, f)[1..] == if FeatureKey(index[0]) == FeatureKey(f) then index[1..] else Put(index[1..], f);
    }
  }

  /** Under each key the index holds the feature that was computed last. */
  lemma {:induction false} IndexKeepsLast(features: seq<FeatureValue>, key: string)
    ensures var same := Filter(features, HasKey(key));
            KeyedAt(IndexFeatures(features), key) == if |same| == 0 then None else Some(same[|same| - 1])
    decreases |features|
  {
    if |features| == 0 {
    } else {
      var front, f := features[..|features| - 1], features[|features| - 1];
      IndexKeepsLast(front, key);
      PutThenGet(IndexFeatures(front), f, key);
    }
  }

  // ---------------------------------------------------------------- market states

  function MarketSeries(m: Market): string {
    if |m.series| > 0 then m.series else Sizing.SplitDash(m.ticker)[0]
  }

  function MarketStateAt(d: SharedData, asOf: int): Market -> Option<MarketState> {
    (m: Market) =>
      match LatestSnapshot(d, m.ticker, asOf)
      case None => None
      case Some(s) =>
        Some(MarketState(m.ticker, MarketSeries(m), s.bid, s.ask, s.mid, s.asOf, LocationForSeries(MarketSeries(m))))
  }

  function MarketStates(d: SharedData, asOf: int): seq<MarketState> {
    Collect(ListOpenMarkets(d, asOf), MarketStateAt(d, asOf))
  }

  method BuildMarketStates(d: SharedData, asOf: int) returns (states: seq<MarketState>)
    ensures states == MarketStates(d, asOf)
  {
    states := [];
    var markets := ListOpenMarkets(d, asOf);
    for i := 0 to |markets|
      invariant states == Collect(markets[..i], MarketStateAt(d, asOf))
    {
      assert markets[..i + 1] == markets[..i] + [markets[i]];
      CollectAppend(markets[..i], markets[i], MarketStateAt(d, asOf));
      var snapshot := LatestSnapshot(d, markets[i].ticker, asOf);
      if snapshot.Some? {
        var series := MarketSeries(markets[i]);
        states := states + [MarketState(markets[i].ticker, series, snapshot.value.bid, snapshot.value.ask,
                                        snapshot.value.mid, snapshot.value.asOf, LocationForSeries(series))];
      }
    }
    assert markets[..|markets|] == markets;
  }

  // ---------------------------------------------------------------- scoping to one market

  predicate Direct(f: FeatureValue, location: Option<string>, ticker: string) {
    || (f.kind.MarketSubject? && f.subject == ticker)
    || (f.kind.LocationSubject? && location.Some? && f.subject == location.value)
  }

  predicate Part(f: FeatureValue, location: Option<string>) {
    f.kind.LocationSubject? && location.Some? && f.subject != location.value && location.value + ":" <= f.subject
  }

  function DirectNamed(location: Option<string>, ticker: string, name: string): FeatureValue -> bool {
    (f: FeatureValue) => f.provider == name && Direct(f, location, ticker)
  }

  function PartNamed(location: Option<string>, name: string): FeatureValue -> bool {
    (f: FeatureValue) => f.provider == name && Part(f, location)
  }

  function Numeric(): FeatureValue -> bool {
    (f: FeatureValue) => f.status.Present? && f.value.Some? && f.asOf.Some?
  }

  function NumberIn(): FeatureValue -> real { (f: FeatureValue) => OrDefault(f.value, 0.0) }

  function TimeOf(): FeatureValue -> int { (f: FeatureValue) => OrDefault(f.asOf, 0) }

  /** The unweighted mean of a provider's usable parts, as of the newest of them. */
  function Aggregate(parts: seq<FeatureValue>, location: string): Option<FeatureValue> {
    var usable := Filter(parts, Numeric());
    var newest := Latest(usable, TimeOf());
    if |usable| == 0 || newest.None? then None
    else Some(PresentFeature(usable[0].provider, usable[0].kind, location, newest.value,
                             SumReal(usable, NumberIn()) / |usable| as real))
  }

  /** The feature one provider contributes to a market: its first direct match, otherwise
      the rollup of its per-model parts. */
  function ScopedFeature(values: seq<FeatureValue>, location: Option<string>, ticker: string, name: string)
    : Option<FeatureValue>
  {
    var direct := Filter(values, DirectNamed(location, ticker, name));
    if |direct| > 0 then Some(direct[0])
    else if location.None? then None
    else Aggregate(Filter(values, PartNamed(location, name)), location.value)
  }

  function FeaturesForMarket(values: seq<FeatureValue>, location: Option<string>, ticker: string): FeatureMap {
    map name | name in (set f | f in values :: f.provider) && ScopedFeature(values, location, ticker, name).Some?
      :: ScopedFeature(values, location, ticker, name).value
  }

  /** What the loop has gathered from the usable parts so far. */
  predicate Rolled(usable: seq<FeatureValue>, numerics: real, count: int, newest: Option<int>, template: Option<FeatureValue>) {
    && count == |usable|
    && numerics == SumReal(usable, NumberIn())
    && newest == Latest(usable, TimeOf())
    && template == FirstOf(usable)
  }

  lemma RollOne(
    usable: seq<FeatureValue>, part: FeatureValue, numerics: real, count: int, newest: Option<int>, template: Option<FeatureValue>)
    requires Rolled(usable, numerics, count, newest, template) && Numeric()(part)
    ensures Rolled(usable + [part], numerics + part.value.value, count + 1,
                   if newest.None? || newest.value < part.asOf.value then part.asOf else newest,
                   if template.None? then Some(part) else template)
  {
    SumRealAppend(usable, part, NumberIn());
    assert (usable + [part])[..|usable|] == usable;
  }

  method AggregateParts(parts: seq<FeatureValue>, location: string) returns (r: Option<FeatureValue>)
    ensures r == Aggregate(parts, location)
  {
    var numerics, count := 0.0, 0;
    var newest: Option<int> := None;
    var template: Option<FeatureValue> := None;
    for i := 0 to |parts|
      invariant Rolled(Filter(parts[..i], Numeric()), numerics, count, newest, template)
    {
      var part := parts[i];
      assert parts[..i + 1] == parts[..i] + [part];
      FilterAppend(parts[..i], part, Numeric());
      if part.status.Present? && part.value.Some? && part.asOf.Some? {
        RollOne(Filter(parts[..i], Numeric()), part, numerics, count, newest, template);
        if template.None? { template := Some(part); }
        numerics := numerics + part.value.value;
        count := count + 1;
        if newest.None? || newest.value < part.asOf.value { newest := part.asOf; }
      }
    }
    assert parts[..|parts|] == parts;
    if template.None? { return None; }
    LatestIsMaximum(Filter(parts, Numeric()), TimeOf());
    return Some(PresentFeature(template.value.provider, template.value.kind, location, newest.value,
                               numerics / count as real));
  }

  /** What the first pass over the index has gathered about one provider. */
  predicate Gathered(
    seen: seq<FeatureValue>, location: Option<string>, ticker: string, name: string,
    byName: FeatureMap, parts: map<string, seq<FeatureValue>>)
  {
    && Lookup(byName, name) == FirstOf(Filter(seen, DirectNamed(location, ticker, name)))
    && PartsOf(parts, name) == Filter(seen, PartNamed(location, name))
    && (name in parts ==> |parts[name]| > 0)
  }

  function PartsOf(parts: map<string, seq<FeatureValue>>, name: string): seq<FeatureValue> {
    if name in parts then parts[name] else []
  }

  lemma GatherOne(
    seen: seq<FeatureValue>, f: FeatureValue, location: Option<string>, ticker: string, name: string,
    byName: FeatureMap, parts: map<string, seq<FeatureValue>>, byName': FeatureMap, parts': map<string, seq<FeatureValue>>)
    requires Gathered(seen, location, ticker, name, byName, parts)
    requires byName' == if Direct(f, location, ticker) && f.provider !in byName then byName[f.provider := f] else byName
    requires parts' == if !Direct(f, location, ticker) && Part(f, location)
                       then parts[f.provider := PartsOf(parts, f.provider) + [f]] else parts
    ensures Gathered(seen + [f], location, ticker, name, byName', parts')
  {
    FilterAppend(seen, f, DirectNamed(location, ticker, name));
    FilterAppend(seen, f, PartNamed(location, name));
  }

  method GatherFeatures(values: seq<FeatureValue>, location: Option<string>, ticker: string)
    returns (byName: FeatureMap, parts: map<string, seq<FeatureValue>>)
    ensures forall name :: Gathered(values, location, ticker, name, byName, parts)
  {
    byName, parts := map[], map[];
    for i := 0 to |values|
      invariant forall name :: Gathered(values[..i], location, ticker, name, byName, parts)
    {
      var f := values[i];
      ghost var byName0, parts0 := byName, parts;
      if f.kind.MarketSubject? {
        if f.subject == ticker && f.provider !in byName { byName := byName[f.provider := f]; }
      } else if f.kind.LocationSubject? && location.Some? {
        if f.subject == location.value {
          if f.provider !in byName { byName := byName[f.provider := f]; }
        } else if location.value + ":" <= f.subject {
          parts := parts[f.provider := (if f.provider in parts then parts[f.provider] else []) + [f]];
        }
      }
      ghost var seen := values[..i + 1];
      assert seen == values[..i] + [f];
      forall name ensures Gathered(seen, location, ticker, name, byName, parts) {
        GatherOne(values[..i], f, location, ticker, name, byName0, parts0, byName, parts);
      }
    }
    assert values[..|values|] == values;
  }

  method ScopeFeatures(values: seq<FeatureValue>, location: Option<string>, ticker: string) returns (byName: FeatureMap)
    ensures byName == FeaturesForMarket(values, location, ticker)
  {
    var parts;
    byName, parts := GatherFeatures(values, location, ticker);
    forall name ensures name !in parts ==> Lookup(byName, name) == ScopedFeature(values, location, ticker, name) {
      GatheredScope(values, location, ticker, name, byName, parts);
    }
    if location.Some? {
      var todo := parts.Keys;
      ghost var direct := byName;
      while todo != {}
        invariant todo <= parts.Keys
        invariant forall name :: name in todo ==> Lookup(byName, name) == Lookup(direct, name)
        invariant forall name :: name !in todo ==> Lookup(byName, name) == ScopedFeature(values, location, ticker, name)
        decreases todo
      {
        var name :| name in todo;
        todo := todo - {name};
        GatheredScope(values, location, ticker, name, direct, parts);
        if name !in byName {
          var rollup := AggregateParts(parts[name], location.value);
          if rollup.Some? { byName := byName[name := rollup.value]; }
        }
      }
    } else {
      forall name ensures Lookup(byName, name) == ScopedFeature(values, location, ticker, name) {
        GatheredScope(values, location, ticker, name, byName, parts);
      }
    }
    ScopedProvidersAppear(values, location, ticker);
    SameLookup(byName, FeaturesForMarket(values, location, ticker));
  }

  lemma SameLookup(a: FeatureMap, b: FeatureMap)
    requires forall name :: Lookup(a, name) == Lookup(b, name)
    ensures a == b
  {
    forall name ensures name in a <==> name in b {
      assert Lookup(a, name) == Lookup(b, name);
    }
    forall name | name in a ensures a[name] == b[name] {
      assert Lookup(a, name) == Lookup(b, name);
    }
  }

  /** A provider's feature once everything is gathered. */
  lemma GatheredScope(
    values: seq<FeatureValue>, location: Option<string>, ticker: string, name: string,
    byName: FeatureMap, parts: map<string, seq<FeatureValue>>)
    requires Gathered(values, location, ticker, name, byName, parts)
    ensures ScopedFeature(values, location, ticker, name)
         == if name in byName then Some(byName[name])
            else if location.None? then None
            else if name in parts then Aggregate(parts[name], location.value)
            else None
  {
  }

  function FirstOf<T>(xs: seq<T>): Option<T> { if |xs| == 0 then None else Some(xs[0]) }

  /** A provider that contributes to a market is a provider of some indexed feature. */
  lemma ScopedProvidersAppear(values: seq<FeatureValue>, location: Option<string>, ticker: string)
    ensures forall name :: Lookup(FeaturesForMarket(values, location, ticker), name)
                           == ScopedFeature(values, location, ticker, name)
  {
    forall name | ScopedFeature(values, location, ticker, name).Some?
      ensures exists f :: f in values && f.provider == name
    {
      var direct := Filter(values, DirectNamed(location, ticker, name));
      if |direct| > 0 {
        FilterMember(values, DirectNamed(location, ticker, name), direct[0]);
      } else {
        var parts := Filter(values, PartNamed(location, name));
        var usable := Filter(parts, Numeric());
        FilterMember(parts, Numeric(), usable[0]);
        FilterMember(values, PartNamed(location, name), usable[0]);
      }
    }
  }
}
