/** What the features mean and what a strategy is given of them: the way from the tables
    through the providers, the index and the scoping to one market. */
module FeatureTheorems {
  import opened Lists
  import opened Domain
  import opened WeatherUtils
  import opened Shared
  import opened Features
  import Means
  import Sizing

  // ---------------------------------------------------------------- where a feature comes from

  /** What a provider computed a feature for. */
  datatype Origin =
    | OfModel(location: string, source: ForecastSource)
    | OfLocation(location: string)
    | OfMarket(ticker: string)

  /** The tables a tick reads, and when. */
  datatype View = View(d: SharedData, asOf: int, target: Option<int>)

  function Computed(v: View): seq<FeatureValue> { AllFeatures(v.d, v.asOf, v.target) }

  function FeatureFrom(v: View, o: Origin): FeatureValue {
    match o
    case OfModel(location, source) => EnsembleFeature(v.d, location, source, v.asOf, v.target)
    case OfLocation(location) => DisagreementFeature(v.d, location, v.asOf, v.target)
    case OfMarket(ticker) => SpreadFeature(v.d, ticker, v.asOf)
  }

  predicate Listed(v: View, ticker: string) {
    exists m :: m in ListOpenMarkets(v.d, v.asOf) && m.ticker == ticker
  }

  predicate Covered(v: View, o: Origin) {
    if o.OfMarket? then Listed(v, o.ticker) else o.location in v.d.locations
  }

  lemma {:induction false} FlatMapMember<T, U>(xs: seq<T>, f: T -> seq<U>, y: U)
    ensures y in FlatMap(xs, f) <==> exists x :: x in xs && y in f(x)
    decreases |xs|
  {
    if |xs| == 0 {
    } else {
      var front, last := xs[..|xs| - 1], xs[|xs| - 1];
      FlatMapMember(front, f, y);
      assert xs == front + [last];
    }
  }

  lemma MapSeqMember<T, U>(xs: seq<T>, f: T -> U, y: U)
    ensures y in MapSeq(xs, f) <==> exists x :: x in xs && y == f(x)
  {
    if y in MapSeq(xs, f) {
      var i :| 0 <= i < |xs| && MapSeq(xs, f)[i] == y;
      assert xs[i] in xs;
    }
    if x :| x in xs && y == f(x) {
      var i :| 0 <= i < |xs| && xs[i] == x;
      assert MapSeq(xs, f)[i] == y;
    }
  }

  function EnsemblePart(v: View): seq<FeatureValue> {
    FlatMap(v.d.locations, EnsemblePair(v.d, v.asOf, v.target))
  }

  function DisagreementPart(v: View): seq<FeatureValue> {
    MapSeq(v.d.locations, DisagreementOf(v.d, v.asOf, v.target))
  }

  function SpreadPart(v: View): seq<FeatureValue> {
    MapSeq(ListOpenMarkets(v.d, v.asOf), SpreadOf(v.d, v.asOf))
  }

  lemma ComputedMembers(v: View, x: FeatureValue)
    ensures x in Computed(v) <==> x in EnsemblePart(v) || x in DisagreementPart(v) || x in SpreadPart(v)
  {
    assert Computed(v) == EnsemblePart(v) + DisagreementPart(v) + SpreadPart(v);
  }

  /** The ensemble means of a location, one per model. */
  function ModelMeans(v: View, location: string): seq<FeatureValue> {
    [FeatureFrom(v, OfModel(location, Gfs)), FeatureFrom(v, OfModel(location, Ecmwf))]
  }

  lemma PairMembers<T>(a: T, b: T, x: T)
    ensures x in [a, b] <==> x == a || x == b
  {
  }

  lemma ModelMeansMembers(v: View, location: string, x: FeatureValue)
    ensures x in ModelMeans(v, location) <==> exists source :: x == FeatureFrom(v, OfModel(location, source))
  {
    var gfs, ecmwf := FeatureFrom(v, OfModel(location, Gfs)), FeatureFrom(v, OfModel(location, Ecmwf));
    PairMembers(gfs, ecmwf, x);
    if source :| x == FeatureFrom(v, OfModel(location, source)) {
      assert source.Gfs? || source.Ecmwf?;
    }
  }

  lemma EnsembleMembers(v: View, x: FeatureValue)
    ensures x in EnsemblePart(v) <==> exists location :: location in v.d.locations && x in ModelMeans(v, location)
  {
    var pair := EnsemblePair(v.d, v.asOf, v.target);
    FlatMapMember(v.d.locations, pair, x);
    assert forall location: string :: pair(location) == ModelMeans(v, location);
  }

  lemma DisagreementMembers(v: View, x: FeatureValue)
    ensures x in DisagreementPart(v)
            <==> exists location :: location in v.d.locations && x == FeatureFrom(v, OfLocation(location))
  {
    MapSeqMember(v.d.locations, DisagreementOf(v.d, v.asOf, v.target), x);
  }

  lemma SpreadMembers(v: View, x: FeatureValue)
    ensures x in SpreadPart(v) <==> exists ticker :: Listed(v, ticker) && x == FeatureFrom(v, OfMarket(ticker))
  {
    var spread := SpreadOf(v.d, v.asOf);
    MapSeqMember(ListOpenMarkets(v.d, v.asOf), spread, x);
    if m :| m in ListOpenMarkets(v.d, v.asOf) && x == spread(m) {
      assert Listed(v, m.ticker) && x == FeatureFrom(v, OfMarket(m.ticker));
    }
    if ticker :| Listed(v, ticker) && x == FeatureFrom(v, OfMarket(ticker)) {
      var m :| m in ListOpenMarkets(v.d, v.asOf) && m.ticker == ticker;
      assert x == spread(m);
    }
  }

  lemma MembersHaveOrigins(v: View, x: FeatureValue) returns (o: Origin)
    requires x in Computed(v)
    ensures Covered(v, o) && x == FeatureFrom(v, o)
  {
    ComputedMembers(v, x);
    if x in EnsemblePart(v) {
      EnsembleMembers(v, x);
      var location :| location in v.d.locations && x in ModelMeans(v, location);
      ModelMeansMembers(v, location, x);
      var source :| x == FeatureFrom(v, OfModel(location, source));
      o := OfModel(location, source);
    } else if x in DisagreementPart(v) {
      DisagreementMembers(v, x);
      var location :| location in v.d.locations && x == FeatureFrom(v, OfLocation(location));
      o := OfLocation(location);
    } else {
      SpreadMembers(v, x);
      var ticker :| Listed(v, ticker) && x == FeatureFrom(v, OfMarket(ticker));
      o := OfMarket(ticker);
    }
  }

  lemma OriginsAreMembers(v: View, o: Origin)
    requires Covered(v, o)
    ensures FeatureFrom(v, o) in Computed(v)
  {
    var x := FeatureFrom(v, o);
    ComputedMembers(v, x);
    match o
    case OfModel(location, _) =>
      ModelMeansMembers(v, location, x);
      EnsembleMembers(v, x);
    case OfLocation(_) => DisagreementMembers(v, x);
    case OfMarket(_) => SpreadMembers(v, x);
  }

  // ---------------------------------------------------------------- keys tell features apart

  predicate Plain(s: string) { ':' !in s }

  /** Location ids are used in keys and must not contain the separator. */
  predicate PlainLocations(d: SharedData) {
    forall location :: location in d.locations ==> Plain(location)
  }

  lemma CancelPrefix(p: string, s: string, t: string)
    requires p + s == p + t
    ensures s == t
  {
    assert s == (p + s)[|p|..] && t == (p + t)[|p|..];
  }

  lemma SplitAtColon(a: string, s: string, b: string, t: string)
    requires Plain(a) && Plain(b) && a + ":" + s == b + ":" + t
    ensures a == b && s == t
  {
    var whole := a + ":" + s;
    assert whole[|a|] == ':' && whole[|b|] == ':';
    assert forall i :: 0 <= i < |a| ==> whole[i] == a[i] != ':';
    assert forall i :: 0 <= i < |b| ==> whole[i] == b[i] != ':';
    assert |a| == |b|;
    assert a == whole[..|a|] == b;
    CancelPrefix(a + ":", s, t);
  }

  function Subject(o: Origin): string {
    match o
    case OfModel(location, source) => location + ":" + SourceName(source)
    case OfLocation(location) => location
    case OfMarket(ticker) => ticker
  }

  function ProviderOf(o: Origin): string {
    match o
    case OfModel(_, _) => ENSEMBLE_MEAN_TEMP
    case OfLocation(_) => FORECAST_DISAGREEMENT
    case OfMarket(_) => KALSHI_SPREAD
  }

  lemma FeatureLabels(v: View, o: Origin)
    ensures var f := FeatureFrom(v, o);
            && f.provider == ProviderOf(o) && f.subject == Subject(o)
            && f.kind == if o.OfMarket? then MarketSubject else LocationSubject
  {
  }

  lemma KeyShape(f: FeatureValue)
    ensures FeatureKey(f) == (f.provider + ":" + KindName(f.kind) + ":") + f.subject
  {
  }

  lemma KeyInitial(v: View, o: Origin)
    ensures FeatureKey(FeatureFrom(v, o))[0] == ProviderOf(o)[0]
  {
    FeatureLabels(v, o);
  }

  /** Features computed for different things have different keys. */
  lemma KeysTellOrigins(v: View, o: Origin, o': Origin)
    requires PlainLocations(v.d) && Covered(v, o) && Covered(v, o')
    requires FeatureKey(FeatureFrom(v, o)) == FeatureKey(FeatureFrom(v, o'))
    ensures o == o'
  {
    var f, f' := FeatureFrom(v, o), FeatureFrom(v, o');
    FeatureLabels(v, o);
    FeatureLabels(v, o');
    KeyInitial(v, o);
    KeyInitial(v, o');
    assert ProviderOf(o) == ProviderOf(o');
    KeyShape(f);
    KeyShape(f');
    CancelPrefix(f.provider + ":" + KindName(f.kind) + ":", f.subject, f'.subject);
    if o.OfModel? { SplitAtColon(o.location, SourceName(o.source), o'.location, SourceName(o'.source)); }
  }

  // ---------------------------------------------------------------- the index holds them all, once

  lemma {:induction false} KeyedAtMember(index: seq<FeatureValue>, key: string)
    requires KeyedAt(index, key).Some?
    ensures KeyedAt(index, key).value in index
    decreases |index|
  {
    if FeatureKey(index[0]) != key { KeyedAtMember(index[1..], key); }
  }

  predicate KeysDistinct(index: seq<FeatureValue>) {
    forall i, j :: 0 <= i < j < |index| ==> FeatureKey(index[i]) != FeatureKey(index[j])
  }

  lemma {:induction false} PutMembers(index: seq<FeatureValue>, f: FeatureValue)
    ensures forall x :: x in Put(index, f) ==> x == f || x in index
    decreases |index|
  {
    if |index| == 0 {
    } else if FeatureKey(index[0]) != FeatureKey(f) {
      PutMembers(index[1..], f);
    }
  }

  lemma {:induction false} PutKeepsKeysDistinct(index: seq<FeatureValue>, f: FeatureValue)
    requires KeysDistinct(index)
    ensures KeysDistinct(Put(index, f))
    decreases |index|
  {
    if |index| == 0 {
    } else {
      var head, rest := index[0], index[1..];
      if FeatureKey(head) == FeatureKey(f) {
        assert Put(index, f) == [f] + rest;
      } else {
        PutKeepsKeysDistinct(rest, f);
        PutMembers(rest, f);
        assert index == [head] + rest;
        HeadKeyDistinct(head, rest, f);
        assert Put(index, f) == [head] + Put(rest, f);
      }
    }
  }

  lemma HeadKeyDistinct(head: FeatureValue, rest: seq<FeatureValue>, f: FeatureValue)
    requires KeysDistinct([head] + rest) && KeysDistinct(Put(rest, f)) && FeatureKey(head) != FeatureKey(f)
    requires forall x :: x in Put(rest, f) ==> x == f || x in rest
    ensures KeysDistinct([head] + Put(rest, f))
  {
    var put := Put(rest, f);
    forall j | 0 <= j < |put| ensures FeatureKey(put[j]) != FeatureKey(head) {
      assert put[j] in put;
      if put[j] in rest {
        var k :| 0 <= k < |rest| && rest[k] == put[j];
        assert ([head] + rest)[k + 1] == put[j] && ([head] + rest)[0] == head;
      }
    }
  }

  lemma {:induction false} IndexMembers(features: seq<FeatureValue>)
    ensures KeysDistinct(IndexFeatures(features))
    ensures forall x :: x in IndexFeatures(features) ==> x in features
    decreases |features|
  {
    if |features| == 0 {
    } else {
      var front, last := features[..|features| - 1], features[|features| - 1];
      IndexMembers(front);
      PutMembers(IndexFeatures(front), last);
      PutKeepsKeysDistinct(IndexFeatures(front), last);
    }
  }

  function Index(v: View): seq<FeatureValue> { IndexFeatures(Computed(v)) }

  lemma SameKeySameFeature(v: View, o: Origin, x: FeatureValue)
    requires PlainLocations(v.d) && Covered(v, o)
    requires x in Computed(v) && FeatureKey(x) == FeatureKey(FeatureFrom(v, o))
    ensures x == FeatureFrom(v, o)
  {
    var o' := MembersHaveOrigins(v, x);
    KeysTellOrigins(v, o', o);
  }

  /** A feature whose key nothing else has is in the index. */
  lemma UniqueKeyIsIndexed(features: seq<FeatureValue>, f: FeatureValue, key: string)
    requires f in features && FeatureKey(f) == key
    requires forall x :: x in features && FeatureKey(x) == key ==> x == f
    ensures f in IndexFeatures(features)
  {
    var same := Filter(features, HasKey(key));
    FilterMember(features, HasKey(key), f);
    IndexKeepsLast(features, key);
    FilterMember(features, HasKey(key), same[|same| - 1]);
    KeyedAtMember(IndexFeatures(features), key);
  }

  lemma IndexHolds(v: View, o: Origin)
    requires PlainLocations(v.d) && Covered(v, o)
    ensures FeatureFrom(v, o) in Index(v)
  {
    var f := FeatureFrom(v, o);
    var key := FeatureKey(f);
    OriginsAreMembers(v, o);
    forall x | x in Computed(v) && FeatureKey(x) == key ensures x == f { SameKeySameFeature(v, o, x); }
    UniqueKeyIsIndexed(Computed(v), f, key);
  }

  // ---------------------------------------------------------------- what one market is given

  lemma OnlyMatchIsFirst(index: seq<FeatureValue>, p: FeatureValue -> bool, f: FeatureValue)
    requires f in index && p(f) && forall x :: x in index && p(x) ==> x == f
    ensures |Filter(index, p)| > 0 && Filter(index, p)[0] == f
  {
    FilterMember(index, p, f);
    FilterMember(index, p, Filter(index, p)[0]);
  }

  lemma NoMatch(index: seq<FeatureValue>, p: FeatureValue -> bool)
    requires forall x :: x in index ==> !p(x)
    ensures Filter(index, p) == []
  {
    if |Filter(index, p)| > 0 { FilterMember(index, p, Filter(index, p)[0]); }
  }

  /** A feature computed for the market itself or for its location is passed on as it is. */
  lemma DirectFeaturesPass(v: View, location: string, ticker: string, o: Origin)
    requires PlainLocations(v.d) && Covered(v, o)
    requires o == OfMarket(ticker) || o == OfLocation(location)
    ensures ScopedFeature(Index(v), Some(location), ticker, ProviderOf(o)) == Some(FeatureFrom(v, o))
  {
    var f := FeatureFrom(v, o);
    var p := DirectNamed(Some(location), ticker, ProviderOf(o));
    IndexMembers(Computed(v));
    IndexHolds(v, o);
    FeatureLabels(v, o);
    forall x | x in Index(v) && p(x) ensures x == f {
      var o' := MembersHaveOrigins(v, x);
      FeatureLabels(v, o');
    }
    OnlyMatchIsFirst(Index(v), p, f);
  }

  lemma PartOrigin(v: View, o: Origin, location: string)
    requires PlainLocations(v.d) && Covered(v, o) && location in v.d.locations
    requires PartNamed(Some(location), ENSEMBLE_MEAN_TEMP)(FeatureFrom(v, o))
    ensures o.OfModel? && o.location == location
  {
    FeatureLabels(v, o);
    SameLocation(o.location, SourceName(o.source), location);
  }

  lemma PartsAreModels(v: View, location: string, x: FeatureValue)
    requires PlainLocations(v.d) && location in v.d.locations
    requires x in Index(v) && PartNamed(Some(location), ENSEMBLE_MEAN_TEMP)(x)
    ensures x in ModelMeans(v, location)
  {
    IndexMembers(Computed(v));
    var o := MembersHaveOrigins(v, x);
    PartOrigin(v, o, location);
    ModelMeansMembers(v, location, x);
  }

  lemma SameLocation(a: string, source: string, b: string)
    requires Plain(a) && Plain(b) && b + ":" <= a + ":" + source
    ensures a == b
  {
    var rest := (a + ":" + source)[|b| + 1..];
    assert a + ":" + source == b + ":" + rest;
    SplitAtColon(a, source, b, rest);
  }

  lemma ModelsAreParts(v: View, location: string, source: ForecastSource)
    ensures PartNamed(Some(location), ENSEMBLE_MEAN_TEMP)(FeatureFrom(v, OfModel(location, source)))
  {
    FeatureLabels(v, OfModel(location, source));
  }

  lemma ModelsDiffer(v: View, location: string)
    ensures FeatureFrom(v, OfModel(location, Gfs)) != FeatureFrom(v, OfModel(location, Ecmwf))
  {
    FeatureLabels(v, OfModel(location, Gfs));
    FeatureLabels(v, OfModel(location, Ecmwf));
    assert |location + ":" + "gfs"| != |location + ":" + "ecmwf"|;
  }

  /** The parts that are rolled up for a location are its models' means, in some order. */
  lemma PartsAreTheModels(v: View, location: string)
    requires PlainLocations(v.d) && location in v.d.locations
    ensures multiset(Filter(Index(v), PartNamed(Some(location), ENSEMBLE_MEAN_TEMP))) == multiset(ModelMeans(v, location))
  {
    var p := PartNamed(Some(location), ENSEMBLE_MEAN_TEMP);
    var parts := Filter(Index(v), p);
    IndexMembers(Computed(v));
    FilterDistinct(Index(v), p);
    ModelsDiffer(v, location);
    forall x ensures x in parts <==> x in ModelMeans(v, location) {
      FilterMember(Index(v), p, x);
      ModelMeansMembers(v, location, x);
      if x in parts {
        PartsAreModels(v, location, x);
      } else if source :| x == FeatureFrom(v, OfModel(location, source)) {
        IndexHolds(v, OfModel(location, source));
        ModelsAreParts(v, location, source);
      }
    }
    SameMembersSameBag(parts, ModelMeans(v, location));
  }

  /** The rollup does not depend on the order of the parts. */
  lemma AggregatePermutation(xs: seq<FeatureValue>, ys: seq<FeatureValue>, location: string)
    requires multiset(xs) == multiset(ys)
    requires forall x, y :: x in xs && y in xs ==> x.provider == y.provider && x.kind == y.kind
    ensures Aggregate(xs, location) == Aggregate(ys, location)
  {
    var us, vs := Filter(xs, Numeric()), Filter(ys, Numeric());
    FilterPermutation(xs, ys, Numeric());
    assert |multiset(us)| == |us| && |multiset(vs)| == |vs|;
    SumRealPermutation(us, vs, NumberIn());
    LatestPermutation(us, vs, TimeOf());
    if |us| > 0 {
      FilterMember(xs, Numeric(), us[0]);
      FilterMember(ys, Numeric(), vs[0]);
      assert vs[0] in multiset(xs);
    }
  }

  lemma NoDirectEnsemble(v: View, location: string, ticker: string)
    requires PlainLocations(v.d) && location in v.d.locations
    ensures Filter(Index(v), DirectNamed(Some(location), ticker, ENSEMBLE_MEAN_TEMP)) == []
  {
    var p := DirectNamed(Some(location), ticker, ENSEMBLE_MEAN_TEMP);
    IndexMembers(Computed(v));
    forall x | x in Index(v) ensures !p(x) {
      var o := MembersHaveOrigins(v, x);
      FeatureLabels(v, o);
      if o.OfModel? { assert (o.location + ":" + SourceName(o.source))[|o.location|] == ':'; }
    }
    NoMatch(Index(v), p);
  }

  /** The ensemble means of the models are rolled up into one for the location. */
  lemma EnsembleIsRolledUp(v: View, location: string, ticker: string)
    requires PlainLocations(v.d) && location in v.d.locations
    ensures ScopedFeature(Index(v), Some(location), ticker, ENSEMBLE_MEAN_TEMP) == Aggregate(ModelMeans(v, location), location)
  {
    var parts := Filter(Index(v), PartNamed(Some(location), ENSEMBLE_MEAN_TEMP));
    NoDirectEnsemble(v, location, ticker);
    PartsAreTheModels(v, location);
    forall x | x in parts ensures x.provider == ENSEMBLE_MEAN_TEMP && x.kind == LocationSubject {
      assert x in multiset(ModelMeans(v, location));
      ModelMeansMembers(v, location, x);
      var source :| x == FeatureFrom(v, OfModel(location, source));
      FeatureLabels(v, OfModel(location, source));
    }
    AggregatePermutation(parts, ModelMeans(v, location), location);
  }

  /** Through providers, index and scoping, a listed market of a known location is given its own
      spread, its location's disagreement and the average of the location's model means, whatever
      else was computed and in whatever order; and nothing else. */
  lemma MarketSees(v: View, location: string, ticker: string)
    requires PlainLocations(v.d) && location in v.d.locations && Listed(v, ticker)
    ensures var given := FeaturesForMarket(Index(v), Some(location), ticker);
            && Lookup(given, KALSHI_SPREAD) == Some(SpreadFeature(v.d, ticker, v.asOf))
            && Lookup(given, FORECAST_DISAGREEMENT) == Some(DisagreementFeature(v.d, location, v.asOf, v.target))
            && Lookup(given, ENSEMBLE_MEAN_TEMP) == Aggregate(ModelMeans(v, location), location)
            && given.Keys <= {KALSHI_SPREAD, FORECAST_DISAGREEMENT, ENSEMBLE_MEAN_TEMP}
  {
    var given := FeaturesForMarket(Index(v), Some(location), ticker);
    ScopedProvidersAppear(Index(v), Some(location), ticker);
    DirectFeaturesPass(v, location, ticker, OfMarket(ticker));
    DirectFeaturesPass(v, location, ticker, OfLocation(location));
    EnsembleIsRolledUp(v, location, ticker);
    OnlyTheseProviders(v, location, ticker);
  }

  lemma OnlyTheseProviders(v: View, location: string, ticker: string)
    ensures FeaturesForMarket(Index(v), Some(location), ticker).Keys
         <= {KALSHI_SPREAD, FORECAST_DISAGREEMENT, ENSEMBLE_MEAN_TEMP}
  {
    forall name | name in FeaturesForMarket(Index(v), Some(location), ticker)
      ensures name in {KALSHI_SPREAD, FORECAST_DISAGREEMENT, ENSEMBLE_MEAN_TEMP}
    {
      var f :| f in Index(v) && f.provider == name;
      IndexMembers(Computed(v));
      var o := MembersHaveOrigins(v, f);
      FeatureLabels(v, o);
    }
  }

  // ---------------------------------------------------------------- what a feature says

  /** The rows behind a temperature feature come from the newest run known at the time. */
  lemma RowsAreNewest(v: View, k: RunKey, r: ForecastRow)
    requires r in LatestForecastRows(v.d, k, v.asOf, v.target)
    ensures r in v.d.forecasts && OfKey(r, k) && r.runTime <= v.asOf
    ensures forall s :: s in v.d.forecasts && OfKey(s, k) && s.runTime <= v.asOf ==> s.runTime <= r.runTime
  {
    var known := Filter(v.d.forecasts, RunUpTo(k, v.asOf));
    LatestIsMaximum(known, RunTimeOf());
    var run := Latest(known, RunTimeOf()).value;
    var rows := Filter(v.d.forecasts, RunAt(k, run));
    FilterMember(rows, InWindow(TargetWindow(rows, v.asOf, v.target).value), r);
    FilterMember(v.d.forecasts, RunAt(k, run), r);
    var newest :| newest in known && newest.runTime == run;
    FilterMember(v.d.forecasts, RunUpTo(k, v.asOf), newest);
    forall s | s in v.d.forecasts && OfKey(s, k) && s.runTime <= v.asOf ensures s.runTime <= r.runTime {
      FilterMember(v.d.forecasts, RunUpTo(k, v.asOf), s);
    }
  }

  /** A row for this place, model and variable whose run is known at `asOf`. */
  predicate Known(k: RunKey, asOf: int, r: ForecastRow) {
    r.location == k.location && r.source == k.source && r.variable == k.variable && r.runTime <= asOf
  }

  predicate OfNewestRun(d: SharedData, k: RunKey, asOf: int, r: ForecastRow) {
    Known(k, asOf, r) && forall s :: s in d.forecasts && Known(k, asOf, s) ==> s.runTime <= r.runTime
  }

  /** Of that run, a row whose window has started last. */
  predicate Current(d: SharedData, k: RunKey, asOf: int, r: ForecastRow) {
    && OfNewestRun(d, k, asOf, r) && r.windowStart <= asOf
    && forall s :: s in d.forecasts && OfNewestRun(d, k, asOf, s) && s.windowStart <= asOf ==> s.windowStart <= r.windowStart
  }

  function IsCurrent(d: SharedData, k: RunKey, asOf: int): ForecastRow -> bool { (r: ForecastRow) => Current(d, k, asOf, r) }

  function IsTargeted(d: SharedData, k: RunKey, asOf: int, target: int): ForecastRow -> bool {
    (r: ForecastRow) => OfNewestRun(d, k, asOf, r) && r.windowStart == target
  }

  /** The run the query picks is the newest. */
  lemma RunIsNewest(d: SharedData, k: RunKey, asOf: int)
    ensures var run := Latest(Filter(d.forecasts, RunUpTo(k, asOf)), RunTimeOf());
            && (run.None? ==> forall r :: r in d.forecasts ==> !OfNewestRun(d, k, asOf, r))
            && (run.Some? ==> forall r :: r in d.forecasts ==> (RunAt(k, run.value)(r) <==> OfNewestRun(d, k, asOf, r)))
  {
    var known := Filter(d.forecasts, RunUpTo(k, asOf));
    LatestIsMaximum(known, RunTimeOf());
    forall r | r in d.forecasts ensures r in known <==> RunUpTo(k, asOf)(r) { FilterMember(d.forecasts, RunUpTo(k, asOf), r); }
    if |known| > 0 {
      var run := Latest(known, RunTimeOf()).value;
      var newest :| newest in known && newest.runTime == run;
      FilterMember(d.forecasts, RunUpTo(k, asOf), newest);
    }
  }

  /** Rows of the query's run in one window, and the window it takes without a target. */
  lemma WindowIsLastStarted(d: SharedData, k: RunKey, asOf: int, run: int)
    requires forall r :: r in d.forecasts ==> (RunAt(k, run)(r) <==> OfNewestRun(d, k, asOf, r))
    ensures var rows := Filter(d.forecasts, RunAt(k, run));
            var window := TargetWindow(rows, asOf, None);
            && (window.None? ==> forall r :: r in d.forecasts && OfNewestRun(d, k, asOf, r) ==> r.windowStart > asOf)
            && (window.Some? ==> forall r :: r in rows ==> (InWindow(window.value)(r) <==> Current(d, k, asOf, r)))
            && (window.Some? ==> exists r :: r in rows && InWindow(window.value)(r))
  {
    var rows := Filter(d.forecasts, RunAt(k, run));
    var started := Filter(rows, WindowStarted(asOf));
    forall r | r in d.forecasts ensures r in rows <==> OfNewestRun(d, k, asOf, r) { FilterMember(d.forecasts, RunAt(k, run), r); }
    forall r ensures r in started ==> r in d.forecasts && r in rows && r.windowStart <= asOf {
      FilterMember(rows, WindowStarted(asOf), r);
      FilterMember(d.forecasts, RunAt(k, run), r);
    }
    forall r | r in rows && r.windowStart <= asOf ensures r in started { FilterMember(rows, WindowStarted(asOf), r); }
    LatestIsMaximum(started, WindowOf());
    forall r | r in rows ensures r in d.forecasts { FilterMember(d.forecasts, RunAt(k, run), r); }
    if |started| > 0 { var last :| last in started && last.windowStart == Latest(started, WindowOf()).value; }
  }

  /** Without a target the query returns exactly the rows of the newest run known, in the window
      that has started last; it returns some exactly when a row of that run has started. */
  lemma RowsAreCurrent(d: SharedData, k: RunKey, asOf: int)
    ensures LatestForecastRows(d, k, asOf, None) == Filter(d.forecasts, IsCurrent(d, k, asOf))
    ensures |LatestForecastRows(d, k, asOf, None)| > 0
            <==> exists r :: r in d.forecasts && OfNewestRun(d, k, asOf, r) && r.windowStart <= asOf
  {
    var run := Latest(Filter(d.forecasts, RunUpTo(k, asOf)), RunTimeOf());
    RunIsNewest(d, k, asOf);
    if run.None? {
      NoRows(d.forecasts, IsCurrent(d, k, asOf));
    } else {
      var rows := Filter(d.forecasts, RunAt(k, run.value));
      WindowIsLastStarted(d, k, asOf, run.value);
      CurrentOfRun(d, k, asOf, run.value);
    }
  }

  lemma NoRows(rows: seq<ForecastRow>, p: ForecastRow -> bool)
    requires forall r :: r in rows ==> !p(r)
    ensures Filter(rows, p) == []
  {
    if |Filter(rows, p)| > 0 { FilterMember(rows, p, Filter(rows, p)[0]); }
  }

  lemma CurrentOfRun(d: SharedData, k: RunKey, asOf: int, run: int)
    requires forall r :: r in d.forecasts ==> (RunAt(k, run)(r) <==> OfNewestRun(d, k, asOf, r))
    ensures var rows := Filter(d.forecasts, RunAt(k, run));
            var window := TargetWindow(rows, asOf, None);
            && (if window.None? then [] else Filter(rows, InWindow(window.value))) == Filter(d.forecasts, IsCurrent(d, k, asOf))
            && (window.Some? ==> |Filter(rows, InWindow(window.value))| > 0)
            && (window.Some? ==> exists r :: r in d.forecasts && OfNewestRun(d, k, asOf, r) && r.windowStart <= asOf)
  {
    var rows := Filter(d.forecasts, RunAt(k, run));
    var window := TargetWindow(rows, asOf, None);
    WindowIsLastStarted(d, k, asOf, run);
    if window.None? {
      NoRows(d.forecasts, IsCurrent(d, k, asOf));
    } else {
      FilterSame(rows, InWindow(window.value), IsCurrent(d, k, asOf));
      FilterWithin(d.forecasts, IsCurrent(d, k, asOf), RunAt(k, run));
      var r :| r in rows && InWindow(window.value)(r);
      FilterMember(rows, InWindow(window.value), r);
      FilterMember(d.forecasts, RunAt(k, run), r);
    }
  }

  /** With a target it returns exactly the rows of that run in that window. */
  lemma RowsAreTargeted(d: SharedData, k: RunKey, asOf: int, target: int)
    ensures LatestForecastRows(d, k, asOf, Some(target)) == Filter(d.forecasts, IsTargeted(d, k, asOf, target))
  {
    var run := Latest(Filter(d.forecasts, RunUpTo(k, asOf)), RunTimeOf());
    var wanted := IsTargeted(d, k, asOf, target);
    RunIsNewest(d, k, asOf);
    if run.None? {
      NoRows(d.forecasts, wanted);
    } else {
      var rows := Filter(d.forecasts, RunAt(k, run.value));
      forall r | r in rows ensures InWindow(target)(r) == wanted(r) { FilterMember(d.forecasts, RunAt(k, run.value), r); }
      FilterSame(rows, InWindow(target), wanted);
      FilterWithin(d.forecasts, wanted, RunAt(k, run.value));
      if TargetWindow(rows, asOf, Some(target)).None? { NoRows(rows, InWindow(target)); }
    }
  }

  function ModelRows(v: View, location: string, source: ForecastSource): seq<ForecastRow> {
    TemperatureRows(v.d, location, source, v.asOf, v.target)
  }

  /** The rows behind a model's mean at a tick: its temperatures for the place, current at the time. */
  lemma ModelRowsAreCurrent(v: View, location: string, source: ForecastSource)
    requires v.target == None
    ensures ModelRows(v, location, source) == Filter(v.d.forecasts, IsCurrent(v.d, RunKey(location, source, "temperature_2m"), v.asOf))
  {
    RowsAreCurrent(v.d, RunKey(location, source, "temperature_2m"), v.asOf);
  }

  /** A model's mean is present exactly when the model has rows; it lies within any bounds of
      their values and carries the time of the newest run known, never a later one. */
  lemma EnsembleMeaning(v: View, location: string, source: ForecastSource, low: real, high: real)
    ensures var rows, f := ModelRows(v, location, source), FeatureFrom(v, OfModel(location, source));
            && (f.status.Present? <==> |rows| > 0)
            && (f.status.Present? ==>
                  && f.asOf.Some? && f.value.Some? && f.asOf.value <= v.asOf
                  && (forall r :: r in rows ==> r.runTime == f.asOf.value)
                  && ((forall r :: r in rows ==> low <= r.value <= high) ==> low <= f.value.value <= high))
  {
    var rows := ModelRows(v, location, source);
    var k := RunKey(location, source, TEMPERATURE_VARIABLE);
    LatestIsMaximum(rows, RunTimeOf());
    if |rows| > 0 {
      var newest :| newest in rows && newest.runTime == Latest(rows, RunTimeOf()).value;
      RowsAreNewest(v, k, newest);
      forall r | r in rows ensures r.runTime == newest.runTime { RowsAreNewest(v, k, r); }
      if forall r :: r in rows ==> low <= r.value <= high { Means.MeanWithin(rows, ValueOf(), low, high); }
    }
  }

  /** And it is their average. */
  lemma EnsembleIsTheAverage(v: View, location: string, source: ForecastSource)
    requires |ModelRows(v, location, source)| > 0
    ensures var rows, f := ModelRows(v, location, source), FeatureFrom(v, OfModel(location, source));
            f.value.Some? && |rows| as real * f.value.value == SumReal(rows, ValueOf())
  {
    var rows := ModelRows(v, location, source);
    LatestIsMaximum(rows, RunTimeOf());
    Means.MeanTimesCount(SumReal(rows, ValueOf()), |rows| as real);
  }

  /** The disagreement is present exactly when both models' means are, is their distance, and
      carries the later of their two times. */
  lemma DisagreementMeaning(v: View, location: string)
    ensures var f, gfs, ecmwf := FeatureFrom(v, OfLocation(location)),
                                 FeatureFrom(v, OfModel(location, Gfs)), FeatureFrom(v, OfModel(location, Ecmwf));
            && (f.status.Present? <==> gfs.status.Present? && ecmwf.status.Present?)
            && (f.status.Present? ==>
                  && gfs.value.Some? && ecmwf.value.Some? && f.value.Some? && f.value.value >= 0.0
                  && (f.value.value == gfs.value.value - ecmwf.value.value || f.value.value == ecmwf.value.value - gfs.value.value)
                  && gfs.asOf.Some? && ecmwf.asOf.Some? && f.asOf == Some(Max(gfs.asOf.value, ecmwf.asOf.value))
                  && f.asOf.value <= v.asOf)
  {
    EnsembleMeaning(v, location, Gfs, 0.0, 0.0);
    EnsembleMeaning(v, location, Ecmwf, 0.0, 0.0);
    LatestIsMaximum(ModelRows(v, location, Gfs), RunTimeOf());
    LatestIsMaximum(ModelRows(v, location, Ecmwf), RunTimeOf());
  }

  /** `q` is the last stored of the newest quotes of the ticker known at `asOf`. */
  predicate NewestQuote(d: SharedData, ticker: string, asOf: int, k: nat) {
    && k < |d.snapshots| && d.snapshots[k].ticker == ticker && d.snapshots[k].asOf <= asOf
    && (forall j :: 0 <= j < |d.snapshots| && d.snapshots[j].ticker == ticker && d.snapshots[j].asOf <= asOf ==>
          d.snapshots[j].asOf <= d.snapshots[k].asOf && (j > k ==> d.snapshots[j].asOf < d.snapshots[k].asOf))
  }

  lemma {:induction false} LastOfFilter<T>(xs: seq<T>, p: T -> bool) returns (k: nat)
    requires |Filter(xs, p)| > 0
    ensures k < |xs| && p(xs[k]) && xs[k] == Filter(xs, p)[|Filter(xs, p)| - 1]
    ensures forall j :: k < j < |xs| ==> !p(xs[j])
    decreases |xs|
  {
    k := if p(xs[|xs| - 1]) then |xs| - 1 else 0;
    if !p(xs[|xs| - 1]) { k := LastOfFilter(xs[..|xs| - 1], p); }
  }

  /** The query answers with that quote, and with none exactly when the ticker has none by then. */
  lemma QuoteQuery(d: SharedData, ticker: string, asOf: int) returns (k: nat)
    ensures LatestSnapshot(d, ticker, asOf).Some? <==> exists s :: s in d.snapshots && s.ticker == ticker && s.asOf <= asOf
    ensures LatestSnapshot(d, ticker, asOf).Some? ==>
              NewestQuote(d, ticker, asOf, k) && LatestSnapshot(d, ticker, asOf).value == d.snapshots[k]
  {
    var known := Filter(d.snapshots, SnapshotUpTo(ticker, asOf));
    k := 0;
    forall s ensures s in known <==> s in d.snapshots && s.ticker == ticker && s.asOf <= asOf {
      FilterMember(d.snapshots, SnapshotUpTo(ticker, asOf), s);
    }
    LatestIsMaximum(known, SnapshotTime());
    if |known| > 0 {
      var time := Latest(known, SnapshotTime()).value;
      var newest :| newest in known && newest.asOf == time;
      FilterMember(d.snapshots, SnapshotAt(ticker, time), newest);
      k := LastOfFilter(d.snapshots, SnapshotAt(ticker, time));
      forall j | 0 <= j < |d.snapshots| && d.snapshots[j].ticker == ticker && d.snapshots[j].asOf <= asOf
        ensures d.snapshots[j].asOf <= time && (j > k ==> d.snapshots[j].asOf < time)
      {
        assert d.snapshots[j] in known;
      }
    } else if s :| s in d.snapshots && s.ticker == ticker && s.asOf <= asOf {
      assert s in known;
    }
  }

  lemma QuoteIsNewest(v: View, ticker: string)
    requires LatestSnapshot(v.d, ticker, v.asOf).Some?
    ensures var q := LatestSnapshot(v.d, ticker, v.asOf).value;
            && q in v.d.snapshots && q.ticker == ticker && q.asOf <= v.asOf
            && forall s :: s in v.d.snapshots && s.ticker == ticker && s.asOf <= v.asOf ==> s.asOf <= q.asOf
  {
    var k := QuoteQuery(v.d, ticker, v.asOf);
    var q := v.d.snapshots[k];
    assert q in v.d.snapshots;
    forall s | s in v.d.snapshots && s.ticker == ticker && s.asOf <= v.asOf ensures s.asOf <= q.asOf {
      var j :| 0 <= j < |v.d.snapshots| && v.d.snapshots[j] == s;
    }
  }

  /** The spread is present exactly when the newest quote known has a bid and an ask that do not
      cross; it is never negative and carries that quote's time. */
  lemma SpreadMeaning(v: View, ticker: string)
    ensures var f, q := FeatureFrom(v, OfMarket(ticker)), LatestSnapshot(v.d, ticker, v.asOf);
            && (f.status.Present? <==> q.Some? && q.value.bid.Some? && q.value.ask.Some? && q.value.bid.value <= q.value.ask.value)
            && (f.status.Present? ==>
                  && f.asOf == Some(q.value.asOf) && q.value.asOf <= v.asOf
                  && f.value.Some? && f.value.value >= 0.0 && q.value.bid.value + f.value.value == q.value.ask.value)
  {
    if LatestSnapshot(v.d, ticker, v.asOf).Some? { QuoteIsNewest(v, ticker); }
  }

  // ---------------------------------------------------------------- what the freshness gate asks

  /** The rolled-up ensemble mean is as old as the newer model. */
  lemma RollupOfBoth(g: FeatureValue, e: FeatureValue, location: string)
    requires Numeric()(g) && Numeric()(e)
    ensures var r := Aggregate([g, e], location);
            r.Some? && r.value.status.Present? && r.value.subject == location
            && r.value.asOf == Some(Max(g.asOf.value, e.asOf.value))
  {
    assert [g, e][..1] == [g] && [g][..0] == [];
    assert Filter([g], Numeric()) == [g];
    assert Filter([g, e], Numeric()) == [g, e];
    assert Latest([g], TimeOf()) == Some(g.asOf.value);
  }

  /** Sizing looks at every feature in scope, not only at those the strategy requires. For any
      market state of a known location its gate opens exactly when the spread and the
      disagreement are both usable. */
  lemma GateIff(v: View, location: string, m: MarketState, maxAge: int)
    requires PlainLocations(v.d) && location in v.d.locations && Listed(v, m.ticker)
    requires LocationForSeries(m.series) == Some(location)
    ensures Sizing.FreshInputs(maxAge, FeaturesForMarket(Index(v), Some(location), m.ticker), m)
            <==> && Sizing.Usable(FeatureFrom(v, OfMarket(m.ticker)), m.asOf - maxAge)
                 && Sizing.Usable(FeatureFrom(v, OfLocation(location)), m.asOf - maxAge)
  {
    MarketSees(v, location, m.ticker);
    FeatureLabels(v, OfMarket(m.ticker));
    FeatureLabels(v, OfLocation(location));
    GateOfThree(FeaturesForMarket(Index(v), Some(location), m.ticker), location, m, maxAge);
    if Sizing.Usable(FeatureFrom(v, OfLocation(location)), m.asOf - maxAge) { UsableRollup(v, location, m.asOf - maxAge); }
  }

  /** A market state of the tick, at a location that is known. */
  predicate Shown(v: View, s: MarketState, location: string) {
    && PlainLocations(v.d) && location in v.d.locations
    && s in MarketStates(v.d, v.asOf) && s.location == Some(location)
  }

  /** A market state is built from the newest quote of a listed market, and so is its spread. */
  lemma ShownStates(v: View, s: MarketState, location: string)
    requires Shown(v, s, location)
    ensures Listed(v, s.ticker) && LocationForSeries(s.series) == Some(location)
    ensures LatestSnapshot(v.d, s.ticker, v.asOf).Some? && LatestSnapshot(v.d, s.ticker, v.asOf).value.asOf == s.asOf <= v.asOf
    ensures FeatureFrom(v, OfMarket(s.ticker)).status.Present? ==> FeatureFrom(v, OfMarket(s.ticker)).asOf == Some(s.asOf)
  {
    CollectMember(ListOpenMarkets(v.d, v.asOf), MarketStateAt(v.d, v.asOf), s);
    var m :| m in ListOpenMarkets(v.d, v.asOf) && MarketStateAt(v.d, v.asOf)(m) == Some(s);
    QuoteIsNewest(v, m.ticker);
    SpreadMeaning(v, m.ticker);
  }

  /** What the freshness gate decides on for the states a tick builds. */
  predicate GateOpen(v: View, s: MarketState, maxAge: int) {
    Sizing.FreshInputs(maxAge, FeaturesForMarket(Index(v), s.location, s.ticker), s)
  }

  /** The run times behind a location's features, once both models have rows. */
  function RunTime(v: View, location: string, source: ForecastSource): int {
    OrDefault(FeatureFrom(v, OfModel(location, source)).asOf, 0)
  }

  function NewerRun(v: View, location: string): int { Max(RunTime(v, location, Gfs), RunTime(v, location, Ecmwf)) }

  function OlderRun(v: View, location: string): int {
    var gfs, ecmwf := RunTime(v, location, Gfs), RunTime(v, location, Ecmwf);
    if gfs < ecmwf then gfs else ecmwf
  }

  /** For the states a tick builds, the gate opens exactly when the market has an uncrossed quote,
      both models have rows, and the newer of the two runs is at most `maxAge` older than the
      quote. Neither the age of the quote nor that of the older run enters. */
  lemma FreshnessIff(v: View, s: MarketState, location: string, maxAge: int)
    requires Shown(v, s, location) && maxAge >= 0
    ensures GateOpen(v, s, maxAge)
            <==> && FeatureFrom(v, OfMarket(s.ticker)).status.Present?
                 && |ModelRows(v, location, Gfs)| > 0 && |ModelRows(v, location, Ecmwf)| > 0
                 && NewerRun(v, location) >= s.asOf - maxAge
  {
    ShownStates(v, s, location);
    GateIff(v, location, s, maxAge);
    DisagreementMeaning(v, location);
    EnsembleMeaning(v, location, Gfs, 0.0, 0.0);
    EnsembleMeaning(v, location, Ecmwf, 0.0, 0.0);
  }

  /** With rows of one model only, or none, no strategy can trade: whatever it drafts on the
      market is rejected as stale. */
  lemma OneModelIsRejected(v: View, s: MarketState, location: string, x: Sizing.SizingInput)
    requires Shown(v, s, location) && x.system.SystemActive?
    requires |ModelRows(v, location, Gfs)| == 0 || |ModelRows(v, location, Ecmwf)| == 0
    requires x.market == s && x.features == FeaturesForMarket(Index(v), s.location, s.ticker)
    ensures Sizing.SizeOrder(x) == Err(RejectedStaleInputs)
  {
    ShownStates(v, s, location);
    GateIff(v, location, s, x.strategy.config.maxInputAge);
    DisagreementMeaning(v, location);
    EnsembleMeaning(v, location, Gfs, 0.0, 0.0);
    EnsembleMeaning(v, location, Ecmwf, 0.0, 0.0);
  }

  /** Every feature the market was given is at most `maxAge` old at the time of the tick. */
  predicate FeaturesYoung(v: View, s: MarketState, maxAge: int) {
    var given := FeaturesForMarket(Index(v), s.location, s.ticker);
    forall name :: name in given ==> given[name].asOf.Some? && given[name].asOf.value >= v.asOf - maxAge
  }

  /** An open gate means that every feature is at most `maxAge` old at the time of the tick exactly
      when the quote is, and the newer run is; it always does when the quote is of that time. */
  lemma OpenGateIsYoungIff(v: View, s: MarketState, location: string, maxAge: int)
    requires Shown(v, s, location) && maxAge >= 0 && GateOpen(v, s, maxAge)
    ensures FeaturesYoung(v, s, maxAge) <==> s.asOf >= v.asOf - maxAge && NewerRun(v, location) >= v.asOf - maxAge
    ensures s.asOf == v.asOf ==> FeaturesYoung(v, s, maxAge)
  {
    FreshnessIff(v, s, location, maxAge);
    FeatureAges(v, s, location, maxAge);
  }

  lemma FeatureAges(v: View, s: MarketState, location: string, maxAge: int)
    requires Shown(v, s, location) && FeatureFrom(v, OfMarket(s.ticker)).status.Present?
    requires |ModelRows(v, location, Gfs)| > 0 && |ModelRows(v, location, Ecmwf)| > 0
    ensures FeaturesYoung(v, s, maxAge) <==> s.asOf >= v.asOf - maxAge && NewerRun(v, location) >= v.asOf - maxAge
  {
    GivenAges(v, s, location);
    ThreeAges(FeaturesForMarket(Index(v), s.location, s.ticker), v.asOf - maxAge, s.asOf, NewerRun(v, location));
  }

  lemma RollupTime(v: View, location: string)
    requires FeatureFrom(v, OfLocation(location)).status.Present?
    ensures var r := Aggregate(ModelMeans(v, location), location); r.Some? && r.value.asOf == Some(NewerRun(v, location))
  {
    DisagreementMeaning(v, location);
    RollupOfBoth(FeatureFrom(v, OfModel(location, Gfs)), FeatureFrom(v, OfModel(location, Ecmwf)), location);
  }

  lemma BothModelsPresent(v: View, location: string)
    requires |ModelRows(v, location, Gfs)| > 0 && |ModelRows(v, location, Ecmwf)| > 0
    ensures var f := FeatureFrom(v, OfLocation(location)); f.status.Present? && f.asOf == Some(NewerRun(v, location))
  {
    EnsembleMeaning(v, location, Gfs, 0.0, 0.0);
    EnsembleMeaning(v, location, Ecmwf, 0.0, 0.0);
    DisagreementMeaning(v, location);
  }

  /** The dates of the three features of a market whose gate can open. */
  predicate Dated(given: FeatureMap, quote: int, run: int) {
    && given.Keys == {KALSHI_SPREAD, FORECAST_DISAGREEMENT, ENSEMBLE_MEAN_TEMP}
    && given[KALSHI_SPREAD].asOf == Some(quote)
    && given[FORECAST_DISAGREEMENT].asOf == given[ENSEMBLE_MEAN_TEMP].asOf == Some(run)
  }

  lemma DatedByLookups(given: FeatureMap, spread: FeatureValue, dis: FeatureValue, mean: FeatureValue, quote: int, run: int)
    requires given.Keys <= {KALSHI_SPREAD, FORECAST_DISAGREEMENT, ENSEMBLE_MEAN_TEMP}
    requires Lookup(given, KALSHI_SPREAD) == Some(spread) && Lookup(given, FORECAST_DISAGREEMENT) == Some(dis)
    requires Lookup(given, ENSEMBLE_MEAN_TEMP) == Some(mean)
    requires spread.asOf == Some(quote) && dis.asOf == mean.asOf == Some(run)
    ensures Dated(given, quote, run)
  {
  }

  lemma GivenAges(v: View, s: MarketState, location: string)
    requires Shown(v, s, location) && FeatureFrom(v, OfMarket(s.ticker)).status.Present?
    requires |ModelRows(v, location, Gfs)| > 0 && |ModelRows(v, location, Ecmwf)| > 0
    ensures Dated(FeaturesForMarket(Index(v), s.location, s.ticker), s.asOf, NewerRun(v, location))
  {
    ShownStates(v, s, location);
    BothModelsPresent(v, location);
    RollupTime(v, location);
    MarketSees(v, location, s.ticker);
    DatedByLookups(FeaturesForMarket(Index(v), Some(location), s.ticker),
                   FeatureFrom(v, OfMarket(s.ticker)), FeatureFrom(v, OfLocation(location)),
                   Aggregate(ModelMeans(v, location), location).value, s.asOf, NewerRun(v, location));
  }

  lemma ThreeAges(given: FeatureMap, cutoff: int, quote: int, run: int)
    requires Dated(given, quote, run)
    ensures (forall name :: name in given ==> given[name].asOf.Some? && given[name].asOf.value >= cutoff)
            <==> quote >= cutoff && run >= cutoff
  {
    assert KALSHI_SPREAD in given && FORECAST_DISAGREEMENT in given;
  }

  predicate RunsYoung(rows: seq<ForecastRow>, cutoff: int) {
    forall r :: r in rows ==> r.runTime >= cutoff
  }

  /** Every row that was read for the market, its quote and the forecasts of both models, is at
      most `maxAge` old at the time of the tick. */
  predicate InputsYoung(v: View, s: MarketState, location: string, maxAge: int) {
    var quote, cutoff := LatestSnapshot(v.d, s.ticker, v.asOf), v.asOf - maxAge;
    && quote.Some? && quote.value.asOf >= cutoff
    && RunsYoung(ModelRows(v, location, Gfs), cutoff) && RunsYoung(ModelRows(v, location, Ecmwf), cutoff)
  }

  /** An open gate means that of the rows as well exactly when the older run is young too. */
  lemma OpenGateHasYoungInputsIff(v: View, s: MarketState, location: string, maxAge: int)
    requires Shown(v, s, location) && maxAge >= 0 && GateOpen(v, s, maxAge)
    ensures InputsYoung(v, s, location, maxAge) <==> s.asOf >= v.asOf - maxAge && OlderRun(v, location) >= v.asOf - maxAge
  {
    ShownStates(v, s, location);
    FreshnessIff(v, s, location, maxAge);
    OpenGateIsYoungIff(v, s, location, maxAge);
    RowsAreOfRun(v, location, Gfs, v.asOf - maxAge);
    RowsAreOfRun(v, location, Ecmwf, v.asOf - maxAge);
  }

  lemma RowsAreOfRun(v: View, location: string, source: ForecastSource, cutoff: int)
    requires |ModelRows(v, location, source)| > 0
    ensures RunsYoung(ModelRows(v, location, source), cutoff) <==> RunTime(v, location, source) >= cutoff
  {
    EnsembleMeaning(v, location, source, 0.0, 0.0);
    assert ModelRows(v, location, source)[0] in ModelRows(v, location, source);
  }

  lemma UsableRollup(v: View, location: string, cutoff: int)
    requires Sizing.Usable(FeatureFrom(v, OfLocation(location)), cutoff)
    ensures var r := Aggregate(ModelMeans(v, location), location); r.Some? && Sizing.Usable(r.value, cutoff)
  {
    DisagreementMeaning(v, location);
    RollupOfBoth(FeatureFrom(v, OfModel(location, Gfs)), FeatureFrom(v, OfModel(location, Ecmwf)), location);
  }

  lemma GateOfThree(given: FeatureMap, location: string, m: MarketState, maxAge: int)
    requires given.Keys <= {KALSHI_SPREAD, FORECAST_DISAGREEMENT, ENSEMBLE_MEAN_TEMP}
    requires KALSHI_SPREAD in given && FORECAST_DISAGREEMENT in given
    requires given[KALSHI_SPREAD].subject == m.ticker && given[FORECAST_DISAGREEMENT].subject == location
    requires LocationForSeries(m.series) == Some(location)
    ensures var cutoff := m.asOf - maxAge;
            && (Sizing.FreshInputs(maxAge, given, m) ==>
                  Sizing.Usable(given[KALSHI_SPREAD], cutoff) && Sizing.Usable(given[FORECAST_DISAGREEMENT], cutoff))
            && (Sizing.Usable(given[KALSHI_SPREAD], cutoff) && Sizing.Usable(given[FORECAST_DISAGREEMENT], cutoff)
                && ENSEMBLE_MEAN_TEMP in given && Sizing.Usable(given[ENSEMBLE_MEAN_TEMP], cutoff) ==>
                  Sizing.FreshInputs(maxAge, given, m))
  {
    assert Sizing.InScope(m, m.ticker) && Sizing.InScope(m, location);
  }

  // ---------------------------------------------------------------- nothing is later than asked

  predicate Past(f: FeatureValue, asOf: int) {
    f.status.Present? ==> f.asOf.Some? && f.asOf.value <= asOf
  }

  lemma ComputedArePast(v: View, x: FeatureValue)
    requires x in Computed(v)
    ensures Past(x, v.asOf)
  {
    var o := MembersHaveOrigins(v, x);
    match o
    case OfModel(location, source) => EnsembleMeaning(v, location, source, 0.0, 0.0);
    case OfLocation(location) => DisagreementMeaning(v, location);
    case OfMarket(ticker) => SpreadMeaning(v, ticker);
  }

  lemma AggregateIsPast(parts: seq<FeatureValue>, location: string, asOf: int)
    requires forall x :: x in parts ==> Past(x, asOf)
    requires Aggregate(parts, location).Some?
    ensures Past(Aggregate(parts, location).value, asOf)
  {
    var usable := Filter(parts, Numeric());
    LatestIsMaximum(usable, TimeOf());
    var newest :| newest in usable && TimeOf()(newest) == Latest(usable, TimeOf()).value;
    FilterMember(parts, Numeric(), newest);
  }

  lemma ScopedIsPast(v: View, location: Option<string>, ticker: string, name: string)
    requires ScopedFeature(Index(v), location, ticker, name).Some?
    ensures Past(ScopedFeature(Index(v), location, ticker, name).value, v.asOf)
  {
    var direct := Filter(Index(v), DirectNamed(location, ticker, name));
    IndexMembers(Computed(v));
    if |direct| > 0 {
      FilterMember(Index(v), DirectNamed(location, ticker, name), direct[0]);
      ComputedArePast(v, direct[0]);
    } else {
      var parts := Filter(Index(v), PartNamed(location, name));
      forall x | x in parts ensures Past(x, v.asOf) {
        FilterMember(Index(v), PartNamed(location, name), x);
        ComputedArePast(v, x);
      }
      AggregateIsPast(parts, location.value, v.asOf);
    }
  }

  /** No feature given to a strategy and no market state is dated after the time asked for. */
  lemma NothingIsLater(v: View, location: Option<string>, ticker: string)
    ensures var given := FeaturesForMarket(Index(v), location, ticker);
            forall name :: name in given ==> Past(given[name], v.asOf)
    ensures forall s :: s in MarketStates(v.d, v.asOf) ==> s.asOf <= v.asOf
  {
    var given := FeaturesForMarket(Index(v), location, ticker);
    forall name | name in given ensures Past(given[name], v.asOf) {
      ScopedIsPast(v, location, ticker, name);
    }
    forall s | s in MarketStates(v.d, v.asOf) ensures s.asOf <= v.asOf {
      CollectMember(ListOpenMarkets(v.d, v.asOf), MarketStateAt(v.d, v.asOf), s);
      var m :| m in ListOpenMarkets(v.d, v.asOf) && MarketStateAt(v.d, v.asOf)(m) == Some(s);
      QuoteIsNewest(v, m.ticker);
    }
  }
}
