/** The shared database: reference rows, forecasts, quotes and contract resolutions,
    how an ingestion run extends it, and the as-of queries that read it
    (core/db/shared_models.py, core/sources/persistence.py, core/sources/kalshi/resolution.py,
    core/features/queries.py). Times are integers; the market table is kept in ticker order. */
module Shared {
  import opened Lists
  import opened Domain

  datatype ForecastSource = Gfs | Ecmwf

  datatype ForecastRow = ForecastRow(
    source: ForecastSource, runTime: int, location: string, windowStart: int, variable: string, value: real)

  datatype SnapshotRow = SnapshotRow(ticker: string, asOf: int, bid: Option<real>, ask: Option<real>, mid: Option<real>)

  datatype Market = Market(ticker: string, series: string, status: string, closeTime: Option<int>)

  datatype SharedData = SharedData(
    locations: seq<string>,
    markets: seq<Market>,
    forecasts: seq<ForecastRow>,
    snapshots: seq<SnapshotRow>,
    resolutions: map<string, Resolution>)

  const EMPTY_SHARED := SharedData([], [], [], [], map[])

  // ---------------------------------------------------------------- decoding a settlement

  /** The parts of a market payload that the decoder looks at; a field that is absent or
      not a string is None, and so is a payload without a market object. */
  datatype Payload = Payload(status: Option<string>, result: Option<string>)

  function ParseMarketResult(payload: Option<Payload>): Option<Resolution> {
    if payload.None? then None
    else if payload.value.status != Some("settled") && payload.value.status != Some("finalized") then None
    else if payload.value.result == Some("yes") then Some(Resolution(SettledYes, 1.0))
    else if payload.value.result == Some("no") then Some(Resolution(SettledNo, 0.0))
    else if payload.value.result == Some("") then Some(Resolution(Void, 0.0))
    else None
  }

  /** A payload of a settled market that answers with this word. */
  predicate Answers(payload: Option<Payload>, word: string) {
    && payload.Some? && (payload.value.status == Some("settled") || payload.value.status == Some("finalized"))
    && payload.value.result == Some(word)
  }

  predicate Decodable(payload: Option<Payload>) {
    Answers(payload, "yes") || Answers(payload, "no") || Answers(payload, "")
  }

  /** Three words are understood, each in its own way, and nothing else is guessed. */
  lemma DecodingIff(payload: Option<Payload>)
    ensures ParseMarketResult(payload) == Some(Resolution(SettledYes, 1.0)) <==> Answers(payload, "yes")
    ensures ParseMarketResult(payload) == Some(Resolution(SettledNo, 0.0)) <==> Answers(payload, "no")
    ensures ParseMarketResult(payload) == Some(Resolution(Void, 0.0)) <==> Answers(payload, "")
    ensures ParseMarketResult(payload).Some? <==> Decodable(payload)
  {
    assert |"yes"| != |"no"| && |"yes"| != |""| && |"no"| != |""|;
  }

  // ---------------------------------------------------------------- reference locations

  /** The locations every start of the service inserts when they are missing. */
  const SEED_LOCATIONS := ["houston", "nyc", "chicago", "austin", "miami", "la"]

  /** The place of a new location in id order, the order in which they are listed. */
  function InsertSorted(locations: seq<string>, id: string): seq<string> {
    if |locations| == 0 then [id]
    else if Precedes(id, locations[0]) then [id] + locations
    else [locations[0]] + InsertSorted(locations[1..], id)
  }

  function InsertLocation(locations: seq<string>, id: string): seq<string> {
    if id in locations then locations else InsertSorted(locations, id)
  }

  function InsertLocations(locations: seq<string>, ids: seq<string>): seq<string> {
    if |ids| == 0 then locations else InsertLocation(InsertLocations(locations, ids[..|ids| - 1]), ids[|ids| - 1])
  }

  /** seed_locations_if_needed. */
  function SeedLocations(d: SharedData): SharedData {
    d.(locations := InsertLocations(d.locations, SEED_LOCATIONS))
  }

  lemma {:induction false} InsertSortedMembers(locations: seq<string>, id: string)
    ensures forall x :: x in InsertSorted(locations, id) <==> x in locations || x == id
    decreases |locations|
  {
    if |locations| == 0 {
    } else {
      assert locations == [locations[0]] + locations[1..];
      if !Precedes(id, locations[0]) { InsertSortedMembers(locations[1..], id); }
    }
  }

  /** Seeding adds exactly the missing ones. */
  lemma {:induction false} InsertLocationsMembers(locations: seq<string>, ids: seq<string>)
    ensures forall x :: x in InsertLocations(locations, ids) <==> x in locations || x in ids
    decreases |ids|
  {
    if |ids| == 0 {
    } else {
      var front, last := ids[..|ids| - 1], ids[|ids| - 1];
      InsertLocationsMembers(locations, front);
      InsertSortedMembers(InsertLocations(locations, front), last);
      assert ids == front + [last];
    }
  }

  predicate InIdOrder(locations: seq<string>) {
    forall i, j :: 0 <= i < j < |locations| ==> Precedes(locations[i], locations[j])
  }

  lemma {:induction false} InsertSortedKeepsOrder(locations: seq<string>, id: string)
    ensures InIdOrder(locations) && id !in locations ==> InIdOrder(InsertSorted(locations, id))
    decreases |locations|
  {
    if |locations| == 0 {
    } else if InIdOrder(locations) && id !in locations {
      var head, rest := locations[0], locations[1..];
      PrecedesIsTotal(id, head);
      if Precedes(id, head) {
        forall x | x in rest ensures Precedes(id, x) { PrecedesIsTransitive(id, head, x); }
      } else {
        InsertSortedKeepsOrder(rest, id);
        InsertSortedMembers(rest, id);
        forall x | x in InsertSorted(rest, id) ensures Precedes(head, x) {
          if x in rest {
            var j :| 0 <= j < |rest| && rest[j] == x;
            assert locations[j + 1] == x;
          }
        }
      }
    }
  }

  /** Seeding keeps the locations in id order. */
  lemma {:induction false} InsertLocationsKeepOrder(locations: seq<string>, ids: seq<string>)
    ensures InIdOrder(locations) ==> InIdOrder(InsertLocations(locations, ids))
    decreases |ids|
  {
    if |ids| == 0 {
    } else {
      InsertLocationsKeepOrder(locations, ids[..|ids| - 1]);
      InsertSortedKeepsOrder(InsertLocations(locations, ids[..|ids| - 1]), ids[|ids| - 1]);
    }
  }

  // ---------------------------------------------------------------- ingestion

  datatype FetchResult = FetchResult(
    marketUpserts: seq<Market>,
    resolutions: seq<(string, Resolution)>,
    snapshots: seq<SnapshotRow>,
    forecasts: seq<ForecastRow>)

  predicate Precedes(a: string, b: string) {
    |b| > 0 && (|a| == 0 || a[0] < b[0] || (a[0] == b[0] && Precedes(a[1..], b[1..])))
  }

  /** Overwrite the row with this ticker, or insert it in ticker order. */
  function Upsert(markets: seq<Market>, u: Market): seq<Market> {
    if |markets| == 0 then [u]
    else if markets[0].ticker == u.ticker then [u] + markets[1..]
    else if Precedes(u.ticker, markets[0].ticker) then [u] + markets
    else [markets[0]] + Upsert(markets[1..], u)
  }

  function UpsertAll(markets: seq<Market>, upserts: seq<Market>): seq<Market> {
    if |upserts| == 0 then markets
    else Upsert(UpsertAll(markets, upserts[..|upserts| - 1]), upserts[|upserts| - 1])
  }

  /** The first resolution of a ticker is the one that stays. */
  function KeepFirst(stored: map<string, Resolution>, drafts: seq<(string, Resolution)>): map<string, Resolution> {
    if |drafts| == 0 then stored
    else
      var before := KeepFirst(stored, drafts[..|drafts| - 1]);
      var (ticker, res) := drafts[|drafts| - 1];
      if ticker in before then before else before[ticker := res]
  }

  function Persist(d: SharedData, r: FetchResult): SharedData {
    SharedData(d.locations, UpsertAll(d.markets, r.marketUpserts), d.forecasts + r.forecasts,
               d.snapshots + r.snapshots, KeepFirst(d.resolutions, r.resolutions))
  }

  /** Rows are immutable once written, and every ticker of the batch has one afterwards. */
  lemma {:induction false} ResolutionsAreWriteOnce(stored: map<string, Resolution>, drafts: seq<(string, Resolution)>)
    ensures var after := KeepFirst(stored, drafts);
            && (forall t :: t in stored ==> t in after && after[t] == stored[t])
            && (forall t :: t in after ==> t in stored || (t, after[t]) in drafts)
            && (forall i :: 0 <= i < |drafts| ==> drafts[i].0 in after)
    decreases |drafts|
  {
    if |drafts| == 0 {
    } else {
      var front := drafts[..|drafts| - 1];
      ResolutionsAreWriteOnce(stored, front);
      assert drafts == front + [drafts[|drafts| - 1]];
      forall i | 0 <= i < |drafts| ensures drafts[i].0 in KeepFirst(stored, drafts) {
        if i < |front| { assert front[i].0 in KeepFirst(stored, front); }
      }
    }
  }

  // ---------------------------------------------------------------- the table stays in ticker order

  predicate InTickerOrder(markets: seq<Market>) {
    forall i, j :: 0 <= i < j < |markets| ==> Precedes(markets[i].ticker, markets[j].ticker)
  }

  lemma {:induction false} PrecedesIsTotal(a: string, b: string)
    ensures !(Precedes(a, b) && Precedes(b, a))
    ensures Precedes(a, b) || Precedes(b, a) || a == b
    decreases |a|
  {
    if |a| == 0 || |b| == 0 {
    } else if a[0] == b[0] {
      PrecedesIsTotal(a[1..], b[1..]);
      assert a == [a[0]] + a[1..] && b == [b[0]] + b[1..];
    }
  }

  /** Two strings agree below `k`, where the first ends or has the smaller character. */
  predicate FirstDifference(a: string, b: string, k: nat) {
    && k <= |a| && k < |b| && (forall i :: 0 <= i < k ==> a[i] == b[i])
    && (k == |a| || a[k] < b[k])
  }

  /** The order of names is the lexicographic one. */
  lemma {:induction false} PrecedesIff(a: string, b: string)
    ensures Precedes(a, b) <==> exists k: nat :: FirstDifference(a, b, k)
    decreases |a|
  {
    if |a| == 0 || |b| == 0 || a[0] != b[0] {
      assert Precedes(a, b) ==> FirstDifference(a, b, 0);
    } else {
      PrecedesIff(a[1..], b[1..]);
      if Precedes(a, b) {
        var k: nat :| FirstDifference(a[1..], b[1..], k);
        assert forall i :: 0 < i < k + 1 ==> a[i] == a[1..][i - 1] == b[1..][i - 1] == b[i];
        assert FirstDifference(a, b, k + 1);
      }
      if k: nat :| FirstDifference(a, b, k) { assert FirstDifference(a[1..], b[1..], k - 1); }
    }
  }

  lemma {:induction false} PrecedesIsTransitive(a: string, b: string, c: string)
    ensures Precedes(a, b) && Precedes(b, c) ==> Precedes(a, c)
    decreases |a|
  {
    if |a| == 0 || |b| == 0 || |c| == 0 {
    } else if a[0] == b[0] == c[0] {
      PrecedesIsTransitive(a[1..], b[1..], c[1..]);
    }
  }

  /** Upserting keeps the order, and a ticker already there keeps its place. */
  lemma {:induction false} UpsertKeepsOrder(markets: seq<Market>, u: Market)
    requires InTickerOrder(markets)
    ensures InTickerOrder(Upsert(markets, u))
    ensures forall m :: m in Upsert(markets, u) ==> m == u || m in markets
    decreases |markets|
  {
    if |markets| == 0 {
    } else {
      var head, rest := markets[0], markets[1..];
      PrecedesIsTotal(u.ticker, head.ticker);
      if Precedes(u.ticker, head.ticker) {
        forall m | m in rest ensures Precedes(u.ticker, m.ticker) {
          PrecedesIsTransitive(u.ticker, head.ticker, m.ticker);
        }
      } else if head.ticker != u.ticker {
        UpsertKeepsOrder(rest, u);
        var after := Upsert(rest, u);
        forall m | m in after ensures Precedes(head.ticker, m.ticker) {
          if m in rest {
            var j :| 0 <= j < |rest| && rest[j] == m;
            assert markets[j + 1] == m;
          }
        }
        assert Upsert(markets, u) == [head] + after;
      }
    }
  }

  lemma {:induction false} UpsertReplaces(markets: seq<Market>, u: Market, k: nat)
    requires InTickerOrder(markets) && k < |markets| && markets[k].ticker == u.ticker
    ensures Upsert(markets, u) == markets[..k] + [u] + markets[k + 1..]
    decreases k
  {
    if k > 0 {
      PrecedesIsTotal(markets[0].ticker, u.ticker);
      PrecedesIsTotal(u.ticker, u.ticker);
      UpsertReplaces(markets[1..], u, k - 1);
      assert markets[1..][..k - 1] == markets[1..k] && markets[1..][k..] == markets[k + 1..];
    }
  }

  lemma {:induction false} UpsertInserts(markets: seq<Market>, u: Market) returns (k: nat)
    requires forall m :: m in markets ==> m.ticker != u.ticker
    ensures k <= |markets| && Upsert(markets, u) == markets[..k] + [u] + markets[k..]
    decreases |markets|
  {
    if |markets| == 0 || Precedes(u.ticker, markets[0].ticker) {
      k := 0;
    } else {
      var k' := UpsertInserts(markets[1..], u);
      k := k' + 1;
      assert markets[1..][..k'] == markets[1..k] && markets[1..][k'..] == markets[k..];
    }
  }

  /** So ingestion keeps the market table in ticker order. */
  lemma {:induction false} IngestionKeepsOrder(markets: seq<Market>, upserts: seq<Market>)
    requires InTickerOrder(markets)
    ensures InTickerOrder(UpsertAll(markets, upserts))
    decreases |upserts|
  {
    if |upserts| == 0 {
    } else {
      IngestionKeepsOrder(markets, upserts[..|upserts| - 1]);
      UpsertKeepsOrder(UpsertAll(markets, upserts[..|upserts| - 1]), upserts[|upserts| - 1]);
    }
  }

  class SharedDb {
    var locations: seq<string>
    var markets: seq<Market>
    var forecasts: seq<ForecastRow>
    var snapshots: seq<SnapshotRow>
    var resolutions: map<string, Resolution>

    function Value(): SharedData
      reads this
    {
      SharedData(locations, markets, forecasts, snapshots, resolutions)
    }

    /** Insert the missing reference locations; existing rows are never updated. */
    method SeedLocationsIfNeeded()
      modifies this
      ensures Value() == SeedLocations(old(Value()))
    {
      for i := 0 to |SEED_LOCATIONS|
        invariant Value() == old(Value()).(locations := InsertLocations(old(locations), SEED_LOCATIONS[..i]))
      {
        assert SEED_LOCATIONS[..i + 1][..i] == SEED_LOCATIONS[..i];
        var id := SEED_LOCATIONS[i];
        if id !in locations { locations := InsertSorted(locations, id); }
      }
      assert SEED_LOCATIONS[..|SEED_LOCATIONS|] == SEED_LOCATIONS;
    }

    method PersistFetchResult(result: FetchResult)
      modifies this
      ensures Value() == Persist(old(Value()), result)
    {
      for i := 0 to |result.marketUpserts|
        invariant Value() == old(Value()).(markets := UpsertAll(old(markets), result.marketUpserts[..i]))
      {
        assert result.marketUpserts[..i + 1][..i] == result.marketUpserts[..i];
        markets := Upsert(markets, result.marketUpserts[i]);
      }
      assert result.marketUpserts[..|result.marketUpserts|] == result.marketUpserts;
      for i := 0 to |result.resolutions|
        invariant Value() == old(Value()).(markets := UpsertAll(old(markets), result.marketUpserts),
                                           resolutions := KeepFirst(old(resolutions), result.resolutions[..i]))
      {
        assert result.resolutions[..i + 1][..i] == result.resolutions[..i];
        var (ticker, res) := result.resolutions[i];
        if ticker !in resolutions { resolutions := resolutions[ticker := res]; }
      }
      assert result.resolutions[..|result.resolutions|] == result.resolutions;
      for i := 0 to |result.snapshots|
        invariant Value() == Persist(old(Value()), result).(
                               forecasts := old(forecasts), snapshots := old(snapshots) + result.snapshots[..i])
      {
        snapshots := snapshots + [result.snapshots[i]];
      }
      assert result.snapshots[..|result.snapshots|] == result.snapshots;
      for i := 0 to |result.forecasts|
        invariant Value() == Persist(old(Value()), result).(forecasts := old(forecasts) + result.forecasts[..i])
      {
        forecasts := forecasts + [result.forecasts[i]];
      }
      assert result.forecasts[..|result.forecasts|] == result.forecasts;
    }
  }

  // ---------------------------------------------------------------- as-of queries

  function Tradable(asOf: int): Market -> bool {
    (m: Market) => m.status in ["open", "active"] && (m.closeTime.None? || m.closeTime.value > asOf)
  }

  function ListOpenMarkets(d: SharedData, asOf: int): seq<Market> { Filter(d.markets, Tradable(asOf)) }

  /** `max(key)` over rows, None when there is no row. */
  function Latest<T>(rows: seq<T>, key: T -> int): Option<int> {
    if |rows| == 0 then None
    else
      var before := Latest(rows[..|rows| - 1], key);
      var k := key(rows[|rows| - 1]);
      if before.Some? && before.value >= k then before else Some(k)
  }

  /** What a forecast query asks for. */
  datatype RunKey = RunKey(location: string, source: ForecastSource, variable: string)

  predicate OfKey(r: ForecastRow, k: RunKey) {
    r.location == k.location && r.source == k.source && r.variable == k.variable
  }

  function RunUpTo(k: RunKey, asOf: int): ForecastRow -> bool {
    (r: ForecastRow) => OfKey(r, k) && r.runTime <= asOf
  }

  function RunAt(k: RunKey, runTime: int): ForecastRow -> bool {
    (r: ForecastRow) => OfKey(r, k) && r.runTime == runTime
  }

  function RunTimeOf(): ForecastRow -> int { (r: ForecastRow) => r.runTime }

  function WindowOf(): ForecastRow -> int { (r: ForecastRow) => r.windowStart }

  function ValueOf(): ForecastRow -> real { (r: ForecastRow) => r.value }

  function WindowStarted(asOf: int): ForecastRow -> bool { (r: ForecastRow) => r.windowStart <= asOf }

  function InWindow(start: int): ForecastRow -> bool { (r: ForecastRow) => r.windowStart == start }

  function TargetWindow(rows: seq<ForecastRow>, asOf: int, target: Option<int>): Option<int> {
    if |rows| == 0 then None
    else if target.Some? then (if exists r :: r in rows && r.windowStart == target.value then target else None)
    else Latest(Filter(rows, WindowStarted(asOf)), WindowOf())
  }

  function LatestForecastRows(d: SharedData, k: RunKey, asOf: int, target: Option<int>): seq<ForecastRow> {
    var run := Latest(Filter(d.forecasts, RunUpTo(k, asOf)), RunTimeOf());
    if run.None? then []
    else
      var rows := Filter(d.forecasts, RunAt(k, run.value));
      var window := TargetWindow(rows, asOf, target);
      if window.None? then [] else Filter(rows, InWindow(window.value))
  }

  function EnsembleMean(rows: seq<ForecastRow>): Option<real> {
    if |rows| == 0 then None else Some(SumReal(rows, ValueOf()) / |rows| as real)
  }

  function SnapshotUpTo(ticker: string, asOf: int): SnapshotRow -> bool {
    (s: SnapshotRow) => s.ticker == ticker && s.asOf <= asOf
  }

  function SnapshotAt(ticker: string, asOf: int): SnapshotRow -> bool {
    (s: SnapshotRow) => s.ticker == ticker && s.asOf == asOf
  }

  function SnapshotTime(): SnapshotRow -> int { (s: SnapshotRow) => s.asOf }

  /** Of several rows at the latest time, the one the database returns last. */
  function LatestSnapshot(d: SharedData, ticker: string, asOf: int): Option<SnapshotRow> {
    var time := Latest(Filter(d.snapshots, SnapshotUpTo(ticker, asOf)), SnapshotTime());
    if time.None? then None
    else
      var rows := Filter(d.snapshots, SnapshotAt(ticker, time.value));
      if |rows| == 0 then None else Some(rows[|rows| - 1])
  }

  // ---------------------------------------------------------------- the queries meet their purpose

  lemma {:induction false} LatestIsMaximum<T>(rows: seq<T>, key: T -> int)
    ensures Latest(rows, key).None? <==> |rows| == 0
    ensures Latest(rows, key).Some? ==>
              && (forall r :: r in rows ==> key(r) <= Latest(rows, key).value)
              && (exists r :: r in rows && key(r) == Latest(rows, key).value)
    decreases |rows|
  {
    if |rows| == 0 {
    } else {
      var front, last := rows[..|rows| - 1], rows[|rows| - 1];
      LatestIsMaximum(front, key);
      assert rows == front + [last];
      assert last in rows;
      var m := Latest(rows, key);
      if Latest(front, key).Some? && Latest(front, key).value >= key(last) {
        var r :| r in front && key(r) == Latest(front, key).value;
        assert r in rows && key(r) == m.value;
      } else {
        assert key(last) == m.value;
      }
    }
  }

  lemma LatestOfOne<T>(x: T, key: T -> int)
    ensures Latest([x], key) == Some(key(x))
  {
    assert [x][..0] == [];
  }

  lemma LatestPermutation<T>(xs: seq<T>, ys: seq<T>, key: T -> int)
    requires multiset(xs) == multiset(ys)
    ensures Latest(xs, key) == Latest(ys, key)
  {
    LatestIsMaximum(xs, key);
    LatestIsMaximum(ys, key);
    assert |multiset(xs)| == |xs| && |multiset(ys)| == |ys|;
    if |xs| > 0 {
      var x :| x in xs && key(x) == Latest(xs, key).value;
      var y :| y in ys && key(y) == Latest(ys, key).value;
      assert x in multiset(ys) && y in multiset(xs);
      assert x in ys && y in xs;
    }
  }
}
