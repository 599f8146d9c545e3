/** What the registered strategies emit (core/strategies/), and so what every engine-driven run
    records and evaluates. */
module Signals {
  import opened Lists
  import opened Domain
  import opened LedgerSpec
  import opened WeatherUtils
  import opened Sizing
  import opened Shared
  import opened Tick
  import opened ResolutionTick
  import opened Runs
  import RunTheorems
  import Lifecycle
  import Strategies
  import Features
  import FeatureTheorems
  import Eval
  import Calibration

  // ---------------------------------------------------------------- one draft

  /** A draft is about the market it was asked about, its probability is clamped, and a tuned
      strategy never drafts below its own confidence floor. */
  lemma DraftsAreFormed(name: string, market: MarketState, features: FeatureMap, config: StrategyConfig)
    requires Strategies.Evaluate(name, market, features, config).Some?
    ensures var d := Strategies.Evaluate(name, market, features, config).value;
            && d.ticker == market.ticker && 0.05 <= d.probYes <= 0.95 && d.confidence <= 1.0
            && (Lifecycle.Tuned(config) ==> 0.55 <= d.confidence)
  {
  }

  /** The side is taken by comparing temperatures and the probability is clamped, so the two
      agree for every forecast exactly when the mid price is above 0.05 and at most 0.95. */
  lemma SideMatchesProbabilityIff(mid: real)
    ensures (forall mean :: Strategies.SideFor(mean, mid).Yes? <==> EnsembleToProb(mean) >= mid)
            <==> 0.05 < mid <= 0.95
  {
    var at, below := ProbToTemp(mid), ProbToTemp(mid) - 1.0;
    assert Strategies.SideFor(at, mid).Yes? && Strategies.SideFor(below, mid).No?;
    if mid <= 0.05 {
      assert EnsembleToProb(below) == 0.05;
    } else if mid > 0.95 {
      assert EnsembleToProb(at) == 0.95;
    }
  }

  /** A mismatch never becomes an order: on a market whose mid price lies within its quotes,
      whatever sizing accepts buys YES only above the mid price and NO only below it. */
  lemma OrdersAgreeWithProbability(x: SizingInput)
    requires x.market.bid.Some? && x.market.ask.Some? && x.market.mid.Some?
    requires x.market.bid.value <= x.market.mid.value <= x.market.ask.value
    requires SizeOrder(x).Ok?
    ensures var o := SizeOrder(x).value;
            && o.side == x.signal.side
            && (o.side.Yes? <==> x.signal.probYes > x.market.mid.value)
            && (o.side.No? <==> x.signal.probYes < x.market.mid.value)
  {
  }

  // ---------------------------------------------------------------- every recorded signal

  /** What an engine tick may record: a clamped probability, a confidence over the floor, and
      neither of the two outcomes that sizing can only give when asked from elsewhere. */
  predicate Formed(s: Signal) {
    && 0.05 <= s.probYes <= 0.95 && 0.55 <= s.confidence <= 1.0
    && !s.outcome.RejectedSystemPaused? && !s.outcome.RejectedBelowThreshold?
  }

  ghost predicate AllFormed(signals: seq<Signal>) {
    forall i :: 0 <= i < |signals| ==> Formed(signals[i])
  }

  ghost predicate AllTuned(rows: map<string, Strategy>) {
    forall name :: name in rows ==> Lifecycle.Tuned(rows[name].config)
  }

  /** The ledger during a tick that reads `c`. */
  ghost predicate TickFormed(st: TickState, c: Context) {
    && AllFormed(st.ledger.signals) && AllTuned(st.ledger.strategies)
    && c.evaluate == Strategies.Evaluate && c.system == st.ledger.system.state
  }

  lemma SizingOutcomes(x: SizingInput)
    requires SizeOrder(x).Err? && x.system.SystemActive?
    requires x.signal.confidence >= OrDefault(x.strategy.config.confidenceFloor, DEFAULT_CONFIDENCE_FLOOR)
    ensures !SizeOrder(x).error.RejectedSystemPaused? && !SizeOrder(x).error.RejectedBelowThreshold?
  {
  }

  lemma ActRecords(st: TickState, name: string, draft: SignalDraft, sizing: Result<Order, SignalOutcome>, now: int)
    requires Act(st, name, draft, sizing, now).Ok?
    ensures var l, l' := st.ledger, Act(st, name, draft, sizing, now).value.ledger;
            && l.system.state.SystemActive?
            && l'.signals == l.signals + [SignalRow(name, draft, if sizing.Err? then sizing.error else OrderPlaced)]
            && l'.strategies == l.strategies && l'.system == l.system
  {
  }

  // ---------------------------------------------------------------- a tick records what was drafted

  /** What a recorded signal says: who, about which market, how probable and how sure. */
  function Saying(): Signal -> (string, string, real, real) {
    (s: Signal) => (s.strategy, s.ticker, s.probYes, s.confidence)
  }

  function DraftOn(name: string, c: Context, config: StrategyConfig): MarketState -> Option<(string, string, real, real)> {
    (m: MarketState) =>
      var draft := c.evaluate(name, m, Features.FeaturesForMarket(c.index, m.location, m.ticker), config);
      if draft.None? then None else Some((name, draft.value.ticker, draft.value.probYes, draft.value.confidence))
  }

  /** Everything a strategy has to say in a tick: nothing unless it is enabled, active and has a
      Kelly fraction, otherwise its drafts, market by market. */
  function ToSay(rows: map<string, Strategy>, c: Context, markets: seq<MarketState>): string -> seq<(string, string, real, real)> {
    (name: string) =>
      if name in rows && rows[name].enabled && rows[name].state.Active? && rows[name].kellyFraction > 0.0
      then Collect(markets, DraftOn(name, c, rows[name].config)) else []
  }

  /** From `l` to `l'` exactly this was said, and no strategy row was written. */
  predicate Said(l: Ledger, l': Ledger, words: seq<(string, string, real, real)>) {
    l'.strategies == l.strategies && MapSeq(l'.signals, Saying()) == MapSeq(l.signals, Saying()) + words
  }

  lemma NothingSaid(l: Ledger)
    ensures Said(l, l, [])
  {
    assert MapSeq(l.signals, Saying()) + [] == MapSeq(l.signals, Saying());
  }

  lemma SaidThen(a: Ledger, b: Ledger, c: Ledger, first: seq<(string, string, real, real)>, second: seq<(string, string, real, real)>)
    requires Said(a, b, first) && Said(b, c, second)
    ensures Said(a, c, first + second)
  {
    var before := MapSeq(a.signals, Saying());
    assert (before + first) + second == before + (first + second);
  }

  lemma MarketTells(st: TickState, name: string, c: Context, market: MarketState)
    requires name in st.ledger.strategies && ConsiderMarket(st, name, c, market).Ok?
    ensures var said := DraftOn(name, c, st.ledger.strategies[name].config)(market);
            Said(st.ledger, ConsiderMarket(st, name, c, market).value.ledger, if said.None? then [] else [said.value])
  {
    var draft := DraftFor(st, name, c, market);
    if draft.Some? {
      var features := Features.FeaturesForMarket(c.index, market.location, market.ticker);
      var sizing := SizeOrder(InputFor(st.ledger, name, c, market, features, draft.value));
      ActRecords(st, name, draft.value, sizing, c.now);
      MapAppend(st.ledger.signals, SignalRow(name, draft.value, if sizing.Err? then sizing.error else OrderPlaced), Saying());
    } else {
      NothingSaid(st.ledger);
    }
  }

  lemma {:induction false} MarketsTell(st: TickState, name: string, c: Context, markets: seq<MarketState>)
    requires name in st.ledger.strategies && ConsiderMarkets(st, name, c, markets).Ok?
    ensures Said(st.ledger, ConsiderMarkets(st, name, c, markets).value.ledger,
                 Collect(markets, DraftOn(name, c, st.ledger.strategies[name].config)))
    decreases |markets|
  {
    if |markets| == 0 {
      NothingSaid(st.ledger);
    } else {
      var front, market := markets[..|markets| - 1], markets[|markets| - 1];
      MarketsTell(st, name, c, front);
      var m := ConsiderMarkets(st, name, c, front).value;
      MarketTells(m, name, c, market);
      var f := DraftOn(name, c, st.ledger.strategies[name].config);
      SaidThen(st.ledger, m.ledger, ConsiderMarkets(st, name, c, markets).value.ledger,
               Collect(front, f), if f(market).None? then [] else [f(market).value]);
    }
  }

  lemma StrategyTells(st: TickState, name: string, c: Context, markets: seq<MarketState>)
    requires RunStrategy(st, name, c, markets).Ok?
    ensures Said(st.ledger, RunStrategy(st, name, c, markets).value.ledger, ToSay(st.ledger.strategies, c, markets)(name))
  {
    if name in st.ledger.strategies && CanEmitSignals(st.ledger.strategies[name]) {
      MarketsTell(st, name, c, markets);
    } else {
      NothingSaid(st.ledger);
    }
  }

  lemma {:induction false} StrategiesTell(st: TickState, names: seq<string>, c: Context, markets: seq<MarketState>)
    requires RunStrategies(st, names, c, markets).Ok?
    ensures Said(st.ledger, RunStrategies(st, names, c, markets).value.ledger,
                 FlatMap(names, ToSay(st.ledger.strategies, c, markets)))
    decreases |names|
  {
    if |names| == 0 {
      NothingSaid(st.ledger);
    } else {
      var front, name := names[..|names| - 1], names[|names| - 1];
      StrategiesTell(st, front, c, markets);
      var m := RunStrategies(st, front, c, markets).value;
      StrategyTells(m, name, c, markets);
      var f := ToSay(st.ledger.strategies, c, markets);
      SaidThen(st.ledger, m.ledger, RunStrategies(st, names, c, markets).value.ledger, FlatMap(front, f), f(name));
    }
  }

  /** The nested loops of a tick that commits record exactly one signal for each draft of each
      strategy that may emit, strategy by strategy and market by market, with the draft's own
      numbers. */
  lemma TickRecordsTheDrafts(
    l: Ledger, names: seq<string>, evaluate: Evaluator, index: seq<FeatureValue>, markets: seq<MarketState>, now: int)
    requires TickWith(l, names, evaluate, index, markets, now).Ok?
    ensures var l' := TickWith(l, names, evaluate, index, markets, now).value.ledger;
            Said(l, l', FlatMap(names, ToSay(l.strategies, Fresh(l, index, evaluate, now), markets)))
  {
    StrategiesTell(TickState(l, Stats(0, 0)), names, Fresh(l, index, evaluate, now), markets);
  }

  // ---------------------------------------------------------------- and only well-formed ones

  lemma MarketKeepsFormed(st: TickState, name: string, c: Context, market: MarketState)
    requires TickFormed(st, c) && ConsiderMarket(st, name, c, market).Ok?
    ensures TickFormed(ConsiderMarket(st, name, c, market).value, c)
  {
    if name in st.ledger.strategies && DraftFor(st, name, c, market).Some? {
      var features := Features.FeaturesForMarket(c.index, market.location, market.ticker);
      var draft := DraftFor(st, name, c, market).value;
      var x := InputFor(st.ledger, name, c, market, features, draft);
      DraftsAreFormed(name, market, features, st.ledger.strategies[name].config);
      assert Lifecycle.Tuned(st.ledger.strategies[name].config);
      ActRecords(st, name, draft, SizeOrder(x), c.now);
      if SizeOrder(x).Err? { SizingOutcomes(x); }
    }
  }

  lemma {:induction false} MarketsKeepFormed(st: TickState, name: string, c: Context, markets: seq<MarketState>)
    requires TickFormed(st, c) && ConsiderMarkets(st, name, c, markets).Ok?
    ensures TickFormed(ConsiderMarkets(st, name, c, markets).value, c)
    decreases |markets|
  {
    if |markets| == 0 {
    } else {
      var front := markets[..|markets| - 1];
      MarketsKeepFormed(st, name, c, front);
      MarketKeepsFormed(ConsiderMarkets(st, name, c, front).value, name, c, markets[|markets| - 1]);
    }
  }

  lemma {:induction false} StrategiesKeepFormed(st: TickState, names: seq<string>, c: Context, markets: seq<MarketState>)
    requires TickFormed(st, c) && RunStrategies(st, names, c, markets).Ok?
    ensures TickFormed(RunStrategies(st, names, c, markets).value, c)
    decreases |names|
  {
    if |names| == 0 {
    } else {
      var front, name := names[..|names| - 1], names[|names| - 1];
      StrategiesKeepFormed(st, front, c, markets);
      var m := RunStrategies(st, front, c, markets).value;
      if name in m.ledger.strategies && CanEmitSignals(m.ledger.strategies[name]) {
        MarketsKeepFormed(m, name, c, markets);
      }
    }
  }

  lemma TickKeepsFormed(l: Ledger, d: SharedData, asOf: int, now: int)
    requires AllFormed(l.signals) && AllTuned(l.strategies) && EngineTick(l, d, asOf, now).Ok?
    ensures AllFormed(EngineTick(l, d, asOf, now).value.ledger.signals)
  {
    StrategiesKeepFormed(TickState(l, Stats(0, 0)), Strategies.REGISTERED,
                         Fresh(l, RunTheorems.IndexAt(d, asOf), Strategies.Evaluate, now), Features.MarketStates(d, asOf));
  }

  lemma OperatingIsTuned(rows: map<string, Strategy>)
    requires Lifecycle.AllOperating(rows)
    ensures AllTuned(rows)
  {
    forall name | name in rows ensures Lifecycle.Tuned(rows[name].config) {
      assert Lifecycle.Operating(rows[name]);
    }
  }

  lemma SettlingKeepsSignals(l: Ledger, order: seq<nat>, resolutions: Resolutions, now: int)
    ensures SettleDue(l, order, resolutions, now).signals == l.signals
  {
    RunTheorems.ResolveAllKeepsFills(l, order, resolutions, now);
  }

  lemma CommandKeepsFormed(w: World, c: Command)
    requires AllFormed(w.ledger.signals) && AllTuned(w.ledger.strategies) && !c.Place? && !c.Note?
    ensures AllFormed(ApplyLedger(w, c).signals)
  {
    if c.RunEngine? {
      if EngineTick(w.ledger, w.shared, c.asOf, c.now).Ok? { TickKeepsFormed(w.ledger, w.shared, c.asOf, c.now); }
    } else if c.SettleOpen? {
      SettlingKeepsSignals(w.ledger, c.order, w.shared.resolutions, c.now);
    } else {
      RunTheorems.OperatorsWriteNoRecords(w, c);
    }
  }

  /** On every engine-driven run each recorded signal has a clamped probability and a confidence
      over the floor, and none carries REJECTED_SYSTEM_PAUSED or REJECTED_BELOW_THRESHOLD. */
  lemma {:induction false} EngineSignalsAreFormed(commands: seq<Command>)
    requires RunTheorems.EngineOnly(commands)
    ensures AllFormed(Run(EMPTY_WORLD, commands).ledger.signals)
    decreases |commands|
  {
    if |commands| == 0 {
    } else {
      var front := commands[..|commands| - 1];
      EngineSignalsAreFormed(front);
      Lifecycle.EveryRunOperates(front);
      OperatingIsTuned(Run(EMPTY_WORLD, front).ledger.strategies);
      CommandKeepsFormed(Run(EMPTY_WORLD, front), commands[|commands| - 1]);
    }
  }

  // ---------------------------------------------------------------- what a strategy sees on a run

  lemma SeedLocationsArePlain(d: SharedData)
    requires forall x :: x in d.locations ==> x in SEED_LOCATIONS
    ensures FeatureTheorems.PlainLocations(d)
  {
    forall location | location in d.locations ensures FeatureTheorems.Plain(location) { assert location in SEED_LOCATIONS; }
  }

  /** In every world of every run a listed market of a seeded location is given its spread, its
      location's disagreement and the average of the model means, and nothing else. */
  lemma MarketsOfARunSee(commands: seq<Command>, asOf: int, location: string, ticker: string)
    requires var d := Run(EMPTY_WORLD, commands).shared;
             location in d.locations && FeatureTheorems.Listed(FeatureTheorems.View(d, asOf, None), ticker)
    ensures var d := Run(EMPTY_WORLD, commands).shared;
            var v := FeatureTheorems.View(d, asOf, None);
            var given := Features.FeaturesForMarket(FeatureTheorems.Index(v), Some(location), ticker);
            && Lookup(given, Features.KALSHI_SPREAD) == Some(Features.SpreadFeature(d, ticker, asOf))
            && Lookup(given, Features.FORECAST_DISAGREEMENT) == Some(Features.DisagreementFeature(d, location, asOf, None))
            && Lookup(given, Features.ENSEMBLE_MEAN_TEMP)
               == Features.Aggregate(FeatureTheorems.ModelMeans(v, location), location)
            && given.Keys <= {Features.KALSHI_SPREAD, Features.FORECAST_DISAGREEMENT, Features.ENSEMBLE_MEAN_TEMP}
  {
    var d := Run(EMPTY_WORLD, commands).shared;
    RunTheorems.EveryRunIsOrdered(commands);
    SeedLocationsArePlain(d);
    FeatureTheorems.MarketSees(FeatureTheorems.View(d, asOf, None), location, ticker);
  }

  // ---------------------------------------------------------------- what evaluation then sees

  lemma RecordsCarrySignals(l: Ledger, resolutions: Resolutions, name: string, r: Eval.TradeRecord)
    requires AllFormed(l.signals) && r in Eval.TradeRecords(l, resolutions, name)
    ensures 0.05 <= r.trade.probYes <= 0.95
  {
    var rows := Collect(l.fills, Eval.JoinRow(l, name));
    CollectMember(Eval.Dedupe(rows), Eval.RecordOf(l, resolutions), r);
    var row :| row in Eval.Dedupe(rows) && Eval.RecordOf(l, resolutions)(row) == Some(r);
    DedupeKeepsMembers(rows, row);
    CollectMember(l.fills, Eval.JoinRow(l, name), row);
    var f :| f in l.fills && Eval.JoinRow(l, name)(f) == Some(row);
    assert Formed(l.signals[f.signal.value]);
  }

  lemma {:induction false} DedupeKeepsMembers(rows: seq<(nat, real)>, row: (nat, real))
    requires row in Eval.Dedupe(rows)
    ensures row in rows
    decreases |rows|
  {
    if row != rows[|rows| - 1] { DedupeKeepsMembers(rows[..|rows| - 1], row); }
  }

  function TradeIn(): Eval.TradeRecord -> Eval.Trade { (r: Eval.TradeRecord) => r.trade }

  /** So on every engine-driven run the calibration table is well formed: its bins are non-empty,
      disjoint and ascending, and each predicted mean lies in its bin. */
  lemma EngineRunsCalibrate(commands: seq<Command>, name: string, n: int)
    requires RunTheorems.EngineOnly(commands) && n > 0
    ensures var w := Run(EMPTY_WORLD, commands);
            var trades := MapSeq(Eval.TradeRecords(w.ledger, w.shared.resolutions, name), TradeIn());
            Calibration.Ascending(Calibration.Bins(trades, n), 1.0)
  {
    var w := Run(EMPTY_WORLD, commands);
    var records := Eval.TradeRecords(w.ledger, w.shared.resolutions, name);
    EngineSignalsAreFormed(commands);
    forall r | r in records ensures 0.05 <= r.trade.probYes <= 0.95 {
      RecordsCarrySignals(w.ledger, w.shared.resolutions, name, r);
    }
    Calibration.BinsAreAscending(MapSeq(records, TradeIn()), n);
  }
}
