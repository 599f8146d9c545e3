/** The engine tick: strategies x markets, evaluate, size, record, place
    (core/engine/tick.py, core/executors/paper/executor.py). */
module Tick {
  import opened Lists
  import opened Domain
  import opened LedgerSpec
  import opened WeatherUtils
  import opened Sizing
  import opened Shared
  import Features
  import Strategies
  import LookAhead
  import LedgerStore

  datatype Stats = Stats(signals: nat, orders: nat)

  datatype TickState = TickState(ledger: Ledger, stats: Stats)

  type Evaluator = (string, MarketState, FeatureMap, StrategyConfig) -> Option<SignalDraft>

  /** What is read once at the start of a tick and stays fixed throughout it. */
  datatype Context = Context(
    system: SystemState, totalBankroll: int, index: seq<FeatureValue>, evaluate: Evaluator, now: int)

  function OwnOpen(name: string): Position -> bool {
    (p: Position) => p.strategy == name && p.status.Open?
  }

  function OpenPositionsOf(positions: seq<Position>, name: string): seq<Position> { Filter(positions, OwnOpen(name)) }

  function SignalRow(name: string, draft: SignalDraft, outcome: SignalOutcome): Signal {
    Signal(name, draft.ticker, draft.probYes, draft.confidence, outcome)
  }

  function InputFor(l: Ledger, name: string, c: Context, market: MarketState, features: FeatureMap, draft: SignalDraft)
    : SizingInput
    requires name in l.strategies
  {
    SizingInput(draft, market, l.strategies[name], c.system, OpenPositionsOf(l.positions, name), features,
                FreeCash(l, name), c.totalBankroll)
  }

  /** Record a signal and, when it was sized, place its order. */
  function Act(st: TickState, name: string, draft: SignalDraft, sizing: Result<Order, SignalOutcome>, now: int)
    : Result<TickState, LedgerError>
  {
    match sizing
    case Err(outcome) =>
      (match RecordSignal(st.ledger, SignalRow(name, draft, outcome))
       case Err(e) => Err(e)
       case Ok(recorded) => Ok(TickState(recorded, st.stats.(signals := st.stats.signals + 1))))
    case Ok(order) =>
      (match RecordSignal(st.ledger, SignalRow(name, draft, OrderPlaced))
       case Err(e) => Err(e)
       case Ok(recorded) =>
         match OpenPosition(recorded, name, order, Some(|st.ledger.signals|), 0, now)
         case Err(e) => Err(e)
         case Ok(placed) => Ok(TickState(placed, Stats(st.stats.signals + 1, st.stats.orders + 1))))
  }

  function DraftFor(st: TickState, name: string, c: Context, market: MarketState): Option<SignalDraft>
    requires name in st.ledger.strategies
  {
    c.evaluate(name, market, Features.FeaturesForMarket(c.index, market.location, market.ticker),
               st.ledger.strategies[name].config)
  }

  function ConsiderMarket(st: TickState, name: string, c: Context, market: MarketState): Result<TickState, LedgerError> {
    if name !in st.ledger.strategies then Ok(st)
    else
      var features := Features.FeaturesForMarket(c.index, market.location, market.ticker);
      match DraftFor(st, name, c, market)
      case None => Ok(st)
      case Some(draft) => Act(st, name, draft, SizeOrder(InputFor(st.ledger, name, c, market, features, draft)), c.now)
  }

  function ConsiderMarkets(st: TickState, name: string, c: Context, markets: seq<MarketState>): Result<TickState, LedgerError> {
    if |markets| == 0 then Ok(st)
    else
      match ConsiderMarkets(st, name, c, markets[..|markets| - 1])
      case Err(e) => Err(e)
      case Ok(m) => ConsiderMarket(m, name, c, markets[|markets| - 1])
  }

  function RunStrategy(st: TickState, name: string, c: Context, markets: seq<MarketState>): Result<TickState, LedgerError> {
    if name !in st.ledger.strategies || !CanEmitSignals(st.ledger.strategies[name]) then Ok(st)
    else ConsiderMarkets(st, name, c, markets)
  }

  function RunStrategies(st: TickState, names: seq<string>, c: Context, markets: seq<MarketState>): Result<TickState, LedgerError> {
    if |names| == 0 then Ok(st)
    else
      match RunStrategies(st, names[..|names| - 1], c, markets)
      case Err(e) => Err(e)
      case Ok(m) => RunStrategy(m, names[|names| - 1], c, markets)
  }

  // ---------------------------------------------------------------- total bankroll

  ghost function PickName(names: set<string>): string
    requires names != {}
    ensures PickName(names) in names
  {
    var n :| n in names; n
  }

  ghost function SumNames(names: set<string>, f: string -> int): int {
    if names == {} then 0 else f(PickName(names)) + SumNames(names - {PickName(names)}, f)
  }

  lemma {:induction false} SumNamesTake(names: set<string>, n: string, f: string -> int)
    requires n in names
    ensures SumNames(names, f) == f(n) + SumNames(names - {n}, f)
    decreases |names|
  {
    var k := PickName(names);
    if k != n {
      SumNamesTake(names - {k}, n, f);
      SumNamesTake(names - {n}, k, f);
      assert names - {k} - {n} == names - {n} - {k};
    }
  }

  function BankrollIn(strategies: map<string, Strategy>): string -> int {
    (n: string) => if n in strategies then strategies[n].bankroll else 0
  }

  /** sum(strategy_instance.bankroll_cents). */
  ghost function TotalBankroll(strategies: map<string, Strategy>): int {
    SumNames(strategies.Keys, BankrollIn(strategies))
  }

  ghost function Fresh(l: Ledger, index: seq<FeatureValue>, evaluate: Evaluator, now: int): Context {
    Context(l.system.state, TotalBankroll(l.strategies), index, evaluate, now)
  }

  /** One tick over the strategies `names`, for any evaluator. */
  ghost function TickWith(
    l: Ledger, names: seq<string>, evaluate: Evaluator, index: seq<FeatureValue>, markets: seq<MarketState>, now: int)
    : Result<TickState, LedgerError>
  {
    RunStrategies(TickState(l, Stats(0, 0)), names, Fresh(l, index, evaluate, now), markets)
  }

  /** The tick of the registered strategies on the shared database at `asOf`. */
  ghost function EngineTick(l: Ledger, d: SharedData, asOf: int, now: int): Result<TickState, LedgerError> {
    TickWith(l, Strategies.REGISTERED, Strategies.Evaluate,
             Features.IndexFeatures(Features.AllFeatures(d, asOf, None)), Features.MarketStates(d, asOf), now)
  }

  // ---------------------------------------------------------------- the first error ends a tick

  lemma {:induction false} MarketsStop(st: TickState, name: string, c: Context, markets: seq<MarketState>, i: nat)
    requires i <= |markets| && ConsiderMarkets(st, name, c, markets[..i]).Err?
    ensures ConsiderMarkets(st, name, c, markets) == ConsiderMarkets(st, name, c, markets[..i])
    decreases |markets|
  {
    if i == |markets| {
      assert markets[..i] == markets;
    } else {
      assert markets[..|markets| - 1][..i] == markets[..i];
      MarketsStop(st, name, c, markets[..|markets| - 1], i);
    }
  }

  lemma {:induction false} StrategiesStop(st: TickState, names: seq<string>, c: Context, markets: seq<MarketState>, i: nat)
    requires i <= |names| && RunStrategies(st, names[..i], c, markets).Err?
    ensures RunStrategies(st, names, c, markets) == RunStrategies(st, names[..i], c, markets)
    decreases |names|
  {
    if i == |names| {
      assert names[..i] == names;
    } else {
      assert names[..|names| - 1][..i] == names[..i];
      StrategiesStop(st, names[..|names| - 1], c, markets, i);
    }
  }

  // ---------------------------------------------------------------- the tick as it runs

  method SumBankrolls(strategies: map<string, Strategy>) returns (total: int)
    ensures total == TotalBankroll(strategies)
  {
    total := 0;
    var todo := strategies.Keys;
    while todo != {}
      invariant todo <= strategies.Keys
      invariant total + SumNames(todo, BankrollIn(strategies)) == TotalBankroll(strategies)
      decreases todo
    {
      var n :| n in todo;
      SumNamesTake(todo, n, BankrollIn(strategies));
      total := total + strategies[n].bankroll;
      todo := todo - {n};
    }
  }

  /** One evaluation: size, record the signal, place the order. */
  method Trade(
    store: LedgerStore.Store, name: string, draft: SignalDraft, sizing: Result<Order, SignalOutcome>, now: int,
    stats: Stats) returns (r: Result<Stats, LedgerError>)
    modifies store
    ensures var spec := Act(TickState(old(store.Value()), stats), name, draft, sizing, now);
            && LedgerStore.Reports(r, spec)
            && (spec.Ok? ==> spec.value == TickState(store.Value(), r.value))
  {
    if sizing.Err? {
      var rejected := store.AddSignal(SignalRow(name, draft, sizing.error));
      if rejected.Err? { return Err(rejected.error); }
      return Ok(stats.(signals := stats.signals + 1));
    }
    var recorded := store.AddSignal(SignalRow(name, draft, OrderPlaced));
    if recorded.Err? { return Err(recorded.error); }
    var placed := store.OpenPaperPosition(name, sizing.value, Some(recorded.value), 0, now);
    if placed.Err? { return Err(placed.error); }
    return Ok(Stats(stats.signals + 1, stats.orders + 1));
  }

  method TradeMarkets(store: LedgerStore.Store, name: string, c: Context, markets: seq<MarketState>, start: Stats)
    returns (r: Result<Stats, LedgerError>)
    requires name in store.strategies
    modifies store
    ensures var spec := ConsiderMarkets(TickState(old(store.Value()), start), name, c, markets);
            && LedgerStore.Reports(r, spec)
            && (spec.Ok? ==> spec.value == TickState(store.Value(), r.value))
  {
    var stats := start;
    ghost var first := TickState(store.Value(), start);
    var strategyOpen := OpenPositionsOf(store.positions, name);
    for i := 0 to |markets|
      invariant ConsiderMarkets(first, name, c, markets[..i]) == Ok(TickState(store.Value(), stats))
      invariant name in store.strategies
      invariant strategyOpen == OpenPositionsOf(store.positions, name)
    {
      var market := markets[i];
      assert markets[..i + 1][..i] == markets[..i];
      var features := Features.ScopeFeatures(c.index, market.location, market.ticker);
      var signal := c.evaluate(name, market, features, store.strategies[name].config);
      if signal.Some? {
        var free := store.FreeCashCents(name);
        var sizing := SizeOrder(SizingInput(signal.value, market, store.strategies[name], c.system, strategyOpen,
                                            features, free, c.totalBankroll));
        ghost var before := TickState(store.Value(), stats);
        var acted := Trade(store, name, signal.value, sizing, c.now, stats);
        assert ConsiderMarket(before, name, c, market) == Act(before, name, signal.value, sizing, c.now);
        if acted.Err? {
          MarketsStop(first, name, c, markets, i + 1);
          return Err(acted.error);
        }
        ActKeepsStrategies(before, name, signal.value, sizing, c.now);
        stats := acted.value;
        strategyOpen := OpenPositionsOf(store.positions, name);
      }
    }
    assert markets[..|markets|] == markets;
    return Ok(stats);
  }

  /** Zero-fee orders and signals touch no strategy row, no cash event and no switch. */
  lemma ActKeepsStrategies(st: TickState, name: string, draft: SignalDraft, sizing: Result<Order, SignalOutcome>, now: int)
    requires Act(st, name, draft, sizing, now).Ok?
    ensures var st' := Act(st, name, draft, sizing, now).value;
            && st'.ledger.strategies == st.ledger.strategies
            && st'.ledger.cash == st.ledger.cash
            && st'.ledger.system == st.ledger.system
  {
  }

  /** The strategies that are seeded and may emit, in registry order. */
  method TradeStrategies(store: LedgerStore.Store, names: seq<string>, c: Context, markets: seq<MarketState>)
    returns (r: Result<Stats, LedgerError>)
    modifies store
    ensures var spec := RunStrategies(TickState(old(store.Value()), Stats(0, 0)), names, c, markets);
            && LedgerStore.Reports(r, spec)
            && (spec.Ok? ==> spec.value == TickState(store.Value(), r.value))
  {
    var stats := Stats(0, 0);
    ghost var first := TickState(store.Value(), stats);
    for i := 0 to |names|
      invariant RunStrategies(first, names[..i], c, markets) == Ok(TickState(store.Value(), stats))
    {
      assert names[..i + 1][..i] == names[..i];
      if names[i] in store.strategies && CanEmitSignals(store.strategies[names[i]]) {
        var traded := TradeMarkets(store, names[i], c, markets, stats);
        if traded.Err? {
          StrategiesStop(first, names, c, markets, i + 1);
          return Err(traded.error);
        }
        stats := traded.value;
      }
    }
    assert names[..|names|] == names;
    return Ok(stats);
  }

  /** Run one engine tick; on an error the session is discarded. */
  method RunEngineTick(store: LedgerStore.Store, d: SharedData, asOf: int, now: int) returns (r: Result<Stats, LedgerError>)
    modifies store
    ensures var spec := EngineTick(old(store.Value()), d, asOf, now);
            && LedgerStore.Reports(r, spec)
            && (if spec.Ok? then spec.value == TickState(store.Value(), r.value) else store.Value() == old(store.Value()))
  {
    var saved := store.Value();
    var ensemble := Features.ComputeEnsembleMeanTemp(d, asOf, None);
    var disagreement := Features.ComputeForecastDisagreement(d, asOf, None);
    var spread := Features.ComputeKalshiSpread(d, asOf);
    var index := Features.BuildIndex(ensemble + disagreement + spread);
    var markets := Features.BuildMarketStates(d, asOf);
    var total := SumBankrolls(store.strategies);
    var c := Context(store.system.state, total, index, Strategies.Evaluate, now);
    r := TradeStrategies(store, Strategies.REGISTERED, c, markets);
    if r.Err? { store.Rollback(saved); }
  }

  // ---------------------------------------------------------------- no look-ahead

  /** The whole tick, to the last ledger row, is the same for two databases that agree up
      to `t`, whatever later rows they hold. */
  lemma TickDoesNotLookAhead(l: Ledger, a: SharedData, b: SharedData, t: int, now: int)
    requires LookAhead.Agree(a, b, t) && LookAhead.TiesAgree(a, t)
    ensures EngineTick(l, a, t, now) == EngineTick(l, b, t, now)
  {
    LookAhead.FeaturesDoNotLookAhead(a, b, t, None);
    LookAhead.MarketsDoNotLookAhead(a, b, t);
  }
}
