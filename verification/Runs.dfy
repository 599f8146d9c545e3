/** Whole runs: any sequence of operator commands, ingestions, engine ticks, resolution
    ticks and direct executor calls, starting from the empty databases. A command that
    fails is rolled back (core/api/v1/routes.py, core/scheduler.py). */
module Runs {
  import opened Lists
  import opened Domain
  import opened LedgerSpec
  import opened Invariants
  import opened Shared
  import opened Tick
  import opened TickTheorems
  import opened ResolutionTick
  import opened WeatherUtils
  import Strategies
  import Features

  datatype World = World(ledger: Ledger, shared: SharedData)

  const EMPTY_WORLD := World(EMPTY_LEDGER, EMPTY_SHARED)

  datatype Command =
    | SeedPlaces
    | Seed(initial: int, overrides: map<string, int>, now: int)
    | Pay(name: string, amount: int, now: int)
    | Take(name: string, amount: int, now: int)
    | SetBaseline(name: string, amount: int, reason: string, now: int)
    | Trip(reason: string, now: int)
    | Lift(reason: string)
    | Kelly(name: string, fraction: real)
    | Move(name: string, reason: string, transition: Transition)
    | Ingest(markets: seq<Market>, payloads: seq<(string, Option<Payload>)>, snapshots: seq<SnapshotRow>, forecasts: seq<ForecastRow>)
    | RunEngine(asOf: int, now: int)
    | SettleOpen(order: seq<nat>, now: int)
    | Place(name: string, sized: Order, source: Option<nat>, fees: int, now: int)
    | Note(row: Signal)

  /** The resolutions a batch of payloads decodes to. */
  function Decode(): ((string, Option<Payload>)) -> Option<(string, Resolution)> {
    (x: (string, Option<Payload>)) =>
      var res := ParseMarketResult(x.1);
      if res.None? then None else Some((x.0, res.value))
  }

  function Commit(l: Ledger, r: Result<Ledger, LedgerError>): Ledger { if r.Ok? then r.value else l }

  /** A resolution tick over the open positions in the order the query returned them. */
  function SettleDue(l: Ledger, order: seq<nat>, resolutions: Resolutions, now: int): Ledger {
    if EnumeratesOpen(l, order) then Commit(l, ResolveAll(l, order, resolutions, now)) else l
  }

  /** What an engine tick commits. */
  ghost function TickLedger(l: Ledger, d: SharedData, asOf: int, now: int): Ledger {
    var r := EngineTick(l, d, asOf, now);
    if r.Ok? then r.value.ledger else l
  }

  /** What a command leaves in the ledger. */
  ghost function ApplyLedger(w: World, c: Command): Ledger {
    var l := w.ledger;
    match c
    case SeedPlaces => l
    case Seed(initial, overrides, now) => Commit(l, SeedAll(l, SEED_NAMES, initial, overrides, now))
    case Pay(name, amount, now) => Commit(l, Deposit(l, name, amount, now))
    case Take(name, amount, now) => Commit(l, Withdraw(l, name, amount, now))
    case SetBaseline(name, amount, reason, now) => Commit(l, SetStartingBankroll(l, name, amount, reason, now))
    case Trip(reason, now) => Commit(l, TripKillSwitch(l, reason, now))
    case Lift(reason) => Commit(l, ClearKillSwitch(l, reason))
    case Kelly(name, fraction) => Commit(l, SetKelly(l, name, fraction))
    case Move(name, reason, transition) => Commit(l, ApplyTransition(l, name, reason, transition))
    case Ingest(_, _, _, _) => l
    case RunEngine(asOf, now) => TickLedger(l, w.shared, asOf, now)
    case SettleOpen(order, now) => SettleDue(l, order, w.shared.resolutions, now)
    case Place(name, order, signal, fees, now) => Commit(l, OpenPosition(l, name, order, signal, fees, now))
    case Note(signal) => Commit(l, RecordSignal(l, signal))
  }

  ghost function Apply(w: World, c: Command): World {
    World(ApplyLedger(w, c),
          if c.SeedPlaces? then SeedLocations(w.shared)
          else if c.Ingest? then
            Persist(w.shared, FetchResult(c.markets, Collect(c.payloads, Decode()), c.snapshots, c.forecasts))
          else w.shared)
  }

  ghost function Run(w: World, commands: seq<Command>): World {
    if |commands| == 0 then w else Apply(Run(w, commands[..|commands| - 1]), commands[|commands| - 1])
  }

  // ---------------------------------------------------------------- the world invariant

  /** A resolution the decoder can produce. */
  predicate Decoded(res: Resolution) {
    res in [Resolution(SettledYes, 1.0), Resolution(SettledNo, 0.0), Resolution(Void, 0.0)]
  }

  /** A settled position still agrees with the resolution row it was settled from. */
  predicate SettledFrom(p: Position, resolutions: Resolutions) {
    p.status.Resolved? ==> p.ticker in resolutions && p.realized == Some(PnlAt(p, resolutions[p.ticker]))
  }

  ghost predicate SettlementsStand(l: Ledger, resolutions: Resolutions) {
    forall i :: 0 <= i < |l.positions| ==> SettledFrom(l.positions[i], resolutions)
  }

  ghost predicate ResolutionsDecoded(resolutions: Resolutions) {
    forall t :: t in resolutions ==> Decoded(resolutions[t])
  }

  ghost predicate WorldSound(w: World) {
    && Sound(w.ledger)
    && ResolutionsDecoded(w.shared.resolutions)
    && SettlementsStand(w.ledger, w.shared.resolutions)
  }

  lemma EmptyIsSound()
    ensures WorldSound(EMPTY_WORLD)
  {
  }

  /** The commands an operator sends, as opposed to the engine's own. */
  predicate ByOperator(c: Command) {
    c.Seed? || c.Pay? || c.Take? || c.SetBaseline? || c.Trip? || c.Lift? || c.Kelly? || c.Move?
  }

  lemma OperatorKeepsSound(w: World, c: Command)
    requires Sound(w.ledger) && ByOperator(c)
    ensures Sound(ApplyLedger(w, c))
  {
    var l := w.ledger;
    match c
    case Seed(initial, overrides, now) => SeedAllKeepsSound(l, SEED_NAMES, initial, overrides, now);
    case Pay(name, amount, now) => DepositKeepsSound(l, name, amount, now);
    case Take(name, amount, now) => WithdrawKeepsSound(l, name, amount, now);
    case SetBaseline(name, amount, reason, now) => SetStartingBankrollKeepsSound(l, name, amount, reason, now);
    case Trip(reason, now) => SwitchKeepsSound(l, KillSwitch(SystemPaused, Some(reason), Some(now)), DoTripKillSwitch);
    case Lift(reason) => SwitchKeepsSound(l, KillSwitch(SystemActive, None, None), DoResumeKillSwitch);
    case Kelly(name, fraction) => SetKellyKeepsSound(l, name, fraction);
    case Move(name, reason, transition) => TransitionKeepsSound(l, name, reason, transition);
  }

  lemma LedgerStaysSound(w: World, c: Command)
    requires WorldSound(w)
    ensures Sound(ApplyLedger(w, c))
  {
    var l := w.ledger;
    if ByOperator(c) {
      OperatorKeepsSound(w, c);
    } else {
      match c
      case RunEngine(asOf, now) => EngineTickKeepsSound(l, w.shared, asOf, now);
      case SettleOpen(order, now) =>
        DecodedAreValid(w.shared.resolutions);
        ResolveAllKeepsSound(l, order, w.shared.resolutions, now);
      case Place(name, order, signal, fees, now) => OpenPositionKeepsSound(l, name, order, signal, fees, now);
      case Note(signal) => RecordSignalKeepsSound(l, signal);
      case _ =>
    }
  }

  lemma DecodedAreValid(resolutions: Resolutions)
    requires ResolutionsDecoded(resolutions)
    ensures forall t :: t in resolutions ==> ValidResolution(resolutions[t])
  {
  }

  lemma EngineTickKeepsSound(l: Ledger, d: SharedData, asOf: int, now: int)
    requires Sound(l)
    ensures EngineTick(l, d, asOf, now).Ok? ==> Sound(EngineTick(l, d, asOf, now).value.ledger)
  {
    var index := Features.IndexFeatures(Features.AllFeatures(d, asOf, None));
    if EngineTick(l, d, asOf, now).Ok? {
      StrategiesKeepSound(TickState(l, Stats(0, 0)), Strategies.REGISTERED,
                          Fresh(l, index, Strategies.Evaluate, now), Features.MarketStates(d, asOf));
    }
  }

  /** Ingestion only ever stores decoded resolutions and never changes a stored one. */
  lemma IngestionKeepsResolutions(resolutions: Resolutions, payloads: seq<(string, Option<Payload>)>)
    requires ResolutionsDecoded(resolutions)
    ensures var after := KeepFirst(resolutions, Collect(payloads, Decode()));
            ResolutionsDecoded(after) && forall t :: t in resolutions ==> t in after && after[t] == resolutions[t]
  {
    var drafts := Collect(payloads, Decode());
    ResolutionsAreWriteOnce(resolutions, drafts);
    var after := KeepFirst(resolutions, drafts);
    forall t | t in after ensures Decoded(after[t]) {
      if t !in resolutions { CollectMember(payloads, Decode(), (t, after[t])); }
    }
  }

  // ---------------------------------------------------------------- the history only grows

  /** A position row changes once, from open to resolved, and only in its outcome columns. */
  predicate PositionEvolves(p: Position, p': Position) {
    p' == p || (p.status.Open? && p'.status.Resolved?
                && p' == p.(status := Resolved, closedAt := p'.closedAt, realized := p'.realized))
  }

  function DepositOf(name: string): CashEvent -> Option<int> {
    (e: CashEvent) => if e.strategy == name && e.kind.Deposited? then Some(e.amount) else None
  }

  /** Decommissioning is for good and ends deposits; trading activity freezes the baseline. */
  predicate StrategyEvolves(l: Ledger, l': Ledger, name: string) {
    && name in l.strategies && name in l'.strategies
    && var s, s' := l.strategies[name], l'.strategies[name];
    && (s.state.Decommissioned? ==>
          s'.state.Decommissioned? && Collect(l'.cash, DepositOf(name)) == Collect(l.cash, DepositOf(name)))
    && (HasTradingActivity(l, name) ==>
          s'.initialDeposit == s.initialDeposit && s'.config.minBankroll == s.config.minBankroll)
  }

  ghost predicate Evolves(l: Ledger, l': Ledger) {
    && l.cash <= l'.cash && l.fills <= l'.fills && l.signals <= l'.signals && l.audit <= l'.audit
    && |l.positions| <= |l'.positions|
    && (forall i :: 0 <= i < |l.positions| ==> PositionEvolves(l.positions[i], l'.positions[i]))
    && (forall name :: name in l.strategies ==> StrategyEvolves(l, l', name))
  }

  lemma EvolvesReflexive(l: Ledger)
    ensures Evolves(l, l)
  {
  }

  /** Activity, once there, stays. */
  lemma ActivityStays(l: Ledger, l': Ledger, name: string)
    requires Evolves(l, l') && HasTradingActivity(l, name)
    ensures HasTradingActivity(l', name)
  {
    if i :| 0 <= i < |l.signals| && l.signals[i].strategy == name {
      assert l'.signals[i] == l.signals[i];
    } else {
      var i :| 0 <= i < |l.positions| && l.positions[i].strategy == name;
      assert PositionEvolves(l.positions[i], l'.positions[i]);
      assert l'.positions[i].strategy == name;
    }
  }

  lemma EvolvesTransitive(a: Ledger, b: Ledger, c: Ledger)
    requires Evolves(a, b) && Evolves(b, c)
    ensures Evolves(a, c)
  {
    forall i | 0 <= i < |a.positions| ensures PositionEvolves(a.positions[i], c.positions[i]) {
      assert PositionEvolves(a.positions[i], b.positions[i]) && PositionEvolves(b.positions[i], c.positions[i]);
    }
    forall name | name in a.strategies ensures StrategyEvolves(a, c, name) {
      assert StrategyEvolves(a, b, name) && StrategyEvolves(b, c, name);
      if HasTradingActivity(a, name) { ActivityStays(a, b, name); }
    }
  }

  /** Steps that append at most one cash event and leave the positions alone. */
  lemma RowStepEvolves(l: Ledger, l': Ledger, name: string, e: Option<CashEvent>)
    requires name in l.strategies && name in l'.strategies && l'.strategies == l.strategies[name := l'.strategies[name]]
    requires l'.cash == Extend(l.cash, e) && l.audit <= l'.audit
    requires l'.positions == l.positions && l'.fills == l.fills && l'.signals == l.signals
    requires e.Some? ==> e.value.strategy == name
    requires l.strategies[name].state.Decommissioned? ==>
               l'.strategies[name].state.Decommissioned? && (e.Some? ==> !e.value.kind.Deposited?)
    requires HasTradingActivity(l, name) ==>
               && l'.strategies[name].initialDeposit == l.strategies[name].initialDeposit
               && l'.strategies[name].config.minBankroll == l.strategies[name].config.minBankroll
    ensures Evolves(l, l')
  {
    forall n | n in l.strategies ensures StrategyEvolves(l, l', n) {
      if e.Some? { CollectAppend(l.cash, e.value, DepositOf(n)); }
    }
  }

  /** Steps that append signals, positions and fills and leave strategies and cash alone. */
  lemma RecordStepEvolves(l: Ledger, l': Ledger)
    requires l'.strategies == l.strategies && l'.cash == l.cash
    requires l.positions <= l'.positions && l.fills <= l'.fills && l.signals <= l'.signals && l.audit <= l'.audit
    ensures Evolves(l, l')
  {
  }

  lemma OpenEvolves(l: Ledger, name: string, order: Order, signal: Option<nat>, fees: int, now: int)
    requires OpenPosition(l, name, order, signal, fees, now).Ok?
    ensures Evolves(l, OpenPosition(l, name, order, signal, fees, now).value)
  {
    OpenStages(l, name, order, signal, fees, now);
    var booked, l' := Booked(l, name, order, signal, fees), OpenPosition(l, name, order, signal, fees, now).value;
    RecordStepEvolves(l, booked);
    if fees > 0 {
      RowStepEvolves(booked, l', name, Some(l'.cash[|l.cash|]));
      EvolvesTransitive(l, booked, l');
    }
  }

  lemma SettleEvolves(l: Ledger, id: nat, realized: int, now: int)
    requires id < |l.positions| && l.positions[id].strategy in l.strategies && l.positions[id].status.Open?
    ensures Evolves(l, Settle(l, id, realized, now))
  {
    var l' := Settle(l, id, realized, now);
    SettlementRows(l, id, realized, now);
    forall n | n in l.strategies ensures StrategyEvolves(l, l', n) {
      CollectAppend(l.cash, l'.cash[|l.cash|], DepositOf(n));
    }
  }

  lemma {:induction false} ResolveAllEvolves(l: Ledger, order: seq<nat>, resolutions: Resolutions, now: int)
    requires ResolveAll(l, order, resolutions, now).Ok?
    ensures Evolves(l, ResolveAll(l, order, resolutions, now).value)
    decreases |order|
  {
    if |order| == 0 {
    } else {
      var front, id := order[..|order| - 1], order[|order| - 1];
      ResolveAllEvolves(l, front, resolutions, now);
      var m := ResolveAll(l, front, resolutions, now).value;
      if Due(m, id, resolutions) {
        SettleEvolves(m, id, PnlAt(m.positions[id], resolutions[m.positions[id].ticker]), now);
        EvolvesTransitive(l, m, ResolveAll(l, order, resolutions, now).value);
      }
    }
  }

  /** One evaluation only appends, and what it appends to the positions is open. */
  lemma MarketAppends(st: TickState, name: string, c: Context, market: MarketState)
    requires ConsiderMarket(st, name, c, market).Ok?
    ensures var l, l' := st.ledger, ConsiderMarket(st, name, c, market).value.ledger;
            && l'.strategies == l.strategies && l'.cash == l.cash && l'.system == l.system
            && l.fills <= l'.fills && l.signals <= l'.signals && l.audit <= l'.audit
            && OpensOnly(l, l')
  {
  }

  /** The old position rows are untouched and the new ones are open. */
  predicate OpensOnly(l: Ledger, l': Ledger) {
    && l.positions <= l'.positions
    && forall i :: |l.positions| <= i < |l'.positions| ==> l'.positions[i].status.Open?
  }

  lemma {:induction false} MarketsEvolve(st: TickState, name: string, c: Context, markets: seq<MarketState>)
    requires ConsiderMarkets(st, name, c, markets).Ok?
    ensures var l, l' := st.ledger, ConsiderMarkets(st, name, c, markets).value.ledger; Evolves(l, l') && OpensOnly(l, l')
    decreases |markets|
  {
    if |markets| == 0 {
    } else {
      MarketsEvolve(st, name, c, markets[..|markets| - 1]);
      var m := ConsiderMarkets(st, name, c, markets[..|markets| - 1]).value;
      var m' := ConsiderMarkets(st, name, c, markets).value;
      if name in m.ledger.strategies && DraftFor(m, name, c, markets[|markets| - 1]).Some? {
        MarketAppends(m, name, c, markets[|markets| - 1]);
        RecordStepEvolves(m.ledger, m'.ledger);
        EvolvesTransitive(st.ledger, m.ledger, m'.ledger);
      }
    }
  }

  lemma {:induction false} TickEvolves(st: TickState, names: seq<string>, c: Context, markets: seq<MarketState>)
    requires RunStrategies(st, names, c, markets).Ok?
    ensures var l, l' := st.ledger, RunStrategies(st, names, c, markets).value.ledger; Evolves(l, l') && OpensOnly(l, l')
    decreases |names|
  {
    EvolvesReflexive(st.ledger);
    if |names| == 0 {
    } else {
      TickEvolves(st, names[..|names| - 1], c, markets);
      var m := RunStrategies(st, names[..|names| - 1], c, markets).value;
      var name := names[|names| - 1];
      if name in m.ledger.strategies && CanEmitSignals(m.ledger.strategies[name]) {
        MarketsEvolve(m, name, c, markets);
        EvolvesTransitive(st.ledger, m.ledger, RunStrategies(st, names, c, markets).value.ledger);
      }
    }
  }

  lemma SeedOneEvolves(l: Ledger, name: string, initial: int, now: int)
    requires SeedOne(l, name, initial, now).Ok?
    ensures Evolves(l, SeedOne(l, name, initial, now).value)
  {
    if name !in l.strategies {
      var inserted := l.(strategies := l.strategies[name := SeedRow(name, initial)]);
      var funded := Deposit(inserted, name, initial, now).value;
      DepositEvolves(inserted, name, initial, now);
      TransitionEvolves(funded, name, "initial seed activation", BootstrapActivate);
      EvolvesTransitive(inserted, funded, SeedOne(l, name, initial, now).value);
      assert Evolves(l, inserted);
      EvolvesTransitive(l, inserted, SeedOne(l, name, initial, now).value);
    }
  }

  lemma DepositEvolves(l: Ledger, name: string, amount: int, now: int)
    requires Deposit(l, name, amount, now).Ok?
    ensures Evolves(l, Deposit(l, name, amount, now).value)
  {
    var l' := Deposit(l, name, amount, now).value;
    assert l'.strategies == l.strategies[name := l'.strategies[name]];
    RowStepEvolves(l, l', name, Some(l'.cash[|l.cash|]));
  }

  lemma TransitionEvolves(l: Ledger, name: string, reason: string, t: Transition)
    requires ApplyTransition(l, name, reason, t).Ok?
    ensures Evolves(l, ApplyTransition(l, name, reason, t).value)
  {
    RowStepEvolves(l, ApplyTransition(l, name, reason, t).value, name, None);
  }

  lemma BaselineEvolves(l: Ledger, name: string, amount: int, reason: string, now: int)
    requires SetStartingBankroll(l, name, amount, reason, now).Ok?
    ensures Evolves(l, SetStartingBankroll(l, name, amount, reason, now).value)
  {
    var l' := SetStartingBankroll(l, name, amount, reason, now).value;
    assert l'.strategies == l.strategies[name := l'.strategies[name]];
    RowStepEvolves(l, l', name, BaselineEvent(l.strategies[name], name, amount, now));
  }

  lemma {:induction false} SeedAllEvolves(l: Ledger, names: seq<string>, initial: int, overrides: map<string, int>, now: int)
    requires SeedAll(l, names, initial, overrides, now).Ok?
    ensures Evolves(l, SeedAll(l, names, initial, overrides, now).value)
    decreases |names|
  {
    if |names| == 0 {
    } else {
      var last := names[|names| - 1];
      SeedAllEvolves(l, names[..|names| - 1], initial, overrides, now);
      var m := SeedAll(l, names[..|names| - 1], initial, overrides, now).value;
      SeedOneEvolves(m, last, SeedAmount(last, initial, overrides), now);
      EvolvesTransitive(l, m, SeedAll(l, names, initial, overrides, now).value);
    }
  }

  lemma EngineTickEvolves(l: Ledger, d: SharedData, asOf: int, now: int)
    ensures Evolves(l, TickLedger(l, d, asOf, now))
  {
    EvolvesReflexive(l);
    if EngineTick(l, d, asOf, now).Ok? {
      TickEvolves(TickState(l, Stats(0, 0)), Strategies.REGISTERED,
                  Fresh(l, Features.IndexFeatures(Features.AllFeatures(d, asOf, None)), Strategies.Evaluate, now),
                  Features.MarketStates(d, asOf));
    }
  }

  lemma SettlingEvolves(l: Ledger, order: seq<nat>, resolutions: Resolutions, now: int)
    ensures Evolves(l, SettleDue(l, order, resolutions, now))
  {
    EvolvesReflexive(l);
    if ResolveAll(l, order, resolutions, now).Ok? { ResolveAllEvolves(l, order, resolutions, now); }
  }

  lemma OperatorEvolves(w: World, c: Command)
    requires ByOperator(c)
    ensures Evolves(w.ledger, ApplyLedger(w, c))
  {
    var l, l' := w.ledger, ApplyLedger(w, c);
    EvolvesReflexive(l);
    if l' != l {
      match c
      case Seed(initial, overrides, now) => SeedAllEvolves(l, SEED_NAMES, initial, overrides, now);
      case Pay(name, amount, now) => DepositEvolves(l, name, amount, now);
      case Take(name, amount, now) => RowStepEvolves(l, l', name, Some(l'.cash[|l.cash|]));
      case SetBaseline(name, amount, reason, now) => BaselineEvolves(l, name, amount, reason, now);
      case Trip(_, _) => RecordStepEvolves(l, l');
      case Lift(_) => RecordStepEvolves(l, l');
      case Kelly(name, _) => RowStepEvolves(l, l', name, None);
      case Move(name, reason, transition) => TransitionEvolves(l, name, reason, transition);
    }
  }

  lemma CommandEvolves(w: World, c: Command)
    ensures Evolves(w.ledger, ApplyLedger(w, c))
  {
    var l := w.ledger;
    EvolvesReflexive(l);
    if ByOperator(c) {
      OperatorEvolves(w, c);
    } else if ApplyLedger(w, c) != l {
      match c
      case RunEngine(asOf, now) => EngineTickEvolves(l, w.shared, asOf, now);
      case SettleOpen(order, now) => SettlingEvolves(l, order, w.shared.resolutions, now);
      case Place(name, order, signal, fees, now) => OpenEvolves(l, name, order, signal, fees, now);
      case Note(_) => RecordStepEvolves(l, ApplyLedger(w, c));
      case _ =>
    }
  }

  /** Over any run, from any world: the logs are append-only, positions only go from open to
      resolved, decommissioned strategies stay so and get no deposit, and a strategy with any
      trading activity keeps its baseline. */
  lemma {:induction false} RunEvolves(w: World, commands: seq<Command>)
    ensures Evolves(w.ledger, Run(w, commands).ledger)
    decreases |commands|
  {
    if |commands| == 0 {
      EvolvesReflexive(w.ledger);
    } else {
      RunEvolves(w, commands[..|commands| - 1]);
      var m := Run(w, commands[..|commands| - 1]);
      CommandEvolves(m, commands[|commands| - 1]);
      EvolvesTransitive(w.ledger, m.ledger, Run(w, commands).ledger);
    }
  }
}
