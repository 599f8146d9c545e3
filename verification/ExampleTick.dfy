/** The engine tick on the example scene: both strategies see the same cheap quote, order, and
    are booked, or run into the rounding of a half cent. */
module ExampleTick {
  import opened Lists
  import opened Rounding
  import opened Domain
  import opened LedgerSpec
  import opened WeatherUtils
  import opened Sizing
  import opened Shared
  import opened Features
  import opened FeatureTheorems
  import opened Tick
  import opened TickTheorems
  import opened ExampleScene
  import Strategies

  // ---------------------------------------------------------------- the drafts

  /** A quote ten cents wide and far below what the forecasts imply. */
  predicate Cheap(q: Setting) { q.bid >= 0.0 && q.ask == q.bid + 0.10 && q.ask <= 0.50 }

  predicate Quarter(q: Setting) { q.bid == 0.15 && q.ask == 0.25 }

  predicate HalfCent(q: Setting) { q.bid == 0.115 && q.ask == 0.215 }

  const ROW1 := SeedRow(ENSEMBLE_DISAGREEMENT, 10000).(state := Active, bankroll := 10000)
  const ROW2 := SeedRow(STALE_QUOTE, 10000).(state := Active, bankroll := 10000)
  const ROWS := map[ENSEMBLE_DISAGREEMENT := ROW1, STALE_QUOTE := ROW2]

  const DRAFT1 := SignalDraft(TICKER, 0.95, 1.0, Yes)
  const DRAFT2 := SignalDraft(TICKER, 0.95, 0.65, Yes)

  lemma ScopedGiven(q: Setting)
    ensures Strategies.ScopedTo(Given(q), PLACE, TICKER) == Given(q)
  {
  }

  lemma GivenNumbers(q: Setting)
    ensures var given := Given(q);
            && NumericFeature(Lookup(given, KALSHI_SPREAD)) == Some(q.ask - q.bid)
            && NumericFeature(Lookup(given, FORECAST_DISAGREEMENT)) == Some(2.0)
            && NumericFeature(Lookup(given, ENSEMBLE_MEAN_TEMP)) == Some(129.0)
    ensures Strategies.RequiredPresent(Strategies.BASE_FEATURES + {FORECAST_DISAGREEMENT}, Given(q))
  {
  }

  lemma FirstDrafts(q: Setting)
    requires Cheap(q)
    ensures Strategies.EvaluateDisagreement(StateOf(q), Given(q), ROW1.config) == Some(DRAFT1)
  {
    SeriesIsNyc();
    ScopedGiven(q);
    GivenNumbers(q);
    assert EnsembleToProb(129.0) == 0.95;
  }

  lemma SecondDrafts(q: Setting)
    requires Cheap(q)
    ensures Strategies.EvaluateStaleQuote(StateOf(q), Given(q), ROW2.config) == Some(DRAFT2)
  {
    SeriesIsNyc();
    ScopedGiven(q);
    GivenNumbers(q);
    assert EnsembleToProb(129.0) == 0.95;
  }

  lemma EvaluateByName(market: MarketState, features: FeatureMap, config: StrategyConfig)
    ensures Strategies.Evaluate(ENSEMBLE_DISAGREEMENT, market, features, config)
         == Strategies.EvaluateDisagreement(market, features, config)
    ensures Strategies.Evaluate(STALE_QUOTE, market, features, config) == Strategies.EvaluateStaleQuote(market, features, config)
  {
    NamesDiffer();
  }

  // ---------------------------------------------------------------- the orders

  lemma SceneIsFresh(q: Setting)
    ensures FreshInputs(900, Given(q), StateOf(q))
  {
  }

  const ORDER1 := Order(TICKER, Yes, 70, 0.25, 1750)
  const ORDER2 := Order(TICKER, Yes, 36, 0.25, 900)
  const HALF_CENT_ORDER := Order(TICKER, Yes, 85, 0.215, 1827)

  /** An untraded strategy's input on the scene, with 20000 cents in all. */
  predicate SceneInput(x: SizingInput, draft: SignalDraft, row: Strategy, q: Setting) {
    && x.signal == draft && x.market == StateOf(q) && x.features == Given(q) && x.strategy == row
    && x.system.SystemActive? && x.openPositions == [] && x.freeCash == 10000 && x.totalBankroll == 20000
  }

  /** No gate stops an order of at most 2000 cents. */
  lemma NoGateStops(x: SizingInput, draft: SignalDraft, row: Strategy, q: Setting)
    requires SceneInput(x, draft, row, q) && draft in [DRAFT1, DRAFT2] && row in [ROW1, ROW2] && 0.0 < q.ask < 0.95
    ensures SizeOrder(x) == SizeAt(x, q.ask) && Edge(draft, q.ask) > 0.0
    ensures forall cost: int :: cost <= 2000 ==> !ExposureExceeded(x, cost) && !CorrelationExceeded(x, cost)
  {
    SceneIsFresh(q);
    SeriesIsNyc();
  }

  /** So the numbers decide. */
  lemma NumbersDecide(x: SizingInput, price: real, stake: int, qty: int, cost: int)
    requires 0.0 < price < 1.0 && Edge(x.signal, price) > 0.0 && Kelly(x, price) > 0.0
    requires Stake(x, price) == stake > 0 && Contracts(stake, price) == qty >= 1
    requires Down(Notional(qty, price)) == cost <= x.freeCash
    requires !ExposureExceeded(x, cost) && !CorrelationExceeded(x, cost)
    ensures SizeAt(x, price) == Ok(Order(x.signal.ticker, x.signal.side, qty, price, cost))
  {
  }

  lemma StakeIs(x: SizingInput, price: real, fraction: real, confidence: real, edge: real, kelly: real)
    requires x.strategy.kellyFraction == fraction && x.signal.confidence == confidence && Edge(x.signal, price) == edge
    requires fraction * confidence * edge == kelly && x.strategy.bankroll == 10000
    ensures Kelly(x, price) == kelly && Stake(x, price) == Down(10000.0 * kelly)
  {
  }

  lemma FirstNumbers()
    ensures Down(10000.0 * 0.175) == 1750 && Contracts(1750, 0.25) == 70 && Down(Notional(70, 0.25)) == 1750
  {
    assert Notional(70, 0.25) == 1750.0;
  }

  lemma SecondNumbers()
    ensures Down(10000.0 * 0.091) == 910 && Contracts(910, 0.25) == 36 && Down(Notional(36, 0.25)) == 900
  {
    assert Notional(36, 0.25) == 900.0;
  }

  lemma HalfCentNumbers()
    ensures Down(10000.0 * 0.18375) == 1837 && Contracts(1837, 0.215) == 85 && Notional(85, 0.215) == 1827.5
  {
  }

  /** The gates and the edge at a known price. */
  lemma PricedAt(x: SizingInput, draft: SignalDraft, row: Strategy, q: Setting, price: real)
    requires SceneInput(x, draft, row, q) && draft in [DRAFT1, DRAFT2] && row in [ROW1, ROW2] && q.ask == price && 0.0 < price < 0.95
    ensures SizeOrder(x) == SizeAt(x, price) && Edge(x.signal, price) == 0.95 - price
    ensures x.signal.ticker == TICKER && x.signal.side == Yes && x.freeCash == 10000 && x.strategy.bankroll == 10000
    ensures forall cost: int :: cost <= 2000 ==> !ExposureExceeded(x, cost) && !CorrelationExceeded(x, cost)
  {
    NoGateStops(x, draft, row, q);
  }

  lemma FirstIsSized(x: SizingInput, q: Setting)
    requires SceneInput(x, DRAFT1, ROW1, q) && Quarter(q)
    ensures SizeOrder(x) == Ok(ORDER1)
  {
    PricedAt(x, DRAFT1, ROW1, q, 0.25);
    FirstNumbers();
    StakeIs(x, 0.25, 0.25, 1.0, 0.7, 0.175);
    NumbersDecide(x, 0.25, 1750, 70, 1750);
  }

  lemma SecondStake(x: SizingInput)
    requires x.signal == DRAFT2 && x.strategy == ROW2
    ensures Kelly(x, 0.25) == 0.091 && Stake(x, 0.25) == 910
  {
    SecondNumbers();
    StakeIs(x, 0.25, 0.2, 0.65, 0.7, 0.091);
  }

  lemma SecondIsSized(x: SizingInput, q: Setting)
    requires SceneInput(x, DRAFT2, ROW2, q) && Quarter(q)
    ensures SizeOrder(x) == Ok(ORDER2)
  {
    PricedAt(x, DRAFT2, ROW2, q, 0.25);
    SecondNumbers();
    SecondStake(x);
    NumbersDecide(x, 0.25, 910, 36, 900);
  }

  /** Sizing accepts this order and the writer refuses it: it is worth 1827.5 cents. */
  lemma HalfCentIsSizedAndRefused(x: SizingInput, q: Setting)
    requires SceneInput(x, DRAFT1, ROW1, q) && HalfCent(q)
    ensures SizeOrder(x) == Ok(HALF_CENT_ORDER)
    ensures Refused(HALF_CENT_ORDER) && Refusal(HALF_CENT_ORDER) == CostMismatch(1828)
  {
    PricedAt(x, DRAFT1, ROW1, q, 0.215);
    HalfCentNumbers();
    StakeIs(x, 0.215, 0.25, 1.0, 0.735, 0.18375);
    NumbersDecide(x, 0.215, 1837, 85, 1827);
  }

  // ---------------------------------------------------------------- two strikes of one date

  function Strike(date: string, level: string): string { TICKER + "-" + date + "-" + level }

  const STRIKE := Strike("25MAY28", "T72")
  const SAME_DATE := Strike("25MAY28", "T75")
  const NEXT_DAY := Strike("25MAY29", "T75")
  const STRIKE_ORDER := Order(STRIKE, Yes, 12, 0.25, 300)

  function StrikeMarket(): MarketState { MarketState(STRIKE, TICKER, Some(0.15), Some(0.25), Some(0.20), 100, Some(PLACE)) }

  /** 400 cents are open on another ticker, and the next order is for 300. */
  function StrikeInput(other: string): SizingInput {
    SizingInput(SignalDraft(STRIKE, 0.37, 1.0, Yes), StrikeMarket(), ROW1, SystemActive,
                [NewPosition(ENSEMBLE_DISAGREEMENT, Order(other, Yes, 16, 0.25, 400))], map[], 9600, 20000)
  }

  lemma StrikeIsWanted(other: string)
    ensures Wanted(StrikeInput(other), STRIKE_ORDER)
    ensures CorrelationCap(ROW1.config, 10000) == 500 && ExposureCap(ROW1.config, 20000) == 2000
  {
    var x := StrikeInput(other);
    EdgeIsExpectedProfit(x.signal, 0.25);
    assert ExpectedProfit(x.signal, 0.25) == 12.0 && StakeShare(x, 0.25) == 0.03 && WholeStake(x, 0.25) == 300;
    assert Notional(12, 0.25) == 300.0 && Notional(13, 0.25) == 325.0;
  }

  lemma OpenOnOne(p: Position, date: string)
    ensures SumBy([p], OpenOn(date)) == OpenOn(date)(p) && SumBy([p], CostIfOpen()) == CostIfOpen()(p)
  {
    assert [p][..0] == [];
  }

  lemma StrikeDate(date: string, level: string)
    requires '-' !in date
    ensures SettlesOn(Strike(date, level), date) && SettlementKey(Strike(date, level)) == Some(date)
  {
    KeyOfStrike(TICKER, date, level);
    KeyIsTheDate(Strike(date, level), date);
  }

  /** With 400 cents open on another strike of the same date, 300 more would pass the cap of 500;
      with the same position on the next day's market they are ordered. */
  lemma SecondStrikeIsRejected()
    ensures SizeOrder(StrikeInput(SAME_DATE)) == Err(RejectedCorrelationCap)
    ensures SizeOrder(StrikeInput(NEXT_DAY)) == Ok(STRIKE_ORDER)
  {
    StrikeDate("25MAY28", "T72");
    StrikeDate("25MAY28", "T75");
    StrikeDate("25MAY29", "T75");
    SameDateIsOver(StrikeInput(SAME_DATE));
    NextDayFits(StrikeInput(NEXT_DAY));
  }

  lemma SameDateIsOver(x: SizingInput)
    requires x == StrikeInput(SAME_DATE) && SettlesOn(STRIKE, "25MAY28")
    requires SettlesOn(SAME_DATE, "25MAY28")
    ensures SizeOrder(x) == Err(RejectedCorrelationCap)
  {
    StrikeIsWanted(SAME_DATE);
    OpenOnOne(x.openPositions[0], "25MAY28");
    assert OverDate(x, 300);
    WantedIsTakenIff(x, STRIKE_ORDER);
  }

  lemma NextDayFits(x: SizingInput)
    requires x == StrikeInput(NEXT_DAY)
    requires SettlementKey(STRIKE) == Some("25MAY28") && SettlementKey(NEXT_DAY) == Some("25MAY29")
    ensures SizeOrder(x) == Ok(STRIKE_ORDER)
  {
    StrikeIsWanted(NEXT_DAY);
    OpenOnOne(x.openPositions[0], "25MAY28");
    KeyIsTheDate(NEXT_DAY, "25MAY28");
    assert "25MAY29"[6] != "25MAY28"[6];
    assert !CorrelationExceeded(x, 300) by { KeyedIsDated(x.openPositions, "25MAY28"); }
    OverDateIsExceeded(x, 300);
    WantedIsTakenIff(x, STRIKE_ORDER);
  }

  // ---------------------------------------------------------------- the tick

  /** Both strategies seeded with 10000 cents and nothing traded yet. */
  predicate Ready(l: Ledger) {
    && l.strategies == ROWS && l.system == EMPTY_LEDGER.system
    && l.positions == [] && l.fills == [] && l.signals == []
  }

  lemma NamesDiffer()
    ensures ENSEMBLE_DISAGREEMENT != STALE_QUOTE
  {
    assert |ENSEMBLE_DISAGREEMENT| != |STALE_QUOTE|;
  }

  lemma TotalIs20000(rows: map<string, Strategy>)
    requires rows == ROWS
    ensures TotalBankroll(rows) == 20000
  {
    NamesDiffer();
    var keys, f := rows.Keys, BankrollIn(rows);
    SumNamesTake(keys, ENSEMBLE_DISAGREEMENT, f);
    SumNamesTake(keys - {ENSEMBLE_DISAGREEMENT}, STALE_QUOTE, f);
    assert keys - {ENSEMBLE_DISAGREEMENT} - {STALE_QUOTE} == {};
  }

  function ContextAt(d: SharedData, t: int, now: int): Context {
    Context(SystemActive, 20000, Index(At(d, t)), Strategies.Evaluate, now)
  }

  lemma FreshAt(l: Ledger, d: SharedData, t: int, now: int)
    requires l.strategies == ROWS && l.system.state.SystemActive?
    ensures Fresh(l, Index(At(d, t)), Strategies.Evaluate, now) == ContextAt(d, t, now)
  {
    TotalIs20000(l.strategies);
  }

  lemma OneTurn(st: TickState, name: string, c: Context, market: MarketState)
    requires name in st.ledger.strategies && CanEmitSignals(st.ledger.strategies[name])
    ensures RunStrategy(st, name, c, [market]) == ConsiderMarket(st, name, c, market)
  {
    assert [market][..0] == [];
    assert ConsiderMarkets(st, name, c, []) == Ok(st);
  }

  lemma TwoTurns(st: TickState, c: Context, markets: seq<MarketState>)
    ensures RunStrategies(st, Strategies.REGISTERED, c, markets)
         == match RunStrategy(st, ENSEMBLE_DISAGREEMENT, c, markets)
            case Err(e) => Err(e)
            case Ok(m) => RunStrategy(m, STALE_QUOTE, c, markets)
  {
    var names := Strategies.REGISTERED;
    assert names[..1] == [ENSEMBLE_DISAGREEMENT] && names[..1][..0] == [];
    assert RunStrategies(st, [], c, markets) == Ok(st);
    assert RunStrategies(st, [ENSEMBLE_DISAGREEMENT], c, markets) == RunStrategy(st, ENSEMBLE_DISAGREEMENT, c, markets);
  }

  /** One sized order that the writer takes: one signal, one position and one fill more. */
  function BookedOne(l: Ledger, name: string, draft: SignalDraft, order: Order): Ledger {
    l.(signals := l.signals + [SignalRow(name, draft, OrderPlaced)],
       positions := l.positions + [NewPosition(name, order)],
       fills := l.fills + [Fill(|l.positions|, Some(|l.signals|), order.side, order.qty, order.price, 0)])
  }

  lemma ActBooks(st: TickState, name: string, draft: SignalDraft, order: Order, now: int)
    requires st.ledger.system.state.SystemActive? && name in st.ledger.strategies
    requires order.qty > 0 && order.costBasis > 0 && order.costBasis == ExpectedCost(order.qty, order.price)
    requires order.costBasis <= FreeCash(st.ledger, name)
    ensures var r := Act(st, name, draft, Ok(order), now);
            && r.Ok? && r.value.stats == Stats(st.stats.signals + 1, st.stats.orders + 1)
            && r.value.ledger.(audit := st.ledger.audit) == BookedOne(st.ledger, name, draft, order)
  {
  }

  lemma CostsAreExact()
    ensures ExpectedCost(70, 0.25) == 1750 && ExpectedCost(36, 0.25) == 900
  {
    assert Notional(70, 0.25) == 1750.0 && Notional(36, 0.25) == 900.0;
    HalfUpUnique(1750.0, 1750);
    HalfUpUnique(900.0, 900);
  }

  lemma NothingReserved(name: string)
    ensures Reserved([], name) == 0 && OpenPositionsOf([], name) == []
  {
  }

  lemma OthersPosition(name: string, p: Position)
    requires p.strategy != name
    ensures Reserved([p], name) == 0 && OpenPositionsOf([p], name) == []
  {
    assert [p][..0] == [];
    NothingReserved(name);
    FilterOfOne(p, OwnOpen(name));
  }

  const POSITION1 := NewPosition(ENSEMBLE_DISAGREEMENT, ORDER1)
  const POSITION2 := NewPosition(STALE_QUOTE, ORDER2)

  lemma TurnIsAct(st: TickState, name: string, c: Context, market: MarketState, draft: SignalDraft)
    requires name in st.ledger.strategies && DraftFor(st, name, c, market) == Some(draft)
    ensures ConsiderMarket(st, name, c, market)
         == Act(st, name, draft,
                SizeOrder(InputFor(st.ledger, name, c, market,
                                   Features.FeaturesForMarket(c.index, market.location, market.ticker), draft)),
                c.now)
  {
  }

  lemma SceneScopes(d: SharedData, q: Setting, t: int, now: int)
    requires Scene(d, q) && t >= 100 && q.bid <= q.ask
    ensures var c, m := ContextAt(d, t, now), StateOf(q);
            Features.FeaturesForMarket(c.index, m.location, m.ticker) == Given(q)
  {
    SceneGives(d, q, t);
  }

  lemma SceneDrafts(st: TickState, d: SharedData, q: Setting, t: int, now: int)
    requires Scene(d, q) && t >= 100 && Cheap(q) && st.ledger.strategies == ROWS
    ensures DraftFor(st, ENSEMBLE_DISAGREEMENT, ContextAt(d, t, now), StateOf(q)) == Some(DRAFT1)
    ensures DraftFor(st, STALE_QUOTE, ContextAt(d, t, now), StateOf(q)) == Some(DRAFT2)
  {
    SceneScopes(d, q, t, now);
    FirstDrafts(q);
    SecondDrafts(q);
    NamesDiffer();
    EvaluateByName(StateOf(q), Given(q), ROW1.config);
    EvaluateByName(StateOf(q), Given(q), ROW2.config);
  }

  lemma FirstInput(l: Ledger, d: SharedData, q: Setting, t: int, now: int)
    requires Ready(l) && Quarter(q)
    ensures SizeOrder(InputFor(l, ENSEMBLE_DISAGREEMENT, ContextAt(d, t, now), StateOf(q), Given(q), DRAFT1)) == Ok(ORDER1)
    ensures FreeCash(l, ENSEMBLE_DISAGREEMENT) == 10000
  {
    NamesDiffer();
    NothingReserved(ENSEMBLE_DISAGREEMENT);
    FirstIsSized(InputFor(l, ENSEMBLE_DISAGREEMENT, ContextAt(d, t, now), StateOf(q), Given(q), DRAFT1), q);
  }

  lemma SecondInput(l: Ledger, d: SharedData, q: Setting, t: int, now: int)
    requires l.strategies == ROWS && l.positions == [POSITION1] && l.system.state.SystemActive? && Quarter(q)
    ensures SizeOrder(InputFor(l, STALE_QUOTE, ContextAt(d, t, now), StateOf(q), Given(q), DRAFT2)) == Ok(ORDER2)
    ensures FreeCash(l, STALE_QUOTE) == 10000
  {
    NamesDiffer();
    OthersPosition(STALE_QUOTE, POSITION1);
    SecondIsSized(InputFor(l, STALE_QUOTE, ContextAt(d, t, now), StateOf(q), Given(q), DRAFT2), q);
  }

  /** The writer takes the order. */
  predicate Bookable(l: Ledger, name: string, order: Order) {
    && l.system.state.SystemActive? && name in l.strategies
    && order.qty > 0 && order.costBasis > 0 && order.costBasis == ExpectedCost(order.qty, order.price)
    && order.costBasis <= FreeCash(l, name)
  }

  /** Sizing turns the draft into the order, on the features the market is given. */
  predicate SizedTo(l: Ledger, name: string, c: Context, market: MarketState, draft: SignalDraft, order: Order)
    requires name in l.strategies
  {
    var given := Features.FeaturesForMarket(c.index, market.location, market.ticker);
    SizeOrder(InputFor(l, name, c, market, given, draft)) == Ok(order)
  }

  /** The turn recorded the draft as placed and booked its order. */
  predicate Books(st: TickState, r: Result<TickState, LedgerError>, name: string, draft: SignalDraft, order: Order) {
    && r.Ok? && r.value.stats == Stats(st.stats.signals + 1, st.stats.orders + 1)
    && r.value.ledger.(audit := st.ledger.audit) == BookedOne(st.ledger, name, draft, order)
  }

  /** A turn whose draft is sized to an order the writer takes books that order. */
  lemma TurnBooks(st: TickState, name: string, c: Context, market: MarketState, draft: SignalDraft, order: Order)
    requires Bookable(st.ledger, name, order) && SizedTo(st.ledger, name, c, market, draft, order)
    requires DraftFor(st, name, c, market) == Some(draft)
    ensures Books(st, ConsiderMarket(st, name, c, market), name, draft, order)
  {
    TurnIsAct(st, name, c, market, draft);
    ActBooks(st, name, draft, order, c.now);
  }

  /** The first strategy's turn books its order. */
  lemma FirstTurn(l: Ledger, d: SharedData, q: Setting, t: int, now: int)
    requires Ready(l) && Scene(d, q) && Quarter(q) && t >= 100
    ensures var st := TickState(l, Stats(0, 0));
            Books(st, ConsiderMarket(st, ENSEMBLE_DISAGREEMENT, ContextAt(d, t, now), StateOf(q)),
                  ENSEMBLE_DISAGREEMENT, DRAFT1, ORDER1)
  {
    var st := TickState(l, Stats(0, 0));
    SceneDrafts(st, d, q, t, now);
    SceneScopes(d, q, t, now);
    FirstInput(l, d, q, t, now);
    CostsAreExact();
    TurnBooks(st, ENSEMBLE_DISAGREEMENT, ContextAt(d, t, now), StateOf(q), DRAFT1, ORDER1);
  }

  lemma SecondOrder(l: Ledger, d: SharedData, q: Setting, t: int, now: int)
    requires l.strategies == ROWS && l.system.state.SystemActive? && l.positions == [POSITION1]
    requires Scene(d, q) && Quarter(q) && t >= 100 && STALE_QUOTE in l.strategies
    ensures Bookable(l, STALE_QUOTE, ORDER2)
    ensures SizedTo(l, STALE_QUOTE, ContextAt(d, t, now), StateOf(q), DRAFT2, ORDER2)
  {
    SceneScopes(d, q, t, now);
    SecondInput(l, d, q, t, now);
    CostsAreExact();
  }

  /** And then the second one's, which counts only its own positions. */
  lemma SecondTurn(l: Ledger, d: SharedData, q: Setting, t: int, now: int)
    requires l.strategies == ROWS && l.system.state.SystemActive? && l.positions == [POSITION1]
    requires Scene(d, q) && Quarter(q) && t >= 100
    ensures var st := TickState(l, Stats(1, 1));
            Books(st, ConsiderMarket(st, STALE_QUOTE, ContextAt(d, t, now), StateOf(q)), STALE_QUOTE, DRAFT2, ORDER2)
  {
    var st := TickState(l, Stats(1, 1));
    SceneDrafts(st, d, q, t, now);
    SecondOrder(l, d, q, t, now);
    TurnBooks(st, STALE_QUOTE, ContextAt(d, t, now), StateOf(q), DRAFT2, ORDER2);
  }

  /** What the tick leaves: two signals, two positions, two fills. */
  predicate Traded(l: Ledger) {
    && l.strategies == ROWS && l.system == EMPTY_LEDGER.system
    && l.positions == [POSITION1, POSITION2] && |l.fills| == 2 && |l.signals| == 2
  }

  lemma EngineTickAt(l: Ledger, d: SharedData, q: Setting, t: int, now: int)
    requires l.strategies == ROWS && l.system.state.SystemActive? && Quoted(d, q) && t >= 100
    ensures EngineTick(l, d, t, now)
         == RunStrategies(TickState(l, Stats(0, 0)), Strategies.REGISTERED, ContextAt(d, t, now), [StateOf(q)])
  {
    FreshAt(l, d, t, now);
    SceneMarket(d, q, t);
  }

  lemma BothMayEmit(l: Ledger)
    requires l.strategies == ROWS
    ensures CanEmitSignals(l.strategies[ENSEMBLE_DISAGREEMENT]) && CanEmitSignals(l.strategies[STALE_QUOTE])
  {
    NamesDiffer();
  }

  predicate HalfTraded(l: Ledger) {
    && l.strategies == ROWS && l.system == EMPTY_LEDGER.system
    && l.positions == [POSITION1] && |l.fills| == 1 && |l.signals| == 1
  }

  lemma AfterFirst(l: Ledger, l1: Ledger)
    requires Ready(l) && l1.(audit := l.audit) == BookedOne(l, ENSEMBLE_DISAGREEMENT, DRAFT1, ORDER1)
    ensures HalfTraded(l1) && l1.cash == l.cash
  {
    assert l1.positions == [] + [POSITION1];
  }

  lemma AfterSecond(l: Ledger, l1: Ledger)
    requires HalfTraded(l) && l1.(audit := l.audit) == BookedOne(l, STALE_QUOTE, DRAFT2, ORDER2)
    ensures Traded(l1) && l1.cash == l.cash
  {
    assert l1.positions == [POSITION1] + [POSITION2];
  }

  lemma BothTurns(l: Ledger, d: SharedData, q: Setting, t: int, now: int) returns (st1: TickState, st2: TickState)
    requires Ready(l) && Scene(d, q) && Quarter(q) && t >= 100
    ensures ConsiderMarket(TickState(l, Stats(0, 0)), ENSEMBLE_DISAGREEMENT, ContextAt(d, t, now), StateOf(q)) == Ok(st1)
    ensures ConsiderMarket(st1, STALE_QUOTE, ContextAt(d, t, now), StateOf(q)) == Ok(st2)
    ensures st1.ledger.strategies == ROWS
    ensures st2.stats == Stats(2, 2) && Traded(st2.ledger) && st2.ledger.cash == l.cash
  {
    FirstTurn(l, d, q, t, now);
    st1 := ConsiderMarket(TickState(l, Stats(0, 0)), ENSEMBLE_DISAGREEMENT, ContextAt(d, t, now), StateOf(q)).value;
    AfterFirst(l, st1.ledger);
    SecondTurn(st1.ledger, d, q, t, now);
    st2 := ConsiderMarket(st1, STALE_QUOTE, ContextAt(d, t, now), StateOf(q)).value;
    AfterSecond(st1.ledger, st2.ledger);
  }

  lemma BothTrade(l: Ledger, d: SharedData, q: Setting, t: int, now: int)
    requires Ready(l) && Scene(d, q) && Quarter(q) && t >= 100
    ensures var r := EngineTick(l, d, t, now);
            r.Ok? && r.value.stats == Stats(2, 2) && Traded(r.value.ledger) && r.value.ledger.cash == l.cash
  {
    var st, c, m := TickState(l, Stats(0, 0)), ContextAt(d, t, now), StateOf(q);
    var st1, st2 := BothTurns(l, d, q, t, now);
    BothMayEmit(l);
    BothMayEmit(st1.ledger);
    OneTurn(st, ENSEMBLE_DISAGREEMENT, c, m);
    OneTurn(st1, STALE_QUOTE, c, m);
    TwoTurns(st, c, [m]);
    EngineTickAt(l, d, q, t, now);
  }

  lemma HalfCentInput(l: Ledger, d: SharedData, q: Setting, t: int, now: int)
    requires Ready(l) && HalfCent(q)
    ensures SizeOrder(InputFor(l, ENSEMBLE_DISAGREEMENT, ContextAt(d, t, now), StateOf(q), Given(q), DRAFT1))
         == Ok(HALF_CENT_ORDER)
    ensures Refused(HALF_CENT_ORDER) && Refusal(HALF_CENT_ORDER) == CostMismatch(1828)
  {
    NamesDiffer();
    NothingReserved(ENSEMBLE_DISAGREEMENT);
    HalfCentIsSizedAndRefused(
      InputFor(l, ENSEMBLE_DISAGREEMENT, ContextAt(d, t, now), StateOf(q), Given(q), DRAFT1), q);
  }

  lemma HalfCentAct(st: TickState, now: int)
    requires st.ledger.system.state.SystemActive?
    ensures Act(st, ENSEMBLE_DISAGREEMENT, DRAFT1, Ok(HALF_CENT_ORDER), now) == Err(CostMismatch(1828))
  {
    assert Notional(85, 0.215) == 1827.5;
    HalfUpUnique(1827.5, 1828);
  }

  lemma HalfCentTurn(l: Ledger, d: SharedData, q: Setting, t: int, now: int)
    requires Ready(l) && Scene(d, q) && HalfCent(q) && t >= 100
    ensures ConsiderMarket(TickState(l, Stats(0, 0)), ENSEMBLE_DISAGREEMENT, ContextAt(d, t, now), StateOf(q))
         == Err(CostMismatch(1828))
  {
    var st := TickState(l, Stats(0, 0));
    SceneDrafts(st, d, q, t, now);
    SceneScopes(d, q, t, now);
    HalfCentInput(l, d, q, t, now);
    TurnIsAct(st, ENSEMBLE_DISAGREEMENT, ContextAt(d, t, now), StateOf(q), DRAFT1);
    HalfCentAct(st, now);
  }

  /** At a quote of 21.5 cents the same tick fails on the first order. */
  lemma HalfCentQuoteFailsTheTick(l: Ledger, d: SharedData, q: Setting, t: int, now: int)
    requires Ready(l) && Scene(d, q) && HalfCent(q) && t >= 100
    ensures EngineTick(l, d, t, now) == Err(CostMismatch(1828))
  {
    var st, c, m := TickState(l, Stats(0, 0)), ContextAt(d, t, now), StateOf(q);
    HalfCentTurn(l, d, q, t, now);
    BothMayEmit(l);
    OneTurn(st, ENSEMBLE_DISAGREEMENT, c, m);
    TwoTurns(st, c, [m]);
    EngineTickAt(l, d, q, t, now);
  }

  // ---------------------------------------------------------------- one model only

  lemma OneModelNumbers(q: Setting)
    ensures var given := OneModelGiven(q);
            && NumericFeature(Lookup(given, KALSHI_SPREAD)) == Some(q.ask - q.bid)
            && NumericFeature(Lookup(given, ENSEMBLE_MEAN_TEMP)) == Some(128.0)
            && given[FORECAST_DISAGREEMENT].status.Missing?
    ensures Strategies.ScopedTo(OneModelGiven(q), PLACE, TICKER) == OneModelGiven(q)
  {
  }

  /** The disagreement strategy stays silent and the stale-quote strategy, which does not ask for
      the disagreement, drafts. */
  lemma OneModelDrafts(q: Setting)
    requires Cheap(q)
    ensures Strategies.EvaluateDisagreement(StateOf(q), OneModelGiven(q), ROW1.config) == None
    ensures Strategies.EvaluateStaleQuote(StateOf(q), OneModelGiven(q), ROW2.config) == Some(DRAFT2)
  {
    SeriesIsNyc();
    OneModelNumbers(q);
    assert EnsembleToProb(128.0) == 0.95;
    assert !Strategies.RequiredPresent(Strategies.BASE_FEATURES + {FORECAST_DISAGREEMENT}, OneModelGiven(q)) by {
      assert FORECAST_DISAGREEMENT in Strategies.BASE_FEATURES + {FORECAST_DISAGREEMENT};
    }
  }

  lemma OneModelIsStale(x: SizingInput, q: Setting)
    requires x.market == StateOf(q) && x.features == OneModelGiven(q) && x.system.SystemActive?
    ensures SizeOrder(x) == Err(RejectedStaleInputs)
  {
    SeriesIsNyc();
    assert FORECAST_DISAGREEMENT in x.features && InScope(x.market, PLACE);
  }

  lemma OneModelDraftsIn(st: TickState, d: SharedData, q: Setting, t: int, now: int)
    requires OneModelScene(d, q) && Cheap(q) && t >= 100 && st.ledger.strategies == ROWS
    ensures var c, m := ContextAt(d, t, now), StateOf(q);
            && Features.FeaturesForMarket(c.index, m.location, m.ticker) == OneModelGiven(q)
            && DraftFor(st, ENSEMBLE_DISAGREEMENT, c, m) == None && DraftFor(st, STALE_QUOTE, c, m) == Some(DRAFT2)
  {
    OneModelGives(d, q, t);
    OneModelDrafts(q);
    NamesDiffer();
    EvaluateByName(StateOf(q), OneModelGiven(q), ROW1.config);
    EvaluateByName(StateOf(q), OneModelGiven(q), ROW2.config);
  }

  /** What the tick leaves with rows of one model: one signal, rejected as stale, and no order. */
  predicate RejectedAsStale(l: Ledger) {
    l.positions == [] && l.fills == [] && |l.signals| == 1 && l.signals[0].outcome.RejectedStaleInputs?
  }

  lemma OneModelTurn(l: Ledger, d: SharedData, q: Setting, t: int, now: int)
    requires Ready(l) && OneModelScene(d, q) && Cheap(q) && t >= 100
    ensures var st, c, m := TickState(l, Stats(0, 0)), ContextAt(d, t, now), StateOf(q);
            && ConsiderMarket(st, ENSEMBLE_DISAGREEMENT, c, m) == Ok(st)
            && ConsiderMarket(st, STALE_QUOTE, c, m).Ok?
            && RejectedAsStale(ConsiderMarket(st, STALE_QUOTE, c, m).value.ledger)
  {
    var st, c, m := TickState(l, Stats(0, 0)), ContextAt(d, t, now), StateOf(q);
    NamesDiffer();
    OneModelDraftsIn(st, d, q, t, now);
    TurnIsAct(st, STALE_QUOTE, c, m, DRAFT2);
    OneModelIsStale(InputFor(l, STALE_QUOTE, c, m, OneModelGiven(q), DRAFT2), q);
  }

  lemma OneModelTick(l: Ledger, d: SharedData, q: Setting, t: int, now: int)
    requires Ready(l) && OneModelScene(d, q) && Cheap(q) && t >= 100
    ensures var r := EngineTick(l, d, t, now); r.Ok? && RejectedAsStale(r.value.ledger)
  {
    var st, c, m := TickState(l, Stats(0, 0)), ContextAt(d, t, now), StateOf(q);
    OneModelTurn(l, d, q, t, now);
    BothMayEmit(l);
    OneTurn(st, ENSEMBLE_DISAGREEMENT, c, m);
    OneTurn(st, STALE_QUOTE, c, m);
    TwoTurns(st, c, [m]);
    EngineTickAt(l, d, q, t, now);
  }

  // ---------------------------------------------------------------- nothing listed

  /** Without a listed market a tick does nothing. */
  lemma {:induction false} NoMarketsNoOrders(st: TickState, names: seq<string>, c: Context)
    ensures RunStrategies(st, names, c, []) == Ok(st)
    decreases |names|
  {
    if |names| == 0 {
    } else {
      NoMarketsNoOrders(st, names[..|names| - 1], c);
    }
  }
}
