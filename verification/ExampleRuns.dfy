/** Concrete runs of the whole system: the service starts, ingests a quote and two forecasts,
    ticks, and settles. They show what the theorems about all runs are about, and each way in
    which the code differs from its documentation. */
module ExampleRuns {
  import opened Lists
  import opened Domain
  import opened LedgerSpec
  import opened Invariants
  import opened Sizing
  import opened Shared
  import opened FeatureTheorems
  import opened Tick
  import opened TickTheorems
  import opened ResolutionTick
  import opened Runs
  import opened RunTheorems
  import opened Exposure
  import opened ExampleScene
  import opened ExampleTick
  import Strategies
  import opened Features

  const QUARTER := Setting(0.15, 0.25, 90)
  const HALF_CENT := Setting(0.115, 0.215, 90)

  // ---------------------------------------------------------------- opening

  lemma RunOne(w: World, c: Command)
    ensures Run(w, [c]) == Apply(w, c)
  {
    assert [c][..0] == [];
  }

  lemma {:induction false} RunConcat(w: World, first: seq<Command>, second: seq<Command>)
    ensures Run(w, first + second) == Run(Run(w, first), second)
    decreases |second|
  {
    if |second| == 0 {
      assert first + second == first;
    } else {
      var last := |second| - 1;
      assert (first + second)[..|first + second| - 1] == first + second[..last];
      RunConcat(w, first, second[..last]);
    }
  }

  lemma RunNext(w: World, first: seq<Command>, c: Command)
    ensures Run(w, first + [c]) == Apply(Run(w, first), c)
  {
    RunConcat(w, first, [c]);
    RunOne(Run(w, first), c);
  }

  /** The start of the service and one ingestion. */
  function Opening(q: Setting): seq<Command> {
    [SeedPlaces, Seed(10000, map[], 0), Ingest([LISTING], [], [Quote(q)], [GFS_ROW, EcmwfRow(q)])]
  }

  lemma SeedingRows(l: Ledger)
    requires l == EMPTY_LEDGER
    ensures SeedAll(l, SEED_NAMES, 10000, map[], 0).Ok?
    ensures Ready(SeedAll(l, SEED_NAMES, 10000, map[], 0).value)
  {
    NamesDiffer();
    assert SEED_NAMES[..1] == [ENSEMBLE_DISAGREEMENT] && SEED_NAMES[..1][..0] == [];
    assert SeedAll(l, [], 10000, map[], 0) == Ok(l);
    SeedingOne(l, ENSEMBLE_DISAGREEMENT);
    var l1 := SeedOne(l, ENSEMBLE_DISAGREEMENT, 10000, 0).value;
    assert SeedAll(l, [ENSEMBLE_DISAGREEMENT], 10000, map[], 0) == Ok(l1);
    SeedingOne(l1, STALE_QUOTE);
  }

  lemma SeedingOne(l: Ledger, name: string)
    requires l.system.state.SystemActive? && name !in l.strategies
    ensures var r := SeedOne(l, name, 10000, 0);
            && r.Ok? && r.value.strategies == l.strategies[name := SeedRow(name, 10000).(state := Active, bankroll := 10000)]
            && r.value.system == l.system && r.value.positions == l.positions && r.value.fills == l.fills
            && r.value.signals == l.signals
  {
    assert "initial seed activation"[0] == 'i';
  }

  lemma OpeningShared(d: SharedData, q: Setting)
    requires q.run <= 90
    requires d == Persist(SeedLocations(EMPTY_SHARED), FetchResult([LISTING], [], [Quote(q)], [GFS_ROW, EcmwfRow(q)]))
    ensures Scene(d, q) && d.resolutions == map[]
  {
    InsertLocationsMembers([], SEED_LOCATIONS);
    assert SEED_LOCATIONS[1] == PLACE;
    forall location | location in d.locations ensures Plain(location) { assert location in SEED_LOCATIONS; }
    assert [LISTING][..0] == [];
    assert UpsertAll([], [LISTING]) == [LISTING];
  }

  lemma RunThree(w: World, a: Command, b: Command, c: Command)
    ensures Run(w, [a, b, c]) == Apply(Apply(Apply(w, a), b), c)
  {
    assert [a, b, c] == ([a] + [b]) + [c];
    RunOne(w, a);
    RunNext(w, [a], b);
    RunNext(w, [a] + [b], c);
  }

  lemma PlacesApply(w: World)
    ensures Apply(w, SeedPlaces) == World(w.ledger, SeedLocations(w.shared))
  {
  }

  lemma SeedApplies(w: World)
    requires w.ledger == EMPTY_LEDGER
    ensures Ready(Apply(w, Seed(10000, map[], 0)).ledger) && Apply(w, Seed(10000, map[], 0)).shared == w.shared
  {
    SeedingRows(w.ledger);
  }

  lemma IngestApplies(w: World, markets: seq<Market>, snapshots: seq<SnapshotRow>, forecasts: seq<ForecastRow>)
    ensures Apply(w, Ingest(markets, [], snapshots, forecasts))
         == World(w.ledger, Persist(w.shared, FetchResult(markets, [], snapshots, forecasts)))
  {
    assert Collect([], Decode()) == [];
  }

  lemma OpeningWorld(q: Setting) returns (w: World)
    requires q.run <= 90
    ensures w == Run(EMPTY_WORLD, Opening(q))
    ensures Ready(w.ledger) && Scene(w.shared, q) && w.shared.resolutions == map[]
  {
    var w1 := Apply(EMPTY_WORLD, SeedPlaces);
    var w2 := Apply(w1, Seed(10000, map[], 0));
    w := Apply(w2, Ingest([LISTING], [], [Quote(q)], [GFS_ROW, EcmwfRow(q)]));
    RunThree(EMPTY_WORLD, SeedPlaces, Seed(10000, map[], 0), Ingest([LISTING], [], [Quote(q)], [GFS_ROW, EcmwfRow(q)]));
    PlacesApply(EMPTY_WORLD);
    SeedApplies(w1);
    IngestApplies(w2, [LISTING], [Quote(q)], [GFS_ROW, EcmwfRow(q)]);
    OpeningShared(w.shared, q);
  }

  // ---------------------------------------------------------------- single commands

  function TickAt(t: int): Command { RunEngine(t, t) }

  lemma TickApplies(w: World, c: Command)
    requires c.RunEngine?
    ensures Apply(w, c) == World(TickLedger(w.ledger, w.shared, c.asOf, c.now), w.shared)
  {
  }

  lemma TickTrades(l: Ledger, d: SharedData, q: Setting, t: int)
    requires Ready(l) && Scene(d, q) && Quarter(q) && t >= 100
    ensures Traded(TickLedger(l, d, t, t))
  {
    BothTrade(l, d, q, t, t);
  }

  lemma SettleApplies(w: World, order: seq<nat>, now: int)
    ensures Apply(w, SettleOpen(order, now)) == World(SettleDue(w.ledger, order, w.shared.resolutions, now), w.shared)
  {
  }

  lemma PayApplies(w: World)
    requires Traded(w.ledger)
    ensures var w' := Apply(w, Pay(ENSEMBLE_DISAGREEMENT, 5000, 150));
            && w'.shared == w.shared && OpenPair(w'.ledger)
            && w'.ledger.strategies[ENSEMBLE_DISAGREEMENT] == ROW1.(bankroll := 15000)
  {
    NamesDiffer();
  }

  lemma TripApplies(w: World)
    requires w.ledger.strategies == ROWS
    ensures var w' := Apply(w, Trip("halt", 150));
            && w'.shared == w.shared && w'.ledger.strategies == ROWS && w'.ledger.positions == w.ledger.positions
            && w'.ledger.system.state.SystemPaused?
  {
    assert "halt"[0] == 'h';
  }

  /** A market payload that says how the market settled. */
  function Announce(answer: string): Command {
    Ingest([], [(TICKER, Some(Payload(Some("settled"), Some(answer))))], [], [])
  }

  lemma AnnounceApplies(w: World, answer: string, res: Resolution)
    requires w.shared.resolutions == map[] && ParseMarketResult(Some(Payload(Some("settled"), Some(answer)))) == Some(res)
    ensures Apply(w, Announce(answer)) == World(w.ledger, w.shared.(resolutions := map[TICKER := res]))
  {
    AnnounceDecodes(answer, res);
    KeepOne(w.shared.resolutions, TICKER, res);
  }

  lemma AnnounceDecodes(answer: string, res: Resolution)
    requires ParseMarketResult(Some(Payload(Some("settled"), Some(answer)))) == Some(res)
    ensures Collect([(TICKER, Some(Payload(Some("settled"), Some(answer))))], Decode()) == [(TICKER, res)]
  {
    CollectOne((TICKER, Some(Payload(Some("settled"), Some(answer)))), Decode());
  }

  lemma KeepOne(stored: map<string, Resolution>, ticker: string, res: Resolution)
    requires stored == map[]
    ensures KeepFirst(stored, [(ticker, res)]) == map[ticker := res]
  {
    assert [(ticker, res)][..0] == [];
  }

  const YES := Resolution(SettledYes, 1.0)
  const NO := Resolution(SettledNo, 0.0)

  lemma Results()
    ensures PnlAt(POSITION1, YES) == 5250 && PnlAt(POSITION2, YES) == 2700
    ensures PnlAt(POSITION1, NO) == -1750 && PnlAt(POSITION2, NO) == -900
  {
  }

  predicate OpenPair(l: Ledger) {
    && l.positions == [POSITION1, POSITION2]
    && ENSEMBLE_DISAGREEMENT in l.strategies && STALE_QUOTE in l.strategies
  }

  /** Settling both positions of a pair, whatever deposits came before. */
  lemma PairSettles(l: Ledger, res: Resolution, now: int)
    requires OpenPair(l)
    ensures EnumeratesOpen(l, [0, 1])
    ensures var l' := SettleDue(l, [0, 1], map[TICKER := res], now);
            && |l'.positions| == 2
            && l'.positions[0].realized == Some(PnlAt(POSITION1, res)) && l'.positions[1].realized == Some(PnlAt(POSITION2, res))
            && l'.positions[0].status.Resolved? && l'.positions[1].status.Resolved?
            && ENSEMBLE_DISAGREEMENT in l'.strategies
            && var s, s' := l.strategies[ENSEMBLE_DISAGREEMENT], l'.strategies[ENSEMBLE_DISAGREEMENT];
               s' == s.(bankroll := s.bankroll + PnlAt(POSITION1, res), hwm := Max(s.hwm, s.bankroll + PnlAt(POSITION1, res)))
  {
    NamesDiffer();
    var resolutions := map[TICKER := res];
    assert [0, 1][..1] == [0] && [0][..0] == [];
    assert ResolveAll(l, [], resolutions, now) == Ok(l);
    SettlementRows(l, 0, PnlAt(POSITION1, res), now);
    var l1 := Settle(l, 0, PnlAt(POSITION1, res), now);
    assert ResolveAll(l, [0], resolutions, now) == Ok(l1);
    SettlementRows(l1, 1, PnlAt(POSITION2, res), now);
    assert ResolveAll(l, [0, 1], resolutions, now) == Ok(Settle(l1, 1, PnlAt(POSITION2, res), now));
  }

  // ---------------------------------------------------------------- the engine trades

  function TradingAt(q: Setting, t: int): seq<Command> { Opening(q) + [TickAt(t)] }

  /** Both strategies order on the same tick, at the time of the quote or any time after. */
  lemma TradingWorldAt(q: Setting, t: int) returns (w: World)
    requires Quarter(q) && q.run <= 90 && t >= 100
    ensures w == Run(EMPTY_WORLD, TradingAt(q, t))
    ensures Traded(w.ledger) && Scene(w.shared, q) && w.shared.resolutions == map[]
  {
    var w0 := OpeningWorld(q);
    RunNext(EMPTY_WORLD, Opening(q), TickAt(t));
    TickApplies(w0, TickAt(t));
    TickTrades(w0.ledger, w0.shared, q, t);
    w := Apply(w0, TickAt(t));
  }

  function Trading(): seq<Command> { TradingAt(QUARTER, 100) }

  lemma TradingWorld() returns (w: World)
    ensures w == Run(EMPTY_WORLD, Trading())
    ensures Traded(w.ledger) && Scene(w.shared, QUARTER) && w.shared.resolutions == map[]
  {
    w := TradingWorldAt(QUARTER, 100);
  }

  // ---------------------------------------------------------------- the age of inputs

  /** Two orders on a quote that is `age` old and on a model run that is older still, by
      strategies that accept inputs of at most 900. */
  ghost predicate TradedOnInputsOf(w: World, t: int, age: int) {
    && |w.ledger.positions| == 2 && w.ledger.strategies == ROWS
    && (forall name :: name in ROWS ==> ROWS[name].config.maxInputAge == 900)
    && (forall s :: s in w.shared.snapshots ==> s.asOf == t - age)
    && (exists r :: r in w.shared.forecasts && r.source.Ecmwf? && r.runTime < t - age)
  }

  /** However old the quote is when the tick runs, and one of the model runs with it, both
      strategies still trade on them: age is measured from the quote, not from the tick. */
  lemma OldInputsAreTraded(age: nat)
    ensures TradedOnInputsOf(Run(EMPTY_WORLD, TradingAt(Setting(0.15, 0.25, 90 - age), 100 + age)), 100 + age, age)
  {
    var q := Setting(0.15, 0.25, 90 - age);
    var w := TradingWorldAt(q, 100 + age);
    InputsOfScene(w.ledger, w.shared, age);
  }

  lemma InputsOfScene(l: Ledger, d: SharedData, age: nat)
    requires Traded(l) && Scene(d, Setting(0.15, 0.25, 90 - age))
    ensures TradedOnInputsOf(World(l, d), 100 + age, age)
  {
    var q := Setting(0.15, 0.25, 90 - age);
    assert EcmwfRow(q) == d.forecasts[1];
    forall name | name in ROWS ensures ROWS[name].config.maxInputAge == 900 { NamesDiffer(); }
  }

  function Announced(answer: string): seq<Command> { Trading() + [Announce(answer)] }

  lemma AnnouncedWorld(answer: string, res: Resolution) returns (w: World)
    requires ParseMarketResult(Some(Payload(Some("settled"), Some(answer)))) == Some(res)
    ensures w == Run(EMPTY_WORLD, Announced(answer))
    ensures Traded(w.ledger) && Scene(w.shared, QUARTER) && w.shared.resolutions == map[TICKER := res]
  {
    var w0 := TradingWorld();
    RunNext(EMPTY_WORLD, Trading(), Announce(answer));
    AnnounceApplies(w0, answer, res);
    w := Apply(w0, Announce(answer));
  }

  function Settling(): seq<Command> { Announced("yes") + [SettleOpen([0, 1], 200)] }

  predicate SettledAtAGain(l: Ledger) {
    && |l.signals| == 2 && |l.fills| == 2 && |l.positions| == 2
    && l.positions[0].realized == Some(5250) && l.positions[1].realized == Some(2700)
  }

  /** An engine-driven run in which two orders are placed, filled and settled at a gain: what is
      proved of all engine-driven runs is not about empty ones. */
  lemma EngineTradesAndSettles()
    ensures EngineOnly(Settling()) && SettledAtAGain(Run(EMPTY_WORLD, Settling()).ledger)
  {
    var w := AnnouncedWorld("yes", YES);
    RunNext(EMPTY_WORLD, Announced("yes"), SettleOpen([0, 1], 200));
    SettleApplies(w, [0, 1], 200);
    PairGains(w.ledger);
  }

  lemma PairGains(l: Ledger)
    requires Traded(l)
    ensures SettledAtAGain(SettleDue(l, [0, 1], map[TICKER := YES], 200))
  {
    TradedIsAPair(l);
    PairSettles(l, YES, 200);
    Results();
    ResolveAllKeepsFills(l, [0, 1], map[TICKER := YES], 200);
  }

  const VOIDED := Resolution(Void, 0.0)

  predicate CostsReturned(l: Ledger) {
    |l.positions| == 2 && l.positions[0].realized == Some(0) && l.positions[1].realized == Some(0)
  }

  /** A market that settles with an empty answer gives both strategies their cost back. */
  lemma EmptyAnswerReturnsTheCost()
    ensures CostsReturned(Run(EMPTY_WORLD, Announced("") + [SettleOpen([0, 1], 200)]).ledger)
  {
    var w := AnnouncedWorld("", VOIDED);
    RunNext(EMPTY_WORLD, Announced(""), SettleOpen([0, 1], 200));
    SettleApplies(w, [0, 1], 200);
    TradedIsAPair(w.ledger);
    PairSettles(w.ledger, VOIDED, 200);
  }

  lemma TradedIsAPair(l: Ledger)
    requires l.strategies == ROWS && l.positions == [POSITION1, POSITION2]
    ensures OpenPair(l)
  {
  }

  // ---------------------------------------------------------------- the exposure cap

  lemma CapsOfRows(rows: map<string, Strategy>)
    requires rows == ROWS
    ensures ExposureCap(rows[ENSEMBLE_DISAGREEMENT].config, 20000) == ExposureCap(rows[STALE_QUOTE].config, 20000) == 2000
  {
    NamesDiffer();
  }

  lemma PairIsOpen(positions: seq<Position>)
    requires positions == [POSITION1, POSITION2]
    ensures TotalOpen(positions) == 2650
  {
    assert positions[..1] == [POSITION1] && [POSITION1][..0] == [];
    assert SumBy([POSITION1], CostIfOpen()) == 1750;
  }

  /** One run, one tick, two strategies: each is within its cap of 2000 cents, a tenth of the
      total bankroll, and together they have 2650 cents open. */
  lemma TwoStrategiesExceedTheCap()
    ensures var l := Run(EMPTY_WORLD, Trading()).ledger;
            && ENSEMBLE_DISAGREEMENT in l.strategies && STALE_QUOTE in l.strategies
            && ExposureCap(l.strategies[ENSEMBLE_DISAGREEMENT].config, TotalBankroll(l.strategies)) == 2000
            && ExposureCap(l.strategies[STALE_QUOTE].config, TotalBankroll(l.strategies)) == 2000
            && TotalOpen(l.positions) == 2650
  {
    var w := TradingWorld();
    TotalIs20000(w.ledger.strategies);
    CapsOfRows(w.ledger.strategies);
    PairIsOpen(w.ledger.positions);
  }

  // ---------------------------------------------------------------- the high-water mark

  function ToppedUp(): seq<Command> { Trading() + [Pay(ENSEMBLE_DISAGREEMENT, 5000, 150)] }

  function Losing(): seq<Command> { ToppedUp() + [Announce("no")] }

  lemma ToppedUpWorld() returns (w: World)
    ensures w == Run(EMPTY_WORLD, ToppedUp())
    ensures OpenPair(w.ledger) && w.ledger.strategies[ENSEMBLE_DISAGREEMENT] == ROW1.(bankroll := 15000)
    ensures w.shared.resolutions == map[]
  {
    var w0 := TradingWorld();
    RunNext(EMPTY_WORLD, Trading(), Pay(ENSEMBLE_DISAGREEMENT, 5000, 150));
    PayApplies(w0);
    w := Apply(w0, Pay(ENSEMBLE_DISAGREEMENT, 5000, 150));
  }

  lemma LosingWorld() returns (w: World)
    ensures w == Run(EMPTY_WORLD, Losing())
    ensures OpenPair(w.ledger) && w.ledger.strategies[ENSEMBLE_DISAGREEMENT] == ROW1.(bankroll := 15000)
    ensures w.shared.resolutions == map[TICKER := NO]
  {
    var w0 := ToppedUpWorld();
    RunNext(EMPTY_WORLD, ToppedUp(), Announce("no"));
    AnnounceApplies(w0, "no", NO);
    w := Apply(w0, Announce("no"));
  }

  /** What the first strategy has before and after the loss of its position. */
  predicate RaisedByALoss(before: Ledger, after: Ledger) {
    && ENSEMBLE_DISAGREEMENT in before.strategies && ENSEMBLE_DISAGREEMENT in after.strategies
    && |after.positions| == 2 && after.positions[0].realized == Some(-1750)
    && before.strategies[ENSEMBLE_DISAGREEMENT].hwm == 10000
    && after.strategies[ENSEMBLE_DISAGREEMENT].bankroll == after.strategies[ENSEMBLE_DISAGREEMENT].hwm == 13250
  }

  /** A strategy at its high-water mark of 10000 cents is topped up by 5000 and then loses 1750:
      the loss raises the mark to 13250. */
  lemma LossRaisesTheMark()
    ensures RaisedByALoss(Run(EMPTY_WORLD, Losing()).ledger, Run(EMPTY_WORLD, Losing() + [SettleOpen([0, 1], 200)]).ledger)
  {
    var w := LosingWorld();
    RunNext(EMPTY_WORLD, Losing(), SettleOpen([0, 1], 200));
    SettleApplies(w, [0, 1], 200);
    PairLoses(w.ledger);
  }

  lemma PairLoses(l: Ledger)
    requires OpenPair(l) && l.strategies[ENSEMBLE_DISAGREEMENT] == ROW1.(bankroll := 15000)
    ensures RaisedByALoss(l, SettleDue(l, [0, 1], map[TICKER := NO], 200))
  {
    PairSettles(l, NO, 200);
    Results();
  }

  // ---------------------------------------------------------------- the half cent

  /** At a quote of 21.5 cents the engine tick of a seeded, active system fails and leaves
      everything as it was: no signal is recorded and nobody trades. */
  lemma HalfCentQuoteRollsBack()
    ensures var w := Run(EMPTY_WORLD, Opening(HALF_CENT));
            && w.ledger.system.state.SystemActive?
            && EngineTick(w.ledger, w.shared, 100, 100) == Err(CostMismatch(1828))
            && Run(EMPTY_WORLD, Opening(HALF_CENT) + [TickAt(100)]) == w
  {
    var w := OpeningWorld(HALF_CENT);
    HalfCentQuoteFailsTheTick(w.ledger, w.shared, HALF_CENT, 100, 100);
    RunNext(EMPTY_WORLD, Opening(HALF_CENT), TickAt(100));
    TickApplies(w, TickAt(100));
  }

  // ---------------------------------------------------------------- the kill switch

  function Halted(): seq<Command> { Announced("yes") + [Trip("halt", 150)] }

  lemma HaltedWorld() returns (w: World)
    ensures w == Run(EMPTY_WORLD, Halted())
    ensures w.ledger.strategies == ROWS && w.ledger.positions == [POSITION1, POSITION2]
    ensures w.ledger.system.state.SystemPaused? && Scene(w.shared, QUARTER) && w.shared.resolutions == map[TICKER := YES]
  {
    var w0 := AnnouncedWorld("yes", YES);
    RunNext(EMPTY_WORLD, Announced("yes"), Trip("halt", 150));
    TripApplies(w0);
    w := Apply(w0, Trip("halt", 150));
  }

  /** Positions are due and a cycle over them settles nothing. */
  ghost predicate LeftUnsettled(w: World) {
    && w.ledger.system.state.SystemPaused? && EnumeratesOpen(w.ledger, [0, 1])
    && Due(w.ledger, 0, w.shared.resolutions) && Due(w.ledger, 1, w.shared.resolutions)
    && EngineTick(w.ledger, w.shared, 100, 100) == Err(KillSwitchActive)
    && Cycle(w, 100, 200, [0, 1]) == w.ledger
  }

  /** Both positions are due and the system is paused, but a strategy still has a signal: the
      cycle raises before it comes to the resolution tick, and nothing settles. */
  lemma PausedCycleSettlesNothing()
    ensures LeftUnsettled(Run(EMPTY_WORLD, Halted()))
  {
    var w := HaltedWorld();
    PausedPairIsLeft(w);
  }

  lemma PausedPairIsLeft(w: World)
    requires w.ledger.strategies == ROWS && w.ledger.positions == [POSITION1, POSITION2]
    requires w.ledger.system.state.SystemPaused? && Scene(w.shared, QUARTER) && w.shared.resolutions == map[TICKER := YES]
    ensures LeftUnsettled(w)
  {
    PairIsDue(w.ledger);
    TradersWouldSignal(w.ledger, w.shared);
    PausedEngineTick(w.ledger, w.shared, 100, 100);
    PausedCycle(w, 100, 200, [0, 1]);
  }

  lemma PairIsDue(l: Ledger)
    requires l.strategies == ROWS && l.positions == [POSITION1, POSITION2]
    ensures EnumeratesOpen(l, [0, 1]) && Due(l, 0, map[TICKER := YES]) && Due(l, 1, map[TICKER := YES])
  {
    TradedIsAPair(l);
    PairSettles(l, YES, 200);
  }

  lemma TradersWouldSignal(l: Ledger, d: SharedData)
    requires l.strategies == ROWS && l.system.state.SystemPaused? && Scene(d, QUARTER)
    ensures WouldSignal(l, d, 100, 100)
  {
    var c := Fresh(l, IndexAt(d, 100), Strategies.Evaluate, 100);
    SceneMarket(d, QUARTER, 100);
    FirstDraftAnywhere(TickState(l, Stats(0, 0)), d, c);
    BothMayEmit(l);
    assert SignalsOn(l, Strategies.REGISTERED[0], c, Features.MarketStates(d, 100)[0]);
  }

  lemma FirstDraftAnywhere(st: TickState, d: SharedData, c: Context)
    requires st.ledger.strategies == ROWS && Scene(d, QUARTER)
    requires c.index == IndexAt(d, 100) && c.evaluate == Strategies.Evaluate
    ensures DraftFor(st, ENSEMBLE_DISAGREEMENT, c, StateOf(QUARTER)) == Some(DRAFT1)
  {
    SceneDrafts(st, d, QUARTER, 100, 100);
  }

  // ---------------------------------------------------------------- no automatic pause

  /** A strategy whose bankroll has fallen below its minimum is still active. */
  predicate ActiveBelowMinimum(l: Ledger) {
    && ENSEMBLE_DISAGREEMENT in l.strategies
    && var s := l.strategies[ENSEMBLE_DISAGREEMENT];
       s.state.Active? && CanEmitSignals(s) && s.bankroll == 8250 && s.config.minBankroll == 10000
  }

  /** The first strategy loses 1750 of the 10000 cents it started with. */
  lemma NobodyPausesTheLoser()
    ensures ActiveBelowMinimum(Run(EMPTY_WORLD, Announced("no") + [SettleOpen([0, 1], 200)]).ledger)
  {
    var w := AnnouncedWorld("no", NO);
    RunNext(EMPTY_WORLD, Announced("no"), SettleOpen([0, 1], 200));
    SettleApplies(w, [0, 1], 200);
    LoserStaysActive(w.ledger);
  }

  lemma LoserStaysActive(l: Ledger)
    requires Traded(l)
    ensures ActiveBelowMinimum(SettleDue(l, [0, 1], map[TICKER := NO], 200))
  {
    NamesDiffer();
    TradedIsAPair(l);
    PairSettles(l, NO, 200);
    Results();
  }

  // ---------------------------------------------------------------- seeding under the switch

  /** A service that starts with the switch tripped seeds nobody. */
  lemma SwitchKeepsTheSystemEmpty()
    ensures Run(EMPTY_WORLD, [Trip("halt", 0), Seed(10000, map[], 0)]).ledger.strategies == map[]
  {
    var trip, seed := Trip("halt", 0), Seed(10000, map[], 0);
    assert [trip, seed] == [trip] + [seed];
    assert "halt"[0] == 'h';
    RunOne(EMPTY_WORLD, trip);
    RunNext(EMPTY_WORLD, [trip], seed);
    SeedingUnderPause(Apply(EMPTY_WORLD, trip).ledger, 10000, map[], 0);
  }

  // ---------------------------------------------------------------- an operator's day

  /** Withdraw, tune, pause, trip, lift, and reset the other strategy's baseline. */
  function Operating(): seq<Command> {
    [Seed(10000, map[], 0)] + [Take(ENSEMBLE_DISAGREEMENT, 4000, 10)] + [Kelly(ENSEMBLE_DISAGREEMENT, 0.5)]
    + [Move(ENSEMBLE_DISAGREEMENT, "halt", Pause)] + [Trip("halt", 20)] + [Lift("go")]
    + [SetBaseline(STALE_QUOTE, 3000, "less", 30)] + [Pay(ENSEMBLE_DISAGREEMENT, 500, 40)]
  }

  lemma WordsAreVisible()
    ensures !Blank("halt") && !Blank("go") && !Blank("less")
  {
    assert "halt"[0] == 'h' && "go"[0] == 'g' && "less"[0] == 'l';
  }

  /** Only this strategy's row has changed, and the log. */
  predicate RowBecomes(l: Ledger, l': Ledger, name: string, s: Strategy) {
    && l'.strategies == l.strategies[name := s] && l'.system == l.system
    && l'.positions == l.positions && l'.fills == l.fills && l'.signals == l.signals
  }

  lemma TakeApplies(w: World, name: string, amount: int, now: int)
    requires w.ledger.system.state.SystemActive? && name in w.ledger.strategies && 0 < amount <= FreeCash(w.ledger, name)
    ensures var s := w.ledger.strategies[name];
            RowBecomes(w.ledger, ApplyLedger(w, Take(name, amount, now)), name, s.(bankroll := s.bankroll - amount))
  {
  }

  lemma KellyApplies(w: World, name: string, fraction: real)
    requires w.ledger.system.state.SystemActive? && name in w.ledger.strategies && 0.0 <= fraction <= 1.0
    requires !w.ledger.strategies[name].state.Decommissioned?
    ensures RowBecomes(w.ledger, ApplyLedger(w, Kelly(name, fraction)), name, w.ledger.strategies[name].(kellyFraction := fraction))
  {
  }

  lemma PauseApplies(w: World, name: string, reason: string)
    requires w.ledger.system.state.SystemActive? && name in w.ledger.strategies && !Blank(reason)
    requires w.ledger.strategies[name].state.Active?
    ensures RowBecomes(w.ledger, ApplyLedger(w, Move(name, reason, Pause)), name, w.ledger.strategies[name].(state := OperatorPaused))
  {
  }

  lemma TripAndLiftApply(w: World, reason: string, why: string, now: int)
    requires w.ledger.system == EMPTY_LEDGER.system && !Blank(reason) && !Blank(why)
    ensures Apply(w, Trip(reason, now)).ledger.system.state.SystemPaused?
    ensures var l := ApplyLedger(Apply(w, Trip(reason, now)), Lift(why)); l == w.ledger.(audit := l.audit)
  {
  }

  lemma ResetApplies(w: World, name: string, amount: int, reason: string, now: int)
    requires w.ledger.system.state.SystemActive? && name in w.ledger.strategies && amount > 0 && !Blank(reason)
    requires !w.ledger.strategies[name].state.Decommissioned? && w.ledger.signals == [] && w.ledger.positions == []
    ensures var s := w.ledger.strategies[name];
            RowBecomes(w.ledger, ApplyLedger(w, SetBaseline(name, amount, reason, now)), name,
                       s.(bankroll := amount, initialDeposit := amount, hwm := amount, config := WithStartingBaseline(s.config, amount)))
  {
  }

  lemma TopUpApplies(w: World, name: string, amount: int, now: int)
    requires w.ledger.system.state.SystemActive? && name in w.ledger.strategies && amount > 0
    requires w.ledger.strategies[name].state.OperatorPaused?
    ensures var s := w.ledger.strategies[name];
            RowBecomes(w.ledger, ApplyLedger(w, Pay(name, amount, now)), name, s.(bankroll := s.bankroll + amount))
  {
  }

  predicate Untraded(l: Ledger) { l.positions == [] && l.fills == [] && l.signals == [] && l.system == EMPTY_LEDGER.system }

  /** The first four commands, from a freshly seeded ledger. */
  lemma Morning(w: World) returns (w': World)
    requires Ready(w.ledger)
    ensures w' == Apply(Apply(Apply(w, Take(ENSEMBLE_DISAGREEMENT, 4000, 10)), Kelly(ENSEMBLE_DISAGREEMENT, 0.5)),
                        Move(ENSEMBLE_DISAGREEMENT, "halt", Pause))
    ensures Untraded(w'.ledger)
    ensures w'.ledger.strategies == ROWS[ENSEMBLE_DISAGREEMENT := ROW1.(bankroll := 6000, kellyFraction := 0.5, state := OperatorPaused)]
  {
    NamesDiffer();
    WordsAreVisible();
    NothingReserved(ENSEMBLE_DISAGREEMENT);
    TakeApplies(w, ENSEMBLE_DISAGREEMENT, 4000, 10);
    var w1 := Apply(w, Take(ENSEMBLE_DISAGREEMENT, 4000, 10));
    KellyApplies(w1, ENSEMBLE_DISAGREEMENT, 0.5);
    var w2 := Apply(w1, Kelly(ENSEMBLE_DISAGREEMENT, 0.5));
    PauseApplies(w2, ENSEMBLE_DISAGREEMENT, "halt");
    w' := Apply(w2, Move(ENSEMBLE_DISAGREEMENT, "halt", Pause));
  }

  lemma Evening(w: World, s: Strategy) returns (w': World)
    requires Untraded(w.ledger) && w.ledger.strategies == ROWS[ENSEMBLE_DISAGREEMENT := s] && s.state.OperatorPaused?
    ensures w' == Apply(Apply(Apply(Apply(w, Trip("halt", 20)), Lift("go")), SetBaseline(STALE_QUOTE, 3000, "less", 30)),
                        Pay(ENSEMBLE_DISAGREEMENT, 500, 40))
    ensures w'.ledger.system == EMPTY_LEDGER.system && STALE_QUOTE in w'.ledger.strategies
    ensures w'.ledger.strategies[STALE_QUOTE].bankroll == w'.ledger.strategies[STALE_QUOTE].hwm == 3000
    ensures ENSEMBLE_DISAGREEMENT in w'.ledger.strategies
    ensures w'.ledger.strategies[ENSEMBLE_DISAGREEMENT] == s.(bankroll := s.bankroll + 500)
  {
    NamesDiffer();
    WordsAreVisible();
    TripAndLiftApply(w, "halt", "go", 20);
    var w1 := Apply(Apply(w, Trip("halt", 20)), Lift("go"));
    ResetApplies(w1, STALE_QUOTE, 3000, "less", 30);
    var w2 := Apply(w1, SetBaseline(STALE_QUOTE, 3000, "less", 30));
    TopUpApplies(w2, ENSEMBLE_DISAGREEMENT, 500, 40);
    w' := Apply(w2, Pay(ENSEMBLE_DISAGREEMENT, 500, 40));
  }

  lemma DayUnfolds(w: World, a: Command, b: Command, c: Command, d: Command, e: Command, f: Command, g: Command, h: Command)
    ensures Run(w, [a] + [b] + [c] + [d] + [e] + [f] + [g] + [h])
         == Apply(Apply(Apply(Apply(Apply(Apply(Apply(Apply(w, a), b), c), d), e), f), g), h)
  {
    RunOne(w, a);
    RunNext(w, [a], b);
    RunNext(w, [a] + [b], c);
    RunNext(w, [a] + [b] + [c], d);
    RunNext(w, [a] + [b] + [c] + [d], e);
    RunNext(w, [a] + [b] + [c] + [d] + [e], f);
    RunNext(w, [a] + [b] + [c] + [d] + [e] + [f], g);
    RunNext(w, [a] + [b] + [c] + [d] + [e] + [f] + [g], h);
  }

  /** Each command does what its operation says. */
  lemma OperatorsDay()
    ensures var l := Run(EMPTY_WORLD, Operating()).ledger;
            && l.system.state == SystemActive && ENSEMBLE_DISAGREEMENT in l.strategies && STALE_QUOTE in l.strategies
            && l.strategies[ENSEMBLE_DISAGREEMENT].bankroll == 6500 && l.strategies[ENSEMBLE_DISAGREEMENT].kellyFraction == 0.5
            && l.strategies[ENSEMBLE_DISAGREEMENT].state == OperatorPaused
            && l.strategies[STALE_QUOTE].bankroll == l.strategies[STALE_QUOTE].hwm == 3000
  {
    DayUnfolds(EMPTY_WORLD, Seed(10000, map[], 0), Take(ENSEMBLE_DISAGREEMENT, 4000, 10), Kelly(ENSEMBLE_DISAGREEMENT, 0.5),
               Move(ENSEMBLE_DISAGREEMENT, "halt", Pause), Trip("halt", 20), Lift("go"),
               SetBaseline(STALE_QUOTE, 3000, "less", 30), Pay(ENSEMBLE_DISAGREEMENT, 500, 40));
    SeedApplies(EMPTY_WORLD);
    var noon := Morning(Apply(EMPTY_WORLD, Seed(10000, map[], 0)));
    var night := Evening(noon, ROW1.(bankroll := 6000, kellyFraction := 0.5, state := OperatorPaused));
  }

  // ---------------------------------------------------------------- one model only

  function OneModelOpening(): seq<Command> {
    [SeedPlaces, Seed(10000, map[], 0), Ingest([LISTING], [], [Quote(QUARTER)], [GFS_ROW])]
  }

  lemma OneModelShared(d: SharedData)
    requires d == Persist(SeedLocations(EMPTY_SHARED), FetchResult([LISTING], [], [Quote(QUARTER)], [GFS_ROW]))
    ensures OneModelScene(d, QUARTER)
  {
    InsertLocationsMembers([], SEED_LOCATIONS);
    assert SEED_LOCATIONS[1] == PLACE;
    forall location | location in d.locations ensures Plain(location) { assert location in SEED_LOCATIONS; }
    assert [LISTING][..0] == [];
    assert UpsertAll([], [LISTING]) == [LISTING];
  }

  lemma OneModelWorld() returns (w: World)
    ensures w == Run(EMPTY_WORLD, OneModelOpening())
    ensures Ready(w.ledger) && OneModelScene(w.shared, QUARTER)
  {
    var ingest := Ingest([LISTING], [], [Quote(QUARTER)], [GFS_ROW]);
    var w1 := Apply(EMPTY_WORLD, SeedPlaces);
    var w2 := Apply(w1, Seed(10000, map[], 0));
    w := Apply(w2, ingest);
    RunThree(EMPTY_WORLD, SeedPlaces, Seed(10000, map[], 0), ingest);
    PlacesApply(EMPTY_WORLD);
    SeedApplies(w1);
    IngestApplies(w2, [LISTING], [Quote(QUARTER)], [GFS_ROW]);
    OneModelShared(w.shared);
  }

  /** With rows of one model the stale-quote strategy, which does not require the disagreement,
      drafts; the draft is recorded as stale and nobody trades. */
  lemma OneModelDraftIsRejected()
    ensures RejectedAsStale(Run(EMPTY_WORLD, OneModelOpening() + [TickAt(100)]).ledger)
  {
    var w := OneModelWorld();
    RunNext(EMPTY_WORLD, OneModelOpening(), TickAt(100));
    TickApplies(w, TickAt(100));
    OneModelTick(w.ledger, w.shared, QUARTER, 100, 100);
  }

  // ---------------------------------------------------------------- looking ahead

  const CLOSED := LISTING.(status := "settled")

  /** The market is closed after the tick's time. */
  function ClosedLater(): seq<Command> { Opening(QUARTER) + [Ingest([CLOSED], [], [], [])] }

  lemma NothingListed(d: SharedData, t: int)
    requires d.markets == [CLOSED]
    ensures MarketStates(d, t) == []
  {
    FilterOfOne(CLOSED, Tradable(t));
    assert ListOpenMarkets(d, t) == [];
  }

  lemma TickWithoutListing(l: Ledger, d: SharedData, t: int)
    requires d.markets == [CLOSED]
    ensures EngineTick(l, d, t, t) == Ok(TickState(l, Stats(0, 0)))
  {
    NothingListed(d, t);
    NoMarketsNoOrders(TickState(l, Stats(0, 0)), Strategies.REGISTERED, Fresh(l, IndexAt(d, t), Strategies.Evaluate, t));
  }

  lemma ClosingShared(d: SharedData)
    requires d.markets == [LISTING]
    ensures Persist(d, FetchResult([CLOSED], [], [], [])).markets == [CLOSED]
  {
    assert [CLOSED][..0] == [];
    assert UpsertAll([LISTING], [CLOSED]) == Upsert([LISTING], CLOSED);
  }

  /** A tick on `w` places two orders and one on `w'` none, though ledger, forecasts and quotes
      are the same. */
  ghost predicate OrdersErased(w: World, w': World) {
    && w'.ledger == w.ledger && w'.shared == w.shared.(markets := w'.shared.markets)
    && EngineTick(w.ledger, w.shared, 100, 100).Ok? && EngineTick(w.ledger, w.shared, 100, 100).value.stats.orders == 2
    && EngineTick(w'.ledger, w'.shared, 100, 100) == Ok(TickState(w.ledger, Stats(0, 0)))
  }

  lemma ClosedWorld() returns (w: World, w': World)
    ensures w == Run(EMPTY_WORLD, Opening(QUARTER)) && w' == Run(EMPTY_WORLD, ClosedLater())
    ensures Ready(w.ledger) && Scene(w.shared, QUARTER)
    ensures w'.ledger == w.ledger && w'.shared == w.shared.(markets := [CLOSED])
  {
    w := OpeningWorld(QUARTER);
    w' := Apply(w, Ingest([CLOSED], [], [], []));
    RunNext(EMPTY_WORLD, Opening(QUARTER), Ingest([CLOSED], [], [], []));
    IngestApplies(w, [CLOSED], [], []);
    ClosingShared(w.shared);
  }

  lemma ClosingErases(w: World, w': World)
    requires Ready(w.ledger) && Scene(w.shared, QUARTER)
    requires w'.ledger == w.ledger && w'.shared == w.shared.(markets := [CLOSED])
    ensures OrdersErased(w, w')
  {
    BothTrade(w.ledger, w.shared, QUARTER, 100, 100);
    TickWithoutListing(w'.ledger, w'.shared, 100);
  }

  /** Before the market row is overwritten the tick at 100 places two orders, afterwards none. */
  lemma ClosingLaterErasesTheOrders()
    ensures OrdersErased(Run(EMPTY_WORLD, Opening(QUARTER)), Run(EMPTY_WORLD, ClosedLater()))
  {
    var w, w' := ClosedWorld();
    ClosingErases(w, w');
  }

  // ---------------------------------------------------------------- order of settlement

  const WINNER := Order("W", Yes, 2, 0.5, 100)
  const LOSER := Order("L", Yes, 2, 0.5, 100)
  const WON := NewPosition(ENSEMBLE_DISAGREEMENT, WINNER)
  const LOST := NewPosition(ENSEMBLE_DISAGREEMENT, LOSER)
  const SPLIT := map["W" := YES, "L" := NO]
  const SPLIT_PAYLOADS := [("W", Some(Payload(Some("settled"), Some("yes")))), ("L", Some(Payload(Some("settled"), Some("no"))))]

  /** One strategy holds two contracts on each of two markets, which then settle differently. */
  function Splitting(): seq<Command> {
    [Seed(10000, map[], 0)] + [Place(ENSEMBLE_DISAGREEMENT, WINNER, None, 0, 0)]
    + [Place(ENSEMBLE_DISAGREEMENT, LOSER, None, 0, 0)]
    + [Ingest([], SPLIT_PAYLOADS, [], [])]
  }

  lemma PlaceApplies(w: World, order: Order)
    requires w.ledger.strategies == ROWS && w.ledger.system.state.SystemActive? && order in [WINNER, LOSER]
    requires Reserved(w.ledger.positions, ENSEMBLE_DISAGREEMENT) <= 9000
    ensures var w' := Apply(w, Place(ENSEMBLE_DISAGREEMENT, order, None, 0, 0));
            && w'.shared == w.shared && w'.ledger.strategies == ROWS && w'.ledger.system == w.ledger.system
            && w'.ledger.positions == w.ledger.positions + [NewPosition(ENSEMBLE_DISAGREEMENT, order)]
  {
    NamesDiffer();
    assert ExpectedCost(2, 0.5) == 100;
  }

  lemma SplitDrafts()
    ensures Collect(SPLIT_PAYLOADS, Decode()) == [("W", YES), ("L", NO)]
  {
    var first, second := ("W", Some(Payload(Some("settled"), Some("yes")))), ("L", Some(Payload(Some("settled"), Some("no"))));
    assert [first, second] == [first] + [second];
    CollectOne(first, Decode());
    CollectAppend([first], second, Decode());
  }

  lemma SplitKept(stored: map<string, Resolution>)
    requires stored == map[]
    ensures KeepFirst(stored, [("W", YES), ("L", NO)]) == SPLIT
  {
    assert [("W", YES), ("L", NO)][..1] == [("W", YES)];
    KeepOne(stored, "W", YES);
  }

  lemma SplitApplies(w: World, c: Command)
    requires w.shared.resolutions == map[] && c.Ingest?
    requires Collect(c.payloads, Decode()) == [("W", YES), ("L", NO)]
    ensures Apply(w, c).ledger == w.ledger && Apply(w, c).shared.resolutions == SPLIT
  {
    SplitKept(w.shared.resolutions);
  }

  lemma HeldWorld() returns (w: World)
    ensures w == Run(EMPTY_WORLD, Splitting())
    ensures w.ledger.strategies == ROWS && w.ledger.positions == [WON, LOST] && w.shared.resolutions == SPLIT
  {
    var seed := Seed(10000, map[], 0);
    var won, lost := Place(ENSEMBLE_DISAGREEMENT, WINNER, None, 0, 0), Place(ENSEMBLE_DISAGREEMENT, LOSER, None, 0, 0);
    var w0 := Apply(EMPTY_WORLD, seed);
    var w1 := Apply(w0, won);
    var w2 := Apply(w1, lost);
    RunOne(EMPTY_WORLD, seed);
    RunNext(EMPTY_WORLD, [seed], won);
    RunNext(EMPTY_WORLD, [seed] + [won], lost);
    SeedApplies(EMPTY_WORLD);
    NothingReserved(ENSEMBLE_DISAGREEMENT);
    PlaceApplies(w0, WINNER);
    assert [] + [WON] == [WON] && [WON][..0] == [];
    PlaceApplies(w1, LOSER);
    w := HeldAfter(w2);
  }

  lemma HeldAfter(w2: World) returns (w: World)
    requires w2 == Run(EMPTY_WORLD, Splitting()[..3]) && w2.shared.resolutions == map[]
    requires w2.ledger.strategies == ROWS && w2.ledger.positions == [WON] + [LOST]
    ensures w == Run(EMPTY_WORLD, Splitting())
    ensures w.ledger.strategies == ROWS && w.ledger.positions == [WON, LOST] && w.shared.resolutions == SPLIT
  {
    var ingest := Splitting()[3];
    assert Splitting() == Splitting()[..3] + [ingest];
    RunNext(EMPTY_WORLD, Splitting()[..3], ingest);
    SplitDrafts();
    SplitApplies(w2, ingest);
    w := Apply(w2, ingest);
  }

  lemma SplitResults()
    ensures PnlAt(WON, YES) == 100 && PnlAt(LOST, NO) == -100
  {
  }

  predicate Held(l: Ledger) { l.strategies == ROWS && l.positions == [WON, LOST] }

  lemma HeldIsOpen(l: Ledger)
    requires Held(l)
    ensures EnumeratesOpen(l, [0, 1]) && EnumeratesOpen(l, [1, 0])
  {
  }

  lemma ResolveTwo(l: Ledger, i: nat, j: nat, resolutions: Resolutions, now: int)
    ensures ResolveAll(l, [i, j], resolutions, now)
         == match ResolveOne(l, i, resolutions, now)
            case Err(e) => Err(e)
            case Ok(m) => ResolveOne(m, j, resolutions, now)
  {
    assert [i, j][..1] == [i] && [i][..0] == [];
    assert ResolveAll(l, [], resolutions, now) == Ok(l);
    assert ResolveAll(l, [i], resolutions, now) == ResolveOne(l, i, resolutions, now);
  }

  /** One of the two settles, and moves only its owner's row and its own. */
  lemma HeldSettles(l: Ledger, id: nat, s: Strategy, p: Position, pnl: int, now: int)
    requires l.strategies == ROWS[ENSEMBLE_DISAGREEMENT := s] && id < |l.positions| && l.positions[id] == p
    requires (p == WON && pnl == 100) || (p == LOST && pnl == -100)
    ensures var r := ResolveOne(l, id, SPLIT, now);
            && r.Ok? && r.value.positions == l.positions[id := SettledPosition(p, pnl, now)]
            && r.value.strategies
               == ROWS[ENSEMBLE_DISAGREEMENT := s.(bankroll := s.bankroll + pnl, hwm := Max(s.hwm, s.bankroll + pnl))]
  {
    SplitResults();
    SettlementRows(l, id, pnl, now);
  }

  lemma WinnerFirst(l: Ledger, now: int)
    requires Held(l)
    ensures ResolveAll(l, [0, 1], SPLIT, now).Ok?
    ensures ResolveAll(l, [0, 1], SPLIT, now).value.strategies == ROWS[ENSEMBLE_DISAGREEMENT := ROW1.(hwm := 10100)]
  {
    NamesDiffer();
    ResolveTwo(l, 0, 1, SPLIT, now);
    HeldSettles(l, 0, ROW1, WON, 100, now);
    HeldSettles(ResolveOne(l, 0, SPLIT, now).value, 1, ROW1.(bankroll := 10100, hwm := 10100), LOST, -100, now);
  }

  lemma LoserFirst(l: Ledger, now: int)
    requires Held(l)
    ensures ResolveAll(l, [1, 0], SPLIT, now).Ok?
    ensures ResolveAll(l, [1, 0], SPLIT, now).value.strategies == ROWS
  {
    NamesDiffer();
    ResolveTwo(l, 1, 0, SPLIT, now);
    HeldSettles(l, 1, ROW1, LOST, -100, now);
    HeldSettles(ResolveOne(l, 1, SPLIT, now).value, 0, ROW1.(bankroll := 9900), WON, 100, now);
  }

  /** Settling in either order leaves the same bankroll and another high-water mark. */
  lemma SplitSettles(l: Ledger, now: int)
    requires Held(l)
    ensures EnumeratesOpen(l, [0, 1]) && EnumeratesOpen(l, [1, 0])
    ensures SettleDue(l, [0, 1], SPLIT, now).strategies == ROWS[ENSEMBLE_DISAGREEMENT := ROW1.(hwm := 10100)]
    ensures SettleDue(l, [1, 0], SPLIT, now).strategies == ROWS
  {
    HeldIsOpen(l);
    WinnerFirst(l, now);
    LoserFirst(l, now);
  }

  /** A reachable world in which only the high-water mark tells the two orders apart. */
  lemma MarkDependsOnOrder()
    ensures var w := Run(EMPTY_WORLD, Splitting());
            var a := SettleDue(w.ledger, [0, 1], w.shared.resolutions, 200);
            var b := SettleDue(w.ledger, [1, 0], w.shared.resolutions, 200);
            && EnumeratesOpen(w.ledger, [0, 1]) && EnumeratesOpen(w.ledger, [1, 0])
            && ENSEMBLE_DISAGREEMENT in a.strategies && ENSEMBLE_DISAGREEMENT in b.strategies
            && a.strategies[ENSEMBLE_DISAGREEMENT].hwm == 10100 && b.strategies[ENSEMBLE_DISAGREEMENT].hwm == 10000
            && a.strategies[ENSEMBLE_DISAGREEMENT].bankroll == b.strategies[ENSEMBLE_DISAGREEMENT].bankroll == 10000
  {
    var w := HeldWorld();
    NamesDiffer();
    SplitSettles(w.ledger, 200);
  }
}
