/** What survives the nested tick loop: soundness, the exposure and correlation caps,
    one signal, fill and position per order, and when a tick commits at all. */
module TickTheorems {
  import opened Lists
  import opened Rounding
  import opened Domain
  import opened LedgerSpec
  import opened Invariants
  import opened WeatherUtils
  import opened Sizing
  import opened Tick
  import Strategies
  import Features

  // ---------------------------------------------------------------- soundness

  lemma ActKeepsSound(st: TickState, name: string, draft: SignalDraft, sizing: Result<Order, SignalOutcome>, now: int)
    requires Sound(st.ledger) && Act(st, name, draft, sizing, now).Ok?
    ensures Sound(Act(st, name, draft, sizing, now).value.ledger)
  {
    var row := SignalRow(name, draft, if sizing.Err? then sizing.error else OrderPlaced);
    RecordSignalKeepsSound(st.ledger, row);
    if sizing.Ok? {
      OpenPositionKeepsSound(RecordSignal(st.ledger, row).value, name, sizing.value, Some(|st.ledger.signals|), 0, now);
    }
  }

  lemma {:induction false} MarketsKeepSound(st: TickState, name: string, c: Context, markets: seq<MarketState>)
    requires Sound(st.ledger) && ConsiderMarkets(st, name, c, markets).Ok?
    ensures Sound(ConsiderMarkets(st, name, c, markets).value.ledger)
    decreases |markets|
  {
    if |markets| == 0 {
    } else {
      var market := markets[|markets| - 1];
      MarketsKeepSound(st, name, c, markets[..|markets| - 1]);
      var m := ConsiderMarkets(st, name, c, markets[..|markets| - 1]).value;
      if name in m.ledger.strategies {
        var features := Features.FeaturesForMarket(c.index, market.location, market.ticker);
        var draft := DraftFor(m, name, c, market);
        if draft.Some? {
          ActKeepsSound(m, name, draft.value, SizeOrder(InputFor(m.ledger, name, c, market, features, draft.value)), c.now);
        }
      }
    }
  }

  lemma {:induction false} StrategiesKeepSound(st: TickState, names: seq<string>, c: Context, markets: seq<MarketState>)
    requires Sound(st.ledger) && RunStrategies(st, names, c, markets).Ok?
    ensures Sound(RunStrategies(st, names, c, markets).value.ledger)
    decreases |names|
  {
    if |names| == 0 {
    } else {
      var name := names[|names| - 1];
      StrategiesKeepSound(st, names[..|names| - 1], c, markets);
      var m := RunStrategies(st, names[..|names| - 1], c, markets).value;
      if name in m.ledger.strategies && CanEmitSignals(m.ledger.strategies[name]) {
        MarketsKeepSound(m, name, c, markets);
      }
    }
  }

  // ---------------------------------------------------------------- the caps

  /** What a strategy has open on one settlement key. */
  function KeyedCost(name: string, key: string): Position -> int {
    (p: Position) =>
      if p.strategy == name && p.status.Open? && SettlementKey(p.ticker) == Some(key) then p.costBasis else 0
  }

  function ReservedOn(positions: seq<Position>, name: string, key: string): int {
    SumBy(positions, KeyedCost(name, key))
  }

  lemma {:induction false} SumByFilter<T>(xs: seq<T>, p: T -> bool, f: T -> int, g: T -> int)
    requires forall x :: x in xs ==> g(x) == if p(x) then f(x) else 0
    ensures SumBy(Filter(xs, p), f) == SumBy(xs, g)
    decreases |xs|
  {
    if |xs| == 0 {
    } else {
      var front, last := xs[..|xs| - 1], xs[|xs| - 1];
      assert last in xs;
      SumByFilter(front, p, f, g);
      if p(last) { SumByAppend(Filter(front, p), last, f); }
    }
  }

  /** The positions passed to sizing carry exactly the strategy's reservations. */
  lemma OwnPositionsSum(positions: seq<Position>, name: string, key: string)
    ensures SumBy(OpenPositionsOf(positions, name), CostIfOpen()) == Reserved(positions, name)
    ensures SumBy(OpenPositionsOf(positions, name), CostIfKeyed(key)) == ReservedOn(positions, name, key)
  {
    SumByFilter(positions, OwnOpen(name), CostIfOpen(), OpenCost(name));
    SumByFilter(positions, OwnOpen(name), CostIfKeyed(key), KeyedCost(name, key));
  }

  /** Some position of `name` was opened after the first `from` ones. */
  predicate Grew(positions: seq<Position>, from: nat, name: string) {
    exists i :: from <= i < |positions| && positions[i].strategy == name
  }

  predicate GrewOn(positions: seq<Position>, from: nat, name: string, key: string) {
    exists i :: from <= i < |positions| && positions[i].strategy == name && SettlementKey(positions[i].ticker) == Some(key)
  }

  /** The state of one strategy and key after some prefix of a tick that began at `l0`. */
  predicate WithinCaps(l0: Ledger, l: Ledger, total: int, name: string, key: string) {
    && l.strategies == l0.strategies && l.cash == l0.cash && l.system == l0.system
    && l0.positions <= l.positions
    && (name in l0.strategies ==>
          && (if Grew(l.positions, |l0.positions|, name)
              then Reserved(l.positions, name) <= ExposureCap(l0.strategies[name].config, total)
              else Reserved(l.positions, name) == Reserved(l0.positions, name))
          && (if GrewOn(l.positions, |l0.positions|, name, key)
              then ReservedOn(l.positions, name, key)
                   <= CorrelationCap(l0.strategies[name].config, l0.strategies[name].bankroll)
              else ReservedOn(l.positions, name, key) == ReservedOn(l0.positions, name, key)))
  }

  /** Strategies speak about the market they were asked about. */
  ghost predicate OnMarket(evaluate: Evaluator) {
    forall name, market, features, config ::
      evaluate(name, market, features, config).Some? ==>
        evaluate(name, market, features, config).value.ticker == market.ticker
  }

  lemma RegisteredStrategiesStayOnMarket()
    ensures OnMarket(Strategies.Evaluate)
  {
  }

  /** One order that sizing accepted on the strategy's current reservations. */
  lemma OrderKeepsCaps(
    l0: Ledger, l: Ledger, l': Ledger, total: int, owner: string, order: Order, name: string, key: string)
    requires WithinCaps(l0, l, total, name, key) && owner in l.strategies
    requires l'.strategies == l.strategies && l'.cash == l.cash && l'.system == l.system
    requires l'.positions == l.positions + [NewPosition(owner, order)]
    requires Reserved(l.positions, owner) + order.costBasis <= ExposureCap(l.strategies[owner].config, total)
    requires SettlementKey(order.ticker) == Some(key) ==>
               ReservedOn(l.positions, owner, key) + order.costBasis
               <= CorrelationCap(l.strategies[owner].config, l.strategies[owner].bankroll)
    ensures WithinCaps(l0, l', total, name, key)
  {
    var p, n := NewPosition(owner, order), |l.positions|;
    SumByAppend(l.positions, p, OpenCost(name));
    SumByAppend(l.positions, p, KeyedCost(name, key));
    assert l'.positions[n] == p;
    assert Grew(l'.positions, |l0.positions|, name) <==> Grew(l.positions, |l0.positions|, name) || owner == name by {
      if Grew(l.positions, |l0.positions|, name) {
        var i :| |l0.positions| <= i < n && l.positions[i].strategy == name;
        assert l'.positions[i] == l.positions[i];
      }
    }
    assert GrewOn(l'.positions, |l0.positions|, name, key)
           <==> GrewOn(l.positions, |l0.positions|, name, key) || (owner == name && SettlementKey(order.ticker) == Some(key)) by {
      if GrewOn(l.positions, |l0.positions|, name, key) {
        var i :| |l0.positions| <= i < n && l.positions[i].strategy == name && SettlementKey(l.positions[i].ticker) == Some(key);
        assert l'.positions[i] == l.positions[i];
      }
    }
  }

  lemma ActKeepsCaps(
    l0: Ledger, st: TickState, owner: string, c: Context, market: MarketState, features: FeatureMap, draft: SignalDraft,
    name: string, key: string)
    requires WithinCaps(l0, st.ledger, c.totalBankroll, name, key) && owner in st.ledger.strategies
    requires draft.ticker == market.ticker
    requires Act(st, owner, draft, SizeOrder(InputFor(st.ledger, owner, c, market, features, draft)), c.now).Ok?
    ensures WithinCaps(l0, Act(st, owner, draft, SizeOrder(InputFor(st.ledger, owner, c, market, features, draft)), c.now).value.ledger,
                       c.totalBankroll, name, key)
  {
    var x := InputFor(st.ledger, owner, c, market, features, draft);
    var sizing := SizeOrder(x);
    var st' := Act(st, owner, draft, sizing, c.now).value;
    if sizing.Ok? {
      SizedOrderIsBounded(x);
      OwnPositionsSum(st.ledger.positions, owner, key);
      assert !CorrelationExceeded(x, sizing.value.costBasis);
      OrderKeepsCaps(l0, st.ledger, st'.ledger, c.totalBankroll, owner, sizing.value, name, key);
    }
  }

  lemma {:induction false} MarketsKeepCaps(
    l0: Ledger, st: TickState, owner: string, c: Context, markets: seq<MarketState>, name: string, key: string)
    requires WithinCaps(l0, st.ledger, c.totalBankroll, name, key) && OnMarket(c.evaluate)
    requires ConsiderMarkets(st, owner, c, markets).Ok?
    ensures WithinCaps(l0, ConsiderMarkets(st, owner, c, markets).value.ledger, c.totalBankroll, name, key)
    decreases |markets|
  {
    if |markets| == 0 {
    } else {
      var market := markets[|markets| - 1];
      MarketsKeepCaps(l0, st, owner, c, markets[..|markets| - 1], name, key);
      var m := ConsiderMarkets(st, owner, c, markets[..|markets| - 1]).value;
      if owner in m.ledger.strategies {
        var draft := DraftFor(m, owner, c, market);
        if draft.Some? {
          ActKeepsCaps(l0, m, owner, c, market,
                       Features.FeaturesForMarket(c.index, market.location, market.ticker), draft.value, name, key);
        }
      }
    }
  }

  lemma {:induction false} StrategiesKeepCaps(
    l0: Ledger, st: TickState, names: seq<string>, c: Context, markets: seq<MarketState>, name: string, key: string)
    requires WithinCaps(l0, st.ledger, c.totalBankroll, name, key) && OnMarket(c.evaluate)
    requires RunStrategies(st, names, c, markets).Ok?
    ensures WithinCaps(l0, RunStrategies(st, names, c, markets).value.ledger, c.totalBankroll, name, key)
    decreases |names|
  {
    if |names| == 0 {
    } else {
      StrategiesKeepCaps(l0, st, names[..|names| - 1], c, markets, name, key);
      var m := RunStrategies(st, names[..|names| - 1], c, markets).value;
      var last := names[|names| - 1];
      if last in m.ledger.strategies && CanEmitSignals(m.ledger.strategies[last]) {
        MarketsKeepCaps(l0, m, last, c, markets, name, key);
      }
    }
  }

  /** What a strategy has open on all markets that settle on `date`, whatever their strike. */
  ghost function DateCost(name: string, date: string): Position -> int {
    (p: Position) => if p.strategy == name && p.status.Open? && SettlesOn(p.ticker, date) then p.costBasis else 0
  }

  ghost function OpenOnDate(positions: seq<Position>, name: string, date: string): int {
    SumBy(positions, DateCost(name, date))
  }

  /** Some position of `name` on that date was opened after the first `from` ones. */
  ghost predicate GrewOnDate(positions: seq<Position>, from: nat, name: string, date: string) {
    exists i :: from <= i < |positions| && positions[i].strategy == name && SettlesOn(positions[i].ticker, date)
  }

  lemma KeysAreDates(positions: seq<Position>, from: nat, name: string, date: string)
    ensures ReservedOn(positions, name, date) == OpenOnDate(positions, name, date)
    ensures GrewOn(positions, from, name, date) <==> GrewOnDate(positions, from, name, date)
  {
    forall p: Position ensures KeyedCost(name, date)(p) == DateCost(name, date)(p) { KeyIsTheDate(p.ticker, date); }
    SumBySame(positions, KeyedCost(name, date), DateCost(name, date));
    forall i | 0 <= i < |positions| ensures SettlementKey(positions[i].ticker) == Some(date) <==> SettlesOn(positions[i].ticker, date) {
      KeyIsTheDate(positions[i].ticker, date);
    }
  }

  /** After a tick, a strategy that placed an order has no more open than its exposure cap on the
      total bankroll, and on the markets of a date it grew no more than its correlation cap on
      its own; and everything else is as it was. */
  lemma CapsSurviveTheTick(
    l: Ledger, names: seq<string>, evaluate: Evaluator, index: seq<FeatureValue>, markets: seq<MarketState>, now: int,
    name: string, date: string)
    requires OnMarket(evaluate) && TickWith(l, names, evaluate, index, markets, now).Ok? && name in l.strategies
    ensures var l' := TickWith(l, names, evaluate, index, markets, now).value.ledger;
            var s := l.strategies[name];
            && l'.strategies == l.strategies && l'.cash == l.cash && l.positions <= l'.positions
            && (if Grew(l'.positions, |l.positions|, name)
                then Reserved(l'.positions, name) <= ExposureCap(s.config, TotalBankroll(l'.strategies))
                else Reserved(l'.positions, name) == Reserved(l.positions, name))
            && (if GrewOnDate(l'.positions, |l.positions|, name, date)
                then OpenOnDate(l'.positions, name, date) <= CorrelationCap(s.config, s.bankroll)
                else OpenOnDate(l'.positions, name, date) == OpenOnDate(l.positions, name, date))
  {
    var c := Fresh(l, index, evaluate, now);
    assert WithinCaps(l, l, c.totalBankroll, name, date);
    StrategiesKeepCaps(l, TickState(l, Stats(0, 0)), names, c, markets, name, date);
    KeysAreDates(l.positions, 0, name, date);
    KeysAreDates(TickWith(l, names, evaluate, index, markets, now).value.ledger.positions, |l.positions|, name, date);
  }

  // ---------------------------------------------------------------- one signal, one fill, one position

  function FillFor(signal: nat): Fill -> Option<nat> {
    (f: Fill) => if f.signal == Some(signal) then Some(f.position) else None
  }

  /** Every fill comes from a signal, and a signal has one fill if it placed an order and none
      otherwise. */
  ghost predicate Matched(l: Ledger) {
    && (forall f :: f in l.fills ==> f.signal.Some? && f.signal.value < |l.signals|)
    && (forall k :: 0 <= k < |l.signals| ==>
          |Collect(l.fills, FillFor(k))| == if l.signals[k].outcome.OrderPlaced? then 1 else 0)
  }

  lemma ActKeepsMatched(st: TickState, name: string, draft: SignalDraft, sizing: Result<Order, SignalOutcome>, now: int)
    requires Matched(st.ledger) && Act(st, name, draft, sizing, now).Ok?
    requires sizing.Err? ==> !sizing.error.OrderPlaced?
    ensures var st' := Act(st, name, draft, sizing, now).value;
            && Matched(st'.ledger)
            && |st'.ledger.signals| - |st.ledger.signals| == st'.stats.signals - st.stats.signals == 1
            && |st'.ledger.fills| - |st.ledger.fills| == st'.stats.orders - st.stats.orders
            && |st'.ledger.positions| - |st.ledger.positions| == st'.stats.orders - st.stats.orders
  {
    var l, l' := st.ledger, Act(st, name, draft, sizing, now).value.ledger;
    var id := |l.signals|;
    forall i | 0 <= i < |l.fills| ensures FillFor(id)(l.fills[i]).None? {
      assert l.fills[i] in l.fills;
    }
    CollectNone(l.fills, FillFor(id));
    forall k | 0 <= k < |l'.signals|
      ensures |Collect(l'.fills, FillFor(k))| == if l'.signals[k].outcome.OrderPlaced? then 1 else 0
    {
      if sizing.Ok? { CollectAppend(l.fills, l'.fills[|l.fills|], FillFor(k)); }
    }
  }

  /** Sizing never answers with the outcome of a placed order. */
  lemma RejectionsAreNotOrders(x: SizingInput)
    ensures SizeOrder(x).Err? ==> !SizeOrder(x).error.OrderPlaced?
  {
  }

  predicate Counted(l0: Ledger, st: TickState) {
    && |st.ledger.signals| == |l0.signals| + st.stats.signals
    && |st.ledger.fills| == |l0.fills| + st.stats.orders
    && |st.ledger.positions| == |l0.positions| + st.stats.orders
  }

  lemma {:induction false} MarketsKeepMatched(l0: Ledger, st: TickState, name: string, c: Context, markets: seq<MarketState>)
    requires Matched(st.ledger) && Counted(l0, st) && ConsiderMarkets(st, name, c, markets).Ok?
    ensures var st' := ConsiderMarkets(st, name, c, markets).value; Matched(st'.ledger) && Counted(l0, st')
    decreases |markets|
  {
    if |markets| == 0 {
    } else {
      var market := markets[|markets| - 1];
      MarketsKeepMatched(l0, st, name, c, markets[..|markets| - 1]);
      var m := ConsiderMarkets(st, name, c, markets[..|markets| - 1]).value;
      if name in m.ledger.strategies {
        var draft := DraftFor(m, name, c, market);
        if draft.Some? {
          var features := Features.FeaturesForMarket(c.index, market.location, market.ticker);
          var x := InputFor(m.ledger, name, c, market, features, draft.value);
          RejectionsAreNotOrders(x);
          ActKeepsMatched(m, name, draft.value, SizeOrder(x), c.now);
        }
      }
    }
  }

  lemma {:induction false} StrategiesKeepMatched(
    l0: Ledger, st: TickState, names: seq<string>, c: Context, markets: seq<MarketState>)
    requires Matched(st.ledger) && Counted(l0, st) && RunStrategies(st, names, c, markets).Ok?
    ensures var st' := RunStrategies(st, names, c, markets).value; Matched(st'.ledger) && Counted(l0, st')
    decreases |names|
  {
    if |names| == 0 {
    } else {
      StrategiesKeepMatched(l0, st, names[..|names| - 1], c, markets);
      var m := RunStrategies(st, names[..|names| - 1], c, markets).value;
      var name := names[|names| - 1];
      if name in m.ledger.strategies && CanEmitSignals(m.ledger.strategies[name]) {
        MarketsKeepMatched(l0, m, name, c, markets);
      }
    }
  }

  /** A tick adds one fill and one position per order-placing signal, and counts them right. */
  lemma TickKeepsRecordsMatched(
    l: Ledger, names: seq<string>, evaluate: Evaluator, index: seq<FeatureValue>, markets: seq<MarketState>, now: int)
    requires Sound(l) && Matched(l) && TickWith(l, names, evaluate, index, markets, now).Ok?
    ensures var st := TickWith(l, names, evaluate, index, markets, now).value;
            && Sound(st.ledger) && Matched(st.ledger)
            && |st.ledger.signals| == |l.signals| + st.stats.signals
            && |st.ledger.positions| == |l.positions| + st.stats.orders
  {
    var c := Fresh(l, index, evaluate, now);
    StrategiesKeepSound(TickState(l, Stats(0, 0)), names, c, markets);
    StrategiesKeepMatched(l, TickState(l, Stats(0, 0)), names, c, markets);
  }

  // ---------------------------------------------------------------- when a tick commits

  /** Some strategy that may emit signals has one on some market. */
  predicate AnySignal(l: Ledger, names: seq<string>, c: Context, markets: seq<MarketState>) {
    exists i, j :: 0 <= i < |names| && 0 <= j < |markets| && SignalsOn(l, names[i], c, markets[j])
  }

  predicate SignalsOn(l: Ledger, name: string, c: Context, market: MarketState) {
    && name in l.strategies && CanEmitSignals(l.strategies[name])
    && DraftFor(TickState(l, Stats(0, 0)), name, c, market).Some?
  }

  lemma {:induction false} PausedMarkets(st: TickState, name: string, c: Context, markets: seq<MarketState>)
    requires c.system.SystemPaused? && st.ledger.system.state.SystemPaused?
    requires name in st.ledger.strategies && CanEmitSignals(st.ledger.strategies[name])
    ensures ConsiderMarkets(st, name, c, markets)
         == if exists j :: 0 <= j < |markets| && SignalsOn(st.ledger, name, c, markets[j])
            then Err(KillSwitchActive) else Ok(st)
    decreases |markets|
  {
    if |markets| == 0 {
    } else {
      var front, last := markets[..|markets| - 1], |markets| - 1;
      PausedMarkets(st, name, c, front);
      if exists j :: 0 <= j < |front| && SignalsOn(st.ledger, name, c, front[j]) {
        var j :| 0 <= j < |front| && SignalsOn(st.ledger, name, c, front[j]);
        assert SignalsOn(st.ledger, name, c, markets[j]);
      } else {
        assert forall j :: 0 <= j < last && SignalsOn(st.ledger, name, c, markets[j]) ==> SignalsOn(st.ledger, name, c, front[j]);
      }
    }
  }

  lemma {:induction false} PausedStrategies(st: TickState, names: seq<string>, c: Context, markets: seq<MarketState>)
    requires c.system.SystemPaused? && st.ledger.system.state.SystemPaused?
    ensures RunStrategies(st, names, c, markets)
         == if AnySignal(st.ledger, names, c, markets) then Err(KillSwitchActive) else Ok(st)
    decreases |names|
  {
    if |names| == 0 {
    } else {
      var front, last := names[..|names| - 1], |names| - 1;
      PausedStrategies(st, front, c, markets);
      if AnySignal(st.ledger, front, c, markets) {
        var i, j :| 0 <= i < |front| && 0 <= j < |markets| && SignalsOn(st.ledger, front[i], c, markets[j]);
        assert SignalsOn(st.ledger, names[i], c, markets[j]);
      } else {
        assert forall i, j :: 0 <= i < last && 0 <= j < |markets| && SignalsOn(st.ledger, names[i], c, markets[j]) ==>
                 SignalsOn(st.ledger, front[i], c, markets[j]);
        if names[last] in st.ledger.strategies && CanEmitSignals(st.ledger.strategies[names[last]]) {
          PausedMarkets(st, names[last], c, markets);
        }
      }
    }
  }

  /** Under the kill switch a tick changes nothing. It does not record rejected signals
      either: the first signal makes it fail, so REJECTED_SYSTEM_PAUSED is never stored. */
  lemma PausedTick(
    l: Ledger, names: seq<string>, evaluate: Evaluator, index: seq<FeatureValue>, markets: seq<MarketState>, now: int)
    requires l.system.state.SystemPaused?
    ensures TickWith(l, names, evaluate, index, markets, now)
         == if AnySignal(l, names, Fresh(l, index, evaluate, now), markets)
            then Err(KillSwitchActive) else Ok(TickState(l, Stats(0, 0)))
  {
    PausedStrategies(TickState(l, Stats(0, 0)), names, Fresh(l, index, evaluate, now), markets);
  }

  predicate QuotedInCents(market: MarketState) {
    && (market.ask.Some? ==> WholeCents(market.ask.value))
    && (market.bid.Some? ==> WholeCents(market.bid.value))
  }

  lemma EntryInCents(side: Side, market: MarketState)
    requires QuotedInCents(market) && EntryPrice(side, market).Some?
    ensures WholeCents(EntryPrice(side, market).value)
  {
    if side.No? {
      var bid := market.bid.value;
      assert (1.0 - bid) * 100.0 == 100.0 - bid * 100.0;
      IntegersAreWhole((1.0 - bid) * 100.0, 100 - (bid * 100.0).Floor);
    }
  }

  /** The order that strategy `name` sizes on `market` in this state of the tick, if any. */
  function OrderIn(st: TickState, name: string, c: Context, market: MarketState): Option<Order>
    requires name in st.ledger.strategies
  {
    var draft := DraftFor(st, name, c, market);
    if draft.None? then None
    else
      var features := Features.FeaturesForMarket(c.index, market.location, market.ticker);
      var sizing := SizeOrder(InputFor(st.ledger, name, c, market, features, draft.value));
      if sizing.Ok? then Some(sizing.value) else None
  }

  /** The writer rounds the order's value half up and finds another cost, or none. */
  predicate Refused(o: Order) {
    var worth := Notional(o.qty, o.price);
    worth < 1.0 || worth - worth.Floor as real >= 0.5
  }

  function Refusal(o: Order): LedgerError {
    if Notional(o.qty, o.price) < 1.0 then CostNotPositive else CostMismatch(o.costBasis + 1)
  }

  predicate RefusedIn(st: TickState, name: string, c: Context, market: MarketState)
    requires name in st.ledger.strategies
  {
    OrderIn(st, name, c, market).Some? && Refused(OrderIn(st, name, c, market).value)
  }

  /** With the system active, one evaluation fails exactly when its order is refused. */
  lemma MarketFailsIff(st: TickState, name: string, c: Context, market: MarketState)
    requires st.ledger.system.state.SystemActive? && name in st.ledger.strategies
    ensures var r := ConsiderMarket(st, name, c, market);
            if RefusedIn(st, name, c, market) then r == Err(Refusal(OrderIn(st, name, c, market).value))
            else r.Ok? && r.value.ledger.system == st.ledger.system && r.value.ledger.strategies == st.ledger.strategies
  {
    var draft := DraftFor(st, name, c, market);
    if draft.Some? {
      var features := Features.FeaturesForMarket(c.index, market.location, market.ticker);
      var x := InputFor(st.ledger, name, c, market, features, draft.value);
      ActFailsIff(st, name, x, c.now);
    }
  }

  lemma ActFailsIff(st: TickState, name: string, x: SizingInput, now: int)
    requires st.ledger.system.state.SystemActive? && name in st.ledger.strategies
    requires x.freeCash == FreeCash(st.ledger, name)
    ensures var sizing := SizeOrder(x);
            var r := Act(st, name, x.signal, sizing, now);
            if sizing.Ok? && Refused(sizing.value) then r == Err(Refusal(sizing.value))
            else r.Ok? && r.value.ledger.system == st.ledger.system && r.value.ledger.strategies == st.ledger.strategies
  {
    var sizing := SizeOrder(x);
    if sizing.Ok? {
      var recorded := RecordSignal(st.ledger, SignalRow(name, x.signal, OrderPlaced)).value;
      SizedOrderMeetsLedger(x, recorded, name, |st.ledger.signals|, now);
    }
    if Act(st, name, x.signal, sizing, now).Ok? { ActKeepsStrategies(st, name, x.signal, sizing, now); }
  }

  predicate RefusedBefore(st: TickState, name: string, c: Context, markets: seq<MarketState>, j: nat)
    requires j < |markets|
  {
    var r := ConsiderMarkets(st, name, c, markets[..j]);
    r.Ok? && name in r.value.ledger.strategies && RefusedIn(r.value, name, c, markets[j])
  }

  predicate SameRows(l: Ledger, l': Ledger) { l'.system == l.system && l'.strategies == l.strategies }

  lemma {:induction false} MarketsKeepRows(st: TickState, name: string, c: Context, markets: seq<MarketState>)
    requires ConsiderMarkets(st, name, c, markets).Ok?
    ensures SameRows(st.ledger, ConsiderMarkets(st, name, c, markets).value.ledger)
    decreases |markets|
  {
    if |markets| == 0 {
    } else {
      var front, market := markets[..|markets| - 1], markets[|markets| - 1];
      MarketsKeepRows(st, name, c, front);
      MarketKeepsRows(ConsiderMarkets(st, name, c, front).value, name, c, market);
    }
  }

  lemma MarketKeepsRows(st: TickState, name: string, c: Context, market: MarketState)
    requires ConsiderMarket(st, name, c, market).Ok?
    ensures SameRows(st.ledger, ConsiderMarket(st, name, c, market).value.ledger)
  {
    if name in st.ledger.strategies && DraftFor(st, name, c, market).Some? {
      var features := Features.FeaturesForMarket(c.index, market.location, market.ticker);
      var draft := DraftFor(st, name, c, market).value;
      ActKeepsStrategies(st, name, draft, SizeOrder(InputFor(st.ledger, name, c, market, features, draft)), c.now);
    }
  }

  /** The first refused order ends the strategy's turn with its error. */
  lemma RefusalStopsMarkets(st: TickState, name: string, c: Context, markets: seq<MarketState>, j: nat)
    requires st.ledger.system.state.SystemActive? && j < |markets| && RefusedBefore(st, name, c, markets, j)
    ensures ConsiderMarkets(st, name, c, markets)
         == Err(Refusal(OrderIn(ConsiderMarkets(st, name, c, markets[..j]).value, name, c, markets[j]).value))
  {
    MarketsKeepRows(st, name, c, markets[..j]);
    MarketFailsIff(ConsiderMarkets(st, name, c, markets[..j]).value, name, c, markets[j]);
    assert markets[..j + 1][..j] == markets[..j];
    MarketsStop(st, name, c, markets, j + 1);
  }

  /** Nothing else does. */
  lemma {:induction false} MarketsFailOnRefusal(st: TickState, name: string, c: Context, markets: seq<MarketState>) returns (j: nat)
    requires st.ledger.system.state.SystemActive? && name in st.ledger.strategies
    requires ConsiderMarkets(st, name, c, markets).Err?
    ensures j < |markets| && RefusedBefore(st, name, c, markets, j)
    decreases |markets|
  {
    var last := |markets| - 1;
    var front := markets[..last];
    if ConsiderMarkets(st, name, c, front).Err? {
      j := MarketsFailOnRefusal(st, name, c, front);
      assert front[..j] == markets[..j];
    } else {
      j := last;
      MarketsKeepRows(st, name, c, front);
      MarketFailsIff(ConsiderMarkets(st, name, c, front).value, name, c, markets[last]);
    }
  }

  // ---------------------------------------------------------------- the same for the whole tick

  /** The tick reaches strategy `i`, its turn reaches market `j`, and the order it then sizes
      is refused. */
  predicate RefusedAt(st: TickState, names: seq<string>, c: Context, markets: seq<MarketState>, i: nat, j: nat)
    requires i < |names| && j < |markets|
  {
    var r := RunStrategies(st, names[..i], c, markets);
    && r.Ok? && names[i] in r.value.ledger.strategies && CanEmitSignals(r.value.ledger.strategies[names[i]])
    && RefusedBefore(r.value, names[i], c, markets, j)
  }

  function RefusedOrder(st: TickState, names: seq<string>, c: Context, markets: seq<MarketState>, i: nat, j: nat): Order
    requires i < |names| && j < |markets| && RefusedAt(st, names, c, markets, i, j)
  {
    var m := RunStrategies(st, names[..i], c, markets).value;
    OrderIn(ConsiderMarkets(m, names[i], c, markets[..j]).value, names[i], c, markets[j]).value
  }

  lemma {:induction false} StrategiesKeepRows(st: TickState, names: seq<string>, c: Context, markets: seq<MarketState>)
    requires RunStrategies(st, names, c, markets).Ok?
    ensures SameRows(st.ledger, RunStrategies(st, names, c, markets).value.ledger)
    decreases |names|
  {
    if |names| == 0 {
    } else {
      var front, name := names[..|names| - 1], names[|names| - 1];
      StrategiesKeepRows(st, front, c, markets);
      var m := RunStrategies(st, front, c, markets).value;
      if name in m.ledger.strategies && CanEmitSignals(m.ledger.strategies[name]) { MarketsKeepRows(m, name, c, markets); }
    }
  }

  lemma RefusalStopsStrategies(st: TickState, names: seq<string>, c: Context, markets: seq<MarketState>, i: nat, j: nat)
    requires st.ledger.system.state.SystemActive? && i < |names| && j < |markets| && RefusedAt(st, names, c, markets, i, j)
    ensures RunStrategies(st, names, c, markets) == Err(Refusal(RefusedOrder(st, names, c, markets, i, j)))
  {
    StrategiesKeepRows(st, names[..i], c, markets);
    RefusalStopsMarkets(RunStrategies(st, names[..i], c, markets).value, names[i], c, markets, j);
    assert names[..i + 1][..i] == names[..i];
    StrategiesStop(st, names, c, markets, i + 1);
  }

  lemma {:induction false} StrategiesFailOnRefusal(st: TickState, names: seq<string>, c: Context, markets: seq<MarketState>)
    returns (i: nat, j: nat)
    requires st.ledger.system.state.SystemActive? && RunStrategies(st, names, c, markets).Err?
    ensures i < |names| && j < |markets| && RefusedAt(st, names, c, markets, i, j)
    decreases |names|
  {
    var last := |names| - 1;
    var front := names[..last];
    if RunStrategies(st, front, c, markets).Err? {
      i, j := StrategiesFailOnRefusal(st, front, c, markets);
      assert front[..i] == names[..i];
    } else {
      i := last;
      StrategiesKeepRows(st, front, c, markets);
      j := MarketsFailOnRefusal(RunStrategies(st, front, c, markets).value, names[last], c, markets);
    }
  }

  /** With the system active a tick fails exactly when, at some strategy and market that its
      loops reach, the order sized there is worth less than a cent or has half a cent or more
      over; and it fails with the writer's error for that order. */
  lemma TickFailsIff(
    l: Ledger, names: seq<string>, evaluate: Evaluator, index: seq<FeatureValue>, markets: seq<MarketState>, now: int)
    requires l.system.state.SystemActive?
    ensures var r, st, c := TickWith(l, names, evaluate, index, markets, now), TickState(l, Stats(0, 0)), Fresh(l, index, evaluate, now);
            && (r.Err? <==> exists i, j :: 0 <= i < |names| && 0 <= j < |markets| && RefusedAt(st, names, c, markets, i, j))
            && (forall i, j :: 0 <= i < |names| && 0 <= j < |markets| && RefusedAt(st, names, c, markets, i, j) ==>
                  r == Err(Refusal(RefusedOrder(st, names, c, markets, i, j))))
  {
    var st, c := TickState(l, Stats(0, 0)), Fresh(l, index, evaluate, now);
    if TickWith(l, names, evaluate, index, markets, now).Err? {
      var i, j := StrategiesFailOnRefusal(st, names, c, markets);
    }
    forall i, j | 0 <= i < |names| && 0 <= j < |markets| && RefusedAt(st, names, c, markets, i, j)
      ensures TickWith(l, names, evaluate, index, markets, now) == Err(Refusal(RefusedOrder(st, names, c, markets, i, j)))
    {
      RefusalStopsStrategies(st, names, c, markets, i, j);
    }
  }

  /** An order at a whole-cent quote is never refused. */
  lemma WholeCentOrdersPass(st: TickState, name: string, c: Context, market: MarketState)
    requires name in st.ledger.strategies && QuotedInCents(market)
    ensures !RefusedIn(st, name, c, market)
  {
    var draft := DraftFor(st, name, c, market);
    if OrderIn(st, name, c, market).Some? {
      var features := Features.FeaturesForMarket(c.index, market.location, market.ticker);
      var x := InputFor(st.ledger, name, c, market, features, draft.value);
      var o := SizeOrder(x).value;
      SizedOrderIsBounded(x);
      EntryInCents(o.side, market);
      WholeCentNotional(o.qty, o.price);
    }
  }

  /** So at whole-cent quotes every active tick commits. */
  lemma WholeCentTickCommits(
    l: Ledger, names: seq<string>, evaluate: Evaluator, index: seq<FeatureValue>, markets: seq<MarketState>, now: int)
    requires l.system.state.SystemActive? && forall j :: 0 <= j < |markets| ==> QuotedInCents(markets[j])
    ensures TickWith(l, names, evaluate, index, markets, now).Ok?
  {
    var st, c := TickState(l, Stats(0, 0)), Fresh(l, index, evaluate, now);
    if TickWith(l, names, evaluate, index, markets, now).Err? {
      var i, j := StrategiesFailOnRefusal(st, names, c, markets);
      var m := RunStrategies(st, names[..i], c, markets).value;
      WholeCentOrdersPass(ConsiderMarkets(m, names[i], c, markets[..j]).value, names[i], c, markets[j]);
      assert false;
    }
  }
}
