/** What the exposure cap bounds over all strategies together (core/risk/sizing.py). It is a
    share of the total bankroll, but each strategy is measured against it alone. */
module Exposure {
  import opened Lists
  import opened Domain
  import opened LedgerSpec
  import opened Invariants
  import opened WeatherUtils
  import opened Sizing
  import opened Tick
  import opened TickTheorems
  import opened ResolutionTick

  /** What is open in all, and outside one strategy. */
  function TotalOpen(positions: seq<Position>): int { SumBy(positions, CostIfOpen()) }

  function OtherCost(name: string): Position -> int {
    (p: Position) => if p.strategy != name && p.status.Open? then p.costBasis else 0
  }

  function OthersReserved(positions: seq<Position>, name: string): int { SumBy(positions, OtherCost(name)) }

  lemma {:induction false} TotalSplits(positions: seq<Position>, name: string)
    ensures TotalOpen(positions) == Reserved(positions, name) + OthersReserved(positions, name)
    decreases |positions|
  {
    if |positions| == 0 {
    } else {
      TotalSplits(positions[..|positions| - 1], name);
    }
  }

  /** An order that sizing accepted on the ledger and the writer booked: the strategy's own
      reservation stays below the cap; everything open does exactly when what the others have
      open fits into what the strategy leaves of it. */
  lemma ExposureCapIsGlobalIff(l: Ledger, name: string, x: SizingInput, signal: Option<nat>, now: int)
    requires name in l.strategies && x.openPositions == OpenPositionsOf(l.positions, name) && SizeOrder(x).Ok?
    requires OpenPosition(l, name, SizeOrder(x).value, signal, 0, now).Ok?
    ensures var l' := OpenPosition(l, name, SizeOrder(x).value, signal, 0, now).value;
            var cap, own := ExposureCap(x.strategy.config, x.totalBankroll), Reserved(l'.positions, name);
            && own == Reserved(l.positions, name) + SizeOrder(x).value.costBasis <= cap
            && TotalOpen(l'.positions) == own + OthersReserved(l.positions, name)
            && (TotalOpen(l'.positions) <= cap <==> OthersReserved(l.positions, name) <= cap - own)
  {
    var order := SizeOrder(x).value;
    var l' := OpenPosition(l, name, order, signal, 0, now).value;
    var p := NewPosition(name, order);
    SizedOrderIsBounded(x);
    OwnPositionsSum(l.positions, name, "");
    assert l'.positions == l.positions + [p];
    SumByAppend(l.positions, p, OpenCost(name));
    SumByAppend(l.positions, p, OtherCost(name));
    TotalSplits(l'.positions, name);
  }

  // ---------------------------------------------------------------- the bound that does hold

  function ReservedBy(positions: seq<Position>): string -> int { (n: string) => Reserved(positions, n) }

  lemma {:induction false} SumNamesAtMost(names: set<string>, f: string -> int, g: string -> int)
    requires forall n :: n in names ==> f(n) <= g(n)
    ensures SumNames(names, f) <= SumNames(names, g)
    decreases |names|
  {
    if names == {} {
    } else {
      SumNamesAtMost(names - {PickName(names)}, f, g);
    }
  }

  lemma SumNamesBump(names: set<string>, n: string, f: string -> int, g: string -> int)
    requires n in names && forall k :: k in names && k != n ==> f(k) == g(k)
    ensures SumNames(names, g) == SumNames(names, f) - f(n) + g(n)
  {
    SumNamesTake(names, n, f);
    SumNamesTake(names, n, g);
    SumNamesAtMost(names - {n}, f, g);
    SumNamesAtMost(names - {n}, g, f);
  }

  lemma {:induction false} SumNamesZero(names: set<string>, f: string -> int)
    requires forall n :: n in names ==> f(n) == 0
    ensures SumNames(names, f) == 0
    decreases |names|
  {
    if names == {} {
    } else {
      SumNamesZero(names - {PickName(names)}, f);
    }
  }

  /** Everything open is reserved by exactly one strategy. */
  lemma {:induction false} TotalIsSumOfReservations(names: set<string>, positions: seq<Position>)
    requires forall i :: 0 <= i < |positions| ==> positions[i].strategy in names
    ensures TotalOpen(positions) == SumNames(names, ReservedBy(positions))
    decreases |positions|
  {
    if |positions| == 0 {
      SumNamesZero(names, ReservedBy(positions));
    } else {
      var front, last := positions[..|positions| - 1], positions[|positions| - 1];
      TotalIsSumOfReservations(names, front);
      SumNamesBump(names, last.strategy, ReservedBy(front), ReservedBy(positions));
    }
  }

  /** What a tick may leave open of one strategy: its cap if it ordered, else what it had. */
  function Allowance(l: Ledger, l': Ledger, total: int): string -> int {
    (n: string) =>
      if n in l.strategies && Grew(l'.positions, |l.positions|, n) then ExposureCap(l.strategies[n].config, total)
      else Reserved(l.positions, n)
  }

  /** After a tick, everything open together is within the sum of the caps of the strategies
      that ordered and the reservations of those that did not. */
  lemma TotalExposureBound(
    l: Ledger, names: seq<string>, evaluate: Evaluator, index: seq<FeatureValue>, markets: seq<MarketState>, now: int)
    requires Sound(l) && OnMarket(evaluate) && TickWith(l, names, evaluate, index, markets, now).Ok?
    ensures var l' := TickWith(l, names, evaluate, index, markets, now).value.ledger;
            TotalOpen(l'.positions) <= SumNames(l.strategies.Keys, Allowance(l, l', TotalBankroll(l.strategies)))
  {
    var l' := TickWith(l, names, evaluate, index, markets, now).value.ledger;
    var total := TotalBankroll(l.strategies);
    StrategiesKeepSound(TickState(l, Stats(0, 0)), names, Fresh(l, index, evaluate, now), markets);
    SoundIsOwned(l');
    forall n | n in l.strategies ensures ReservedBy(l'.positions)(n) <= Allowance(l, l', total)(n) {
      CapsSurviveTheTick(l, names, evaluate, index, markets, now, n, "");
    }
    StrategiesKeepRows(TickState(l, Stats(0, 0)), names, Fresh(l, index, evaluate, now), markets);
    TotalIsSumOfReservations(l.strategies.Keys, l'.positions);
    SumNamesAtMost(l.strategies.Keys, ReservedBy(l'.positions), Allowance(l, l', total));
  }

  /** For the whole tick: of a strategy that ordered, everything open is within its cap exactly
      when what the others then have open fits into what it leaves; so it is when it alone has
      anything open. */
  lemma TickWithinCapIff(
    l: Ledger, names: seq<string>, evaluate: Evaluator, index: seq<FeatureValue>, markets: seq<MarketState>, now: int, name: string)
    requires OnMarket(evaluate) && TickWith(l, names, evaluate, index, markets, now).Ok? && name in l.strategies
    requires Grew(TickWith(l, names, evaluate, index, markets, now).value.ledger.positions, |l.positions|, name)
    ensures var l' := TickWith(l, names, evaluate, index, markets, now).value.ledger;
            var cap, own := ExposureCap(l.strategies[name].config, TotalBankroll(l.strategies)), Reserved(l'.positions, name);
            && own <= cap
            && (TotalOpen(l'.positions) <= cap <==> OthersReserved(l'.positions, name) <= cap - own)
            && (OthersReserved(l'.positions, name) == 0 ==> TotalOpen(l'.positions) <= cap)
  {
    CapsSurviveTheTick(l, names, evaluate, index, markets, now, name, "");
    TotalSplits(TickWith(l, names, evaluate, index, markets, now).value.ledger.positions, name);
  }
}
