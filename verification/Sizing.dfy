/** Risk sizing: fractional Kelly with confidence weighting, the free-cash gate and the
    two caps (core/risk/sizing.py), and how a sized order meets the ledger's own checks. */
module Sizing {
  import opened Lists
  import opened Reals
  import opened Rounding
  import opened Domain
  import opened LedgerSpec
  import opened WeatherUtils

  datatype SizingInput = SizingInput(
    signal: SignalDraft,
    market: MarketState,
    strategy: Strategy,
    system: SystemState,
    openPositions: seq<Position>,
    features: FeatureMap,
    freeCash: int,
    totalBankroll: int)

  // ---------------------------------------------------------------- settlement key

  function SplitDash(s: string): (parts: seq<string>)
    ensures |parts| > 0
  {
    if |s| == 0 then [""]
    else
      var rest := SplitDash(s[1..]);
      if s[0] == '-' then [""] + rest else [[s[0]] + rest[0]] + rest[1..]
  }

  function JoinDash(parts: seq<string>): string
    requires |parts| > 0
  {
    if |parts| == 1 then parts[0] else parts[0] + "-" + JoinDash(parts[1..])
  }

  /** The date part of a ticker such as KXHIGHNY-25MAY28-T72. */
  function SettlementKey(ticker: string): Option<string> {
    var parts := SplitDash(ticker);
    if |parts| < 2 then None else Some(parts[1])
  }

  // ---------------------------------------------------------------- gates

  function EntryPrice(side: Side, market: MarketState): Option<real> {
    if side.Yes? then market.ask
    else if market.bid.None? then None
    else Some(1.0 - market.bid.value)
  }

  function Edge(signal: SignalDraft, price: real): real {
    if signal.side.Yes? then signal.probYes - price else 1.0 - signal.probYes - price
  }

  predicate InScope(market: MarketState, subject: string) {
    subject == market.ticker || LocationForSeries(market.series) == Some(subject)
  }

  predicate Usable(f: FeatureValue, cutoff: int) {
    f.status.Present? && f.asOf.Some? && f.asOf.value >= cutoff
  }

  /** `_stale_feature` finds nothing to report. */
  predicate FreshInputs(maxAge: int, features: FeatureMap, market: MarketState) {
    forall name :: name in features && InScope(market, features[name].subject) ==>
      Usable(features[name], market.asOf - maxAge)
  }

  function CostIfOpen(): Position -> int {
    (p: Position) => if p.status.Open? then p.costBasis else 0
  }

  function CostIfKeyed(key: string): Position -> int {
    (p: Position) => if p.status.Open? && SettlementKey(p.ticker) == Some(key) then p.costBasis else 0
  }

  function ExposureCap(config: StrategyConfig, totalBankroll: int): int {
    Down(totalBankroll as real * OrDefault(config.exposureCap, DEFAULT_EXPOSURE_CAP))
  }

  function CorrelationCap(config: StrategyConfig, bankroll: int): int {
    Down(bankroll as real * OrDefault(config.correlationCap, DEFAULT_CORRELATION_CAP))
  }

  predicate ExposureExceeded(x: SizingInput, cost: int) {
    SumBy(x.openPositions, CostIfOpen()) + cost > ExposureCap(x.strategy.config, x.totalBankroll)
  }

  predicate CorrelationExceeded(x: SizingInput, cost: int) {
    var key := SettlementKey(x.market.ticker);
    && key.Some?
    && SumBy(x.openPositions, CostIfKeyed(key.value)) + cost > CorrelationCap(x.strategy.config, x.strategy.bankroll)
  }

  /** A strategy without caps of its own may have half of either total open. */
  lemma UncappedShares(config: StrategyConfig, total: nat, bankroll: nat)
    ensures config.exposureCap.None? ==> ExposureCap(config, total) == total / 2
    ensures config.correlationCap.None? ==> CorrelationCap(config, bankroll) == bankroll / 2
    ensures config.exposureCap == Some(1.0) ==> ExposureCap(config, total) == total
    ensures config.correlationCap == Some(1.0) ==> CorrelationCap(config, bankroll) == bankroll
  {
    HalfDown(total);
    HalfDown(bankroll);
  }

  lemma HalfDown(amount: nat)
    ensures Down(amount as real * 0.5) == amount / 2
  {
    assert (2 * (amount / 2)) as real <= amount as real < (2 * (amount / 2) + 2) as real;
  }

  // ---------------------------------------------------------------- sizing

  function Kelly(x: SizingInput, price: real): real {
    x.strategy.kellyFraction * x.signal.confidence * Edge(x.signal, price)
  }

  /** The Kelly stake in whole cents. */
  function Stake(x: SizingInput, price: real): int {
    Down(x.strategy.bankroll as real * Kelly(x, price))
  }

  function Contracts(stake: int, price: real): int
    requires price > 0.0
  {
    Down(stake as real / (price * 100.0))
  }

  function SizeOrder(x: SizingInput): Result<Order, SignalOutcome> {
    if x.system.SystemPaused? then Err(RejectedSystemPaused)
    else if !FreshInputs(x.strategy.config.maxInputAge, x.features, x.market) then Err(RejectedStaleInputs)
    else if x.signal.confidence < OrDefault(x.strategy.config.confidenceFloor, DEFAULT_CONFIDENCE_FLOOR)
    then Err(RejectedBelowThreshold)
    else
      var entry := EntryPrice(x.signal.side, x.market);
      if entry.None? || entry.value <= 0.0 || entry.value >= 1.0 then Err(RejectedMarketClosed)
      else SizeAt(x, entry.value)
  }

  function SizeAt(x: SizingInput, price: real): Result<Order, SignalOutcome>
    requires 0.0 < price < 1.0
  {
    if Edge(x.signal, price) <= 0.0 then Err(RejectedKellyZero)
    else if Kelly(x, price) <= 0.0 then Err(RejectedKellyZero)
    else if Stake(x, price) <= 0 then Err(RejectedKellyZero)
    else
      var qty := Contracts(Stake(x, price), price);
      var cost := Down(Notional(qty, price));
      if qty < 1 then Err(RejectedBelowMinPosition)
      else if cost > x.freeCash then Err(RejectedBelowMinPosition)
      else if ExposureExceeded(x, cost) then Err(RejectedExposureCap)
      else if CorrelationExceeded(x, cost) then Err(RejectedCorrelationCap)
      else Ok(Order(x.signal.ticker, x.signal.side, qty, price, cost))
  }

  // ---------------------------------------------------------------- settlement keys mean what they say

  /** A ticker without a dash has no settlement key. */
  lemma {:induction false} NoDashNoSplit(s: string)
    requires '-' !in s
    ensures SplitDash(s) == [s]
    decreases |s|
  {
    if |s| == 0 {
    } else {
      assert s == [s[0]] + s[1..];
      NoDashNoSplit(s[1..]);
    }
  }

  lemma {:induction false} SplitJoin(s: string)
    ensures JoinDash(SplitDash(s)) == s
    ensures forall i :: 0 <= i < |SplitDash(s)| ==> '-' !in SplitDash(s)[i]
    decreases |s|
  {
    if |s| == 0 {
    } else {
      SplitJoin(s[1..]);
      var rest := SplitDash(s[1..]);
      var parts := SplitDash(s);
      if s[0] == '-' {
        assert parts[1..] == rest;
        assert s == "-" + s[1..];
      } else {
        assert s == [s[0]] + s[1..];
        if |rest| > 1 {
          assert parts[1..] == rest[1..];
          assert JoinDash(parts) == [s[0]] + (rest[0] + "-" + JoinDash(rest[1..]));
        }
      }
    }
  }

  lemma {:induction false} SplitAtDash(first: string, rest: string)
    requires '-' !in first
    ensures SplitDash(first + "-" + rest) == [first] + SplitDash(rest)
    decreases |first|
  {
    var s := first + "-" + rest;
    if |first| == 0 {
      assert s[1..] == rest;
    } else {
      assert first == [first[0]] + first[1..];
      assert s[1..] == first[1..] + "-" + rest;
      SplitAtDash(first[1..], rest);
    }
  }

  /** The ticker reads series, dash, date, and then nothing or another dash. */
  predicate Reads(ticker: string, series: string, date: string) {
    '-' !in series && '-' !in date && (ticker == series + "-" + date || series + "-" + date + "-" <= ticker)
  }

  ghost predicate SettlesOn(ticker: string, date: string) { exists series :: Reads(ticker, series, date) }

  lemma KeyOfStrike(series: string, date: string, strike: string)
    requires '-' !in series && '-' !in date
    ensures SettlementKey(series + "-" + date) == SettlementKey(series + "-" + date + "-" + strike) == Some(date)
  {
    SplitAtDash(series, date);
    NoDashNoSplit(date);
    assert series + "-" + date + "-" + strike == series + "-" + (date + "-" + strike);
    SplitAtDash(series, date + "-" + strike);
    SplitAtDash(date, strike);
  }

  /** The key of a ticker is its date, whatever the strike; there is none exactly without a dash. */
  lemma KeyIsTheDate(ticker: string, date: string)
    ensures SettlementKey(ticker) == Some(date) <==> SettlesOn(ticker, date)
    ensures SettlementKey(ticker).None? <==> '-' !in ticker
  {
    if series :| Reads(ticker, series, date) {
      var start := series + "-" + date;
      KeyOfStrike(series, date, if ticker == start then "" else ticker[|start| + 1..]);
      assert ticker != start ==> ticker == start + "-" + ticker[|start| + 1..];
    }
    if '-' !in ticker { NoDashNoSplit(ticker); }
    SplitJoin(ticker);
    if SettlementKey(ticker) == Some(date) { KeyIsRead(ticker, date); }
  }

  lemma KeyIsRead(ticker: string, date: string)
    requires SettlementKey(ticker) == Some(date)
    ensures SettlesOn(ticker, date) && '-' in ticker
  {
    var parts := SplitDash(ticker);
    SplitJoin(ticker);
    assert JoinDash(parts) == parts[0] + "-" + JoinDash(parts[1..]);
    if |parts| > 2 {
      assert parts[1..][1..] == parts[2..];
      assert JoinDash(parts[1..]) == date + "-" + JoinDash(parts[2..]);
      assert ticker == (parts[0] + "-" + date + "-") + JoinDash(parts[2..]);
    }
    assert Reads(ticker, parts[0], date);
    assert ticker[|parts[0]|] == '-';
  }

  // ---------------------------------------------------------------- what an order means

  lemma ScaledQuotient(stake: int, price: real)
    requires price > 0.0 && stake >= 0
    ensures Contracts(stake, price) >= 0
    ensures Notional(Contracts(stake, price), price) <= stake as real
    ensures stake as real < Notional(Contracts(stake, price) + 1, price)
  {
    var n := Contracts(stake, price);
    var next := n + 1;
    assert stake as real / (price * 100.0) >= 0.0;
    Bracket(stake as real, price * 100.0, n as real, next as real);
    assert Notional(next, price) == next as real * (price * 100.0);
  }

  /** The quantity is the largest that fits the Kelly stake: for any count of contracts,
      it fits exactly when it is no larger. */
  lemma LargestWithinStake(stake: int, price: real, count: int)
    requires price > 0.0 && stake >= 0 && count >= 0
    ensures Notional(count, price) <= stake as real <==> count <= Contracts(stake, price)
  {
    var n := Contracts(stake, price);
    ScaledQuotient(stake, price);
    if count <= n {
      Scale(count as real, n as real, price * 100.0);
      assert Notional(count, price) <= Notional(n, price);
    } else {
      Scale((n + 1) as real, count as real, price * 100.0);
      assert Notional(n + 1, price) <= Notional(count, price);
    }
  }

  /** What a position adds to the markets that settle on `date`. */
  ghost function OpenOn(date: string): Position -> int {
    (p: Position) => if p.status.Open? && SettlesOn(p.ticker, date) then p.costBasis else 0
  }

  lemma KeyedIsDated(positions: seq<Position>, date: string)
    ensures SumBy(positions, CostIfKeyed(date)) == SumBy(positions, OpenOn(date))
  {
    forall p: Position ensures CostIfKeyed(date)(p) == OpenOn(date)(p) { KeyIsTheDate(p.ticker, date); }
    SumBySame(positions, CostIfKeyed(date), OpenOn(date));
  }

  /** YES is bought at the ask, NO at what the bid leaves of a dollar. */
  predicate Quotes(market: MarketState, side: Side, price: real) {
    if side.Yes? then market.ask == Some(price) else market.bid.Some? && market.bid.value + price == 1.0
  }

  /** One more order of `cost` on this market breaks the correlation cap of its date. */
  ghost predicate OverDate(x: SizingInput, cost: int) {
    exists date :: SettlesOn(x.market.ticker, date)
                   && SumBy(x.openPositions, OpenOn(date)) + cost > CorrelationCap(x.strategy.config, x.strategy.bankroll)
  }

  lemma OverDateIsExceeded(x: SizingInput, cost: int)
    ensures CorrelationExceeded(x, cost) <==> OverDate(x, cost)
  {
    var key := SettlementKey(x.market.ticker);
    if CorrelationExceeded(x, cost) {
      KeyIsTheDate(x.market.ticker, key.value);
      KeyedIsDated(x.openPositions, key.value);
    }
    if OverDate(x, cost) {
      var date :| SettlesOn(x.market.ticker, date)
                  && SumBy(x.openPositions, OpenOn(date)) + cost > CorrelationCap(x.strategy.config, x.strategy.bankroll);
      KeyIsTheDate(x.market.ticker, date);
      KeyedIsDated(x.openPositions, date);
    }
  }

  /** What every accepted order satisfies, in terms of what the caller put in. */
  lemma SizedOrderIsBounded(x: SizingInput)
    requires SizeOrder(x).Ok?
    ensures var o := SizeOrder(x).value;
            && o.ticker == x.signal.ticker && o.side == x.signal.side
            && Quotes(x.market, o.side, o.price) && 0.0 < o.price < 1.0
            && o.qty >= 1
            && (forall count: int :: count >= 0 ==>
                  (Notional(count, o.price) <= Stake(x, o.price) as real <==> count <= o.qty))
            && 0 <= o.costBasis <= Stake(x, o.price)
            && o.costBasis as real <= Notional(o.qty, o.price) < o.costBasis as real + 1.0
            && o.costBasis <= x.freeCash
            && SumBy(x.openPositions, CostIfOpen()) + o.costBasis <= ExposureCap(x.strategy.config, x.totalBankroll)
            && !OverDate(x, o.costBasis)
  {
    OverDateIsExceeded(x, SizeOrder(x).value.costBasis);
    var o := SizeOrder(x).value;
    var stake := Stake(x, o.price);
    forall count: int | count >= 0
      ensures Notional(count, o.price) <= stake as real <==> count <= o.qty
    {
      LargestWithinStake(stake, o.price, count);
    }
    assert Notional(o.qty, o.price) <= stake as real;
    NotionalPositive(o.qty, o.price);
  }

  // ---------------------------------------------------------------- which order is wanted

  /** What a contract is expected to earn in cents, by what the ledger pays for it. */
  function ExpectedProfit(signal: SignalDraft, price: real): real {
    signal.probYes * Payout(signal.side, 1, 0, Resolution(SettledYes, 1.0)) as real
    + (1.0 - signal.probYes) * Payout(signal.side, 1, 0, Resolution(SettledNo, 0.0)) as real - 100.0 * price
  }

  lemma EdgeIsExpectedProfit(signal: SignalDraft, price: real)
    ensures ExpectedProfit(signal, price) == 100.0 * Edge(signal, price)
  {
    assert Payout(Yes, 1, 0, Resolution(SettledYes, 1.0)) == Payout(No, 1, 0, Resolution(SettledNo, 0.0)) == 100;
    assert Payout(Yes, 1, 0, Resolution(SettledNo, 0.0)) == Payout(No, 1, 0, Resolution(SettledYes, 1.0)) == 0;
  }

  /** The share of the bankroll to stake: Kelly fraction, confidence and expected profit a dollar. */
  function StakeShare(x: SizingInput, price: real): real {
    x.strategy.kellyFraction * x.signal.confidence * (ExpectedProfit(x.signal, price) / 100.0)
  }

  /** In whole cents. */
  function WholeStake(x: SizingInput, price: real): int { (x.strategy.bankroll as real * StakeShare(x, price)).Floor }

  lemma ShareIsKelly(x: SizingInput, price: real)
    ensures StakeShare(x, price) == Kelly(x, price) && (ExpectedProfit(x.signal, price) > 0.0 <==> Edge(x.signal, price) > 0.0)
    ensures WholeStake(x, price) > 0 || Stake(x, price) > 0 ==> WholeStake(x, price) == Stake(x, price)
  {
    EdgeIsExpectedProfit(x.signal, price);
    assert ExpectedProfit(x.signal, price) / 100.0 == Edge(x.signal, price);
    var share, kelly := StakeShare(x, price), Kelly(x, price);
    assert share == kelly;
    RoundsTheSame(x.strategy.bankroll as real * kelly);
  }

  lemma RoundsTheSame(stake: real)
    ensures Down(stake) > 0 ==> stake.Floor == Down(stake)
    ensures stake.Floor > 0 ==> stake.Floor == Down(stake)
  {
  }

  /** Whatever is in scope of the market, by ticker or place, is present and dated, and at most
      `maxInputAge` older than the quote. */
  predicate InputsInOrder(x: SizingInput) {
    forall name :: name in x.features
                   && (x.features[name].subject == x.market.ticker
                       || Some(x.features[name].subject) == LocationForSeries(x.market.series)) ==>
      && x.features[name].status == Present && x.features[name].asOf.Some?
      && x.market.asOf - x.features[name].asOf.value <= x.strategy.config.maxInputAge
  }

  lemma FreshIff(x: SizingInput)
    ensures FreshInputs(x.strategy.config.maxInputAge, x.features, x.market) <==> InputsInOrder(x)
  {
  }

  /** Before free cash and the caps are asked: the gates are open, a contract earns something,
      and the order is for as many as the stake, in whole cents, pays for. */
  ghost predicate Wanted(x: SizingInput, o: Order) {
    && x.system.SystemActive? && InputsInOrder(x)
    && x.signal.confidence >= OrDefault(x.strategy.config.confidenceFloor, 0.55)
    && o.ticker == x.signal.ticker && o.side == x.signal.side && Quotes(x.market, o.side, o.price) && 0.0 < o.price < 1.0
    && ExpectedProfit(x.signal, o.price) > 0.0 && StakeShare(x, o.price) > 0.0
    && o.qty >= 1 && Notional(o.qty, o.price) <= WholeStake(x, o.price) as real < Notional(o.qty + 1, o.price)
    && o.costBasis as real <= Notional(o.qty, o.price) < o.costBasis as real + 1.0
  }

  lemma RoundsDown(worth: real, cost: int)
    requires worth > 0.0 && cost as real <= worth < cost as real + 1.0
    ensures cost == Down(worth)
  {
  }

  lemma WantedIsSized(x: SizingInput, o: Order)
    requires Wanted(x, o)
    ensures EntryPrice(o.side, x.market) == Some(o.price) && Stake(x, o.price) > 0 && Kelly(x, o.price) > 0.0
    ensures o.qty == Contracts(Stake(x, o.price), o.price) && o.costBasis == Down(Notional(o.qty, o.price))
  {
    ShareIsKelly(x, o.price);
    NotionalPositive(o.qty, o.price);
    var stake := Stake(x, o.price);
    assert WholeStake(x, o.price) > 0 && stake == WholeStake(x, o.price);
    LargestWithinStake(stake, o.price, o.qty);
    LargestWithinStake(stake, o.price, o.qty + 1);
    RoundsDown(Notional(o.qty, o.price), o.costBasis);
  }

  /** A wanted order is taken exactly when free cash and both caps leave room for it, and each
      rejection names what does not. */
  lemma WantedIsTakenIff(x: SizingInput, o: Order)
    requires Wanted(x, o)
    ensures SizeOrder(x)
         == if o.costBasis > x.freeCash then Err(RejectedBelowMinPosition)
            else if SumBy(x.openPositions, CostIfOpen()) + o.costBasis > ExposureCap(x.strategy.config, x.totalBankroll)
            then Err(RejectedExposureCap)
            else if OverDate(x, o.costBasis) then Err(RejectedCorrelationCap)
            else Ok(o)
  {
    FreshIff(x);
    WantedIsSized(x, o);
    ShareIsKelly(x, o.price);
    OverDateIsExceeded(x, o.costBasis);
  }

  /** Nothing else is ever taken. */
  lemma OnlyWantedIsTaken(x: SizingInput)
    requires SizeOrder(x).Ok?
    ensures Wanted(x, SizeOrder(x).value)
  {
    var o := SizeOrder(x).value;
    FreshIff(x);
    SizedOrderIsBounded(x);
    ShareIsKelly(x, o.price);
    assert Notional(o.qty + 1, o.price) > Stake(x, o.price) as real;
  }

  function Flip(side: Side): Side { if side.Yes? then No else Yes }

  function Complement(price: Option<real>): Option<real> { if price.None? then None else Some(1.0 - price.value) }

  /** The same question seen from the other side of the market. */
  function Mirror(x: SizingInput): SizingInput {
    x.(signal := x.signal.(side := Flip(x.signal.side), probYes := 1.0 - x.signal.probYes),
       market := x.market.(bid := Complement(x.market.ask), ask := Complement(x.market.bid)))
  }

  lemma MirroredGates(x: SizingInput)
    ensures FreshInputs(x.strategy.config.maxInputAge, x.features, Mirror(x).market)
            == FreshInputs(x.strategy.config.maxInputAge, x.features, x.market)
    ensures EntryPrice(Mirror(x).signal.side, Mirror(x).market) == EntryPrice(x.signal.side, x.market)
  {
    forall subject ensures InScope(Mirror(x).market, subject) == InScope(x.market, subject) { }
  }

  lemma MirroredStake(x: SizingInput, price: real)
    ensures Edge(Mirror(x).signal, price) == Edge(x.signal, price) && Kelly(Mirror(x), price) == Kelly(x, price)
    ensures Stake(Mirror(x), price) == Stake(x, price)
  {
    assert Edge(Mirror(x).signal, price) == Edge(x.signal, price);
  }

  lemma MirroredCaps(x: SizingInput, cost: int)
    ensures ExposureExceeded(Mirror(x), cost) == ExposureExceeded(x, cost)
    ensures CorrelationExceeded(Mirror(x), cost) == CorrelationExceeded(x, cost)
  {
  }

  function OtherSide(r: Result<Order, SignalOutcome>): Result<Order, SignalOutcome> {
    if r.Err? then r else Ok(r.value.(side := Flip(r.value.side)))
  }

  lemma MirroredAt(x: SizingInput, price: real)
    requires 0.0 < price < 1.0
    ensures SizeAt(Mirror(x), price) == OtherSide(SizeAt(x, price))
  {
    MirroredStake(x, price);
    MirroredCaps(x, Down(Notional(Contracts(Stake(x, price), price), price)));
  }

  /** Buying NO is buying YES of the opposite event: the same quantity at the same price. */
  lemma MirroredOrder(x: SizingInput)
    ensures SizeOrder(Mirror(x)) == OtherSide(SizeOrder(x))
  {
    var price := EntryPrice(x.signal.side, x.market);
    MirroredGates(x);
    if price.Some? && 0.0 < price.value < 1.0 { MirroredAt(x, price.value); }
  }

  lemma NotionalPositive(qty: int, price: real)
    requires qty >= 1 && price > 0.0
    ensures Notional(qty, price) > 0.0
  {
    ScaleStrict(0.0, qty as real, price * 100.0);
    assert Notional(qty, price) == qty as real * (price * 100.0);
  }

  /** The ledger takes a sized order at zero fees exactly when the order is worth at least
      a cent and its value, in cents, has a fraction below one half: sizing rounds the cost
      down and the writer expects it rounded half up. */
  lemma SizedOrderMeetsLedger(x: SizingInput, l: Ledger, name: string, signal: nat, now: int)
    requires SizeOrder(x).Ok?
    requires name in l.strategies && x.freeCash == FreeCash(l, name) && l.system.state.SystemActive?
    requires signal < |l.signals| && l.signals[signal].strategy == name
    ensures var o := SizeOrder(x).value;
            var worth := Notional(o.qty, o.price);
            && (OpenPosition(l, name, o, Some(signal), 0, now).Ok? <==> worth >= 1.0 && worth - worth.Floor as real < 0.5)
            && (worth < 1.0 ==> OpenPosition(l, name, o, Some(signal), 0, now) == Err(CostNotPositive))
            && (worth >= 1.0 && worth - worth.Floor as real >= 0.5 ==>
                  OpenPosition(l, name, o, Some(signal), 0, now) == Err(CostMismatch(o.costBasis + 1)))
  {
    SizedOrderIsBounded(x);
    var o := SizeOrder(x).value;
    var worth := Notional(o.qty, o.price);
    DownMeetsHalfUp(worth);
    assert o.costBasis == worth.Floor;
    if worth - worth.Floor as real >= 0.5 { HalfUpUnique(worth, worth.Floor + 1); }
  }

  predicate WholeCents(price: real) { Whole(price * 100.0) }

  lemma WholeCentNotional(qty: int, price: real)
    requires qty >= 1 && price > 0.0 && WholeCents(price)
    ensures Notional(qty, price) >= 1.0 && Whole(Notional(qty, price))
  {
    var cents := (price * 100.0).Floor;
    assert cents >= 1;
    assert Notional(qty, price) == qty as real * cents as real;
    var n := ProductOfIntegers(qty, cents);
    IntegersAreWhole(Notional(qty, price), n);
    Scale(1.0, qty as real, cents as real);
  }

  /** So at whole-cent quotes the ledger never refuses what sizing accepts. */
  lemma WholeCentOrdersAreAccepted(x: SizingInput, l: Ledger, name: string, signal: nat, now: int)
    requires SizeOrder(x).Ok? && WholeCents(SizeOrder(x).value.price)
    requires name in l.strategies && x.freeCash == FreeCash(l, name) && l.system.state.SystemActive?
    requires signal < |l.signals| && l.signals[signal].strategy == name
    ensures OpenPosition(l, name, SizeOrder(x).value, Some(signal), 0, now).Ok?
  {
    SizedOrderIsBounded(x);
    SizedOrderMeetsLedger(x, l, name, signal, now);
    WholeCentNotional(SizeOrder(x).value.qty, SizeOrder(x).value.price);
  }
}
