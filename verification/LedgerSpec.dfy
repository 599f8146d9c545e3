/** What each ledger operation does, on values: a per-environment database goes in, and
    either the database after the commit or the error that rolls it back comes out.
    The class in LedgerStore.dfy performs the same operations by assignment and is
    proved against these functions (core/ledger/writer.py, queries.py, seed.py). */
module LedgerSpec {
  import opened Lists
  import opened Rounding
  import opened Domain

  datatype Ledger = Ledger(
    system: KillSwitch,
    strategies: map<string, Strategy>,
    cash: seq<CashEvent>,
    positions: seq<Position>,
    fills: seq<Fill>,
    signals: seq<Signal>,
    audit: seq<AuditEvent>)

  /** The migrated database before anything is seeded. */
  const EMPTY_LEDGER := Ledger(KillSwitch(SystemActive, None, None), map[], [], [], [], [], [])

  // ---------------------------------------------------------------- reads

  function OpenCost(name: string): Position -> int {
    (p: Position) => if p.strategy == name && p.status.Open? then p.costBasis else 0
  }

  function Reserved(positions: seq<Position>, name: string): int {
    SumBy(positions, OpenCost(name))
  }

  function FreeCash(l: Ledger, name: string): int {
    if name !in l.strategies then 0 else Max(0, l.strategies[name].bankroll - Reserved(l.positions, name))
  }

  predicate HasTradingActivity(l: Ledger, name: string) {
    || (exists i :: 0 <= i < |l.signals| && l.signals[i].strategy == name)
    || (exists i :: 0 <= i < |l.positions| && l.positions[i].strategy == name)
    || (exists i :: 0 <= i < |l.fills| && l.fills[i].position < |l.positions|
                    && l.positions[l.fills[i].position].strategy == name)
  }

  function ExpectedCost(qty: int, price: real): int { HalfUp(Notional(qty, price)) }

  function Payout(side: Side, qty: int, costBasis: int, res: Resolution): int {
    if res.outcome.Void? then costBasis
    else HalfUp(Notional(qty, if side.Yes? then res.settlement else 1.0 - res.settlement))
  }

  function PnlAt(p: Position, res: Resolution): int {
    Payout(p.side, p.qty, p.costBasis, res) - p.costBasis
  }

  // ---------------------------------------------------------------- appends

  function AppendAudit(l: Ledger, action: Action, target: Target, before: Facts, after: Facts): Ledger {
    l.(audit := l.audit + [AuditEvent(action, target, before, after)])
  }

  function AppendCashEvent(
    l: Ledger, name: string, kind: CashKind, amount: int, balanceAfter: int, now: int, ref: Option<nat>): Ledger
    requires name in l.strategies
  {
    l.(cash := l.cash + [CashEvent(name, now, kind, amount, balanceAfter, ref)],
       strategies := l.strategies[name := l.strategies[name].(bankroll := balanceAfter)])
  }

  /** A cash event and its paired audit record. */
  function MoveBankroll(
    l: Ledger, name: string, kind: CashKind, amount: int, now: int, ref: Option<nat>, action: Action): Ledger
    requires name in l.strategies
  {
    var was := l.strategies[name].bankroll;
    AppendAudit(AppendCashEvent(l, name, kind, amount, was + amount, now, ref),
                action, OnStrategy(name), Funds(was), Funds(was + amount))
  }

  // ---------------------------------------------------------------- operator cash moves

  function Deposit(l: Ledger, name: string, amount: int, now: int): Result<Ledger, LedgerError> {
    if l.system.state.SystemPaused? then Err(KillSwitchActive)
    else if amount <= 0 then Err(AmountNotPositive)
    else if name !in l.strategies then Err(StrategyNotFound)
    else if l.strategies[name].state.Decommissioned? then Err(DepositBlocked)
    else
      var s := l.strategies[name];
      var balance := s.bankroll + amount;
      var state := if ShouldAutoResume(s.state, s.config, balance) then Active else s.state;
      var moved := AppendCashEvent(l, name, Deposited, amount, balance, now, None);
      var resumed := moved.(strategies := moved.strategies[name := moved.strategies[name].(state := state)]);
      Ok(AppendAudit(resumed, DoDeposit, OnStrategy(name),
                     FundsAndState(s.bankroll, s.state), FundsAndState(balance, state)))
  }

  function Withdraw(l: Ledger, name: string, amount: int, now: int): Result<Ledger, LedgerError> {
    if l.system.state.SystemPaused? then Err(KillSwitchActive)
    else if amount <= 0 then Err(AmountNotPositive)
    else if name !in l.strategies then Err(StrategyNotFound)
    else if amount > FreeCash(l, name) then Err(ExceedsFreeCash(FreeCash(l, name)))
    else Ok(MoveBankroll(l, name, Withdrew, -amount, now, None, DoWithdraw))
  }

  function BaselineFacts(s: Strategy): Facts {
    Baseline(s.bankroll, s.initialDeposit, s.hwm, s.config.minBankroll)
  }

  function SetStartingBankroll(l: Ledger, name: string, amount: int, reason: string, now: int)
    : Result<Ledger, LedgerError>
  {
    if l.system.state.SystemPaused? then Err(KillSwitchActive)
    else if amount <= 0 then Err(AmountNotPositive)
    else if Blank(reason) then Err(ReasonRequired)
    else if name !in l.strategies then Err(StrategyNotFound)
    else if l.strategies[name].state.Decommissioned? then Err(StrategyIsDecommissioned)
    else if HasTradingActivity(l, name) then Err(TradingActivityExists)
    else
      var s := l.strategies[name];
      var delta := amount - s.bankroll;
      var moved := if delta == 0 then l
                   else AppendCashEvent(l, name, if delta > 0 then Deposited else Withdrew, delta, amount, now, None);
      var s' := moved.strategies[name].(
                  initialDeposit := amount, hwm := amount, config := WithStartingBaseline(s.config, amount));
      Ok(AppendAudit(moved.(strategies := moved.strategies[name := s']),
                     DoSetStartingBankroll, OnStrategy(name), BaselineFacts(s), BaselineFacts(s')))
  }

  // ---------------------------------------------------------------- signals and positions

  function RecordSignal(l: Ledger, signal: Signal): Result<Ledger, LedgerError> {
    if l.system.state.SystemPaused? then Err(KillSwitchActive)
    else
      Ok(AppendAudit(l.(signals := l.signals + [signal]), DoRecordSignal, OnSignal(|l.signals|),
                     NoFacts, OutcomeIs(signal.outcome)))
  }

  function OpenPosition(
    l: Ledger, name: string, order: Order, signal: Option<nat>, fees: int, now: int): Result<Ledger, LedgerError>
  {
    var expected := ExpectedCost(order.qty, order.price);
    if l.system.state.SystemPaused? then Err(KillSwitchActive)
    else if order.qty <= 0 then Err(QuantityNotPositive)
    else if order.costBasis <= 0 then Err(CostNotPositive)
    else if fees < 0 then Err(FeesNegative)
    else if order.costBasis != expected then Err(CostMismatch(expected))
    else if signal.Some? && signal.value >= |l.signals| then Err(SignalNotFound)
    else if signal.Some? && l.signals[signal.value].strategy != name then Err(SignalOfOtherStrategy)
    else if name !in l.strategies then Err(StrategyNotFound)
    else if order.costBasis + fees > FreeCash(l, name) then Err(ExceedsFreeCash(FreeCash(l, name)))
    else
      var id := |l.positions|;
      var booked := AppendAudit(
        l.(positions := l.positions + [NewPosition(name, order)],
           fills := l.fills + [Fill(id, signal, order.side, order.qty, order.price, fees)]),
        DoOpenPosition, OnPosition(id), NoFacts, OpenedAs(|l.fills|, order.costBasis, fees));
      Ok(if fees == 0 then booked else MoveBankroll(booked, name, Fee, -fees, now, Some(id), DoFillFee))
  }

  function NewPosition(name: string, order: Order): Position {
    Position(name, order.ticker, order.side, order.price, order.qty, order.costBasis, Open, None, None)
  }

  function RecordRealizedPnl(l: Ledger, name: string, amount: int, now: int, ref: Option<nat>): Ledger
    requires name in l.strategies
  {
    var moved := MoveBankroll(l, name, RealizedPnl, amount, now, ref, DoRecordRealizedPnl);
    var s := moved.strategies[name];
    moved.(strategies := moved.strategies[name := s.(hwm := Max(s.hwm, s.bankroll))])
  }

  function SettledPosition(p: Position, realized: int, now: int): Position {
    p.(status := Resolved, closedAt := Some(now), realized := Some(realized))
  }

  /** The writes of a settlement: the cash event, then the position row and its audit record. */
  function Settle(l: Ledger, id: nat, realized: int, now: int): Ledger
    requires id < |l.positions| && l.positions[id].strategy in l.strategies
  {
    var p := l.positions[id];
    var paid := RecordRealizedPnl(l, p.strategy, realized, now, Some(id));
    AppendAudit(paid.(positions := paid.positions[id := SettledPosition(p, realized, now)]),
                DoResolvePosition, OnPosition(id), StatusIs(Open), SettledFor(realized))
  }

  function ResolvePosition(l: Ledger, id: nat, res: Resolution, now: int): Result<Ledger, LedgerError>
    requires id < |l.positions|
  {
    var p := l.positions[id];
    if !p.status.Open? then Ok(l)
    else if p.strategy !in l.strategies then Err(StrategyNotFound)
    else Ok(Settle(l, id, PnlAt(p, res), now))
  }

  // ---------------------------------------------------------------- kill switch and lifecycle

  function SwitchTo(l: Ledger, k: KillSwitch, action: Action): Ledger {
    AppendAudit(l.(system := k), action, OnSystem,
                SwitchIs(l.system), SwitchIs(k))
  }

  function TripKillSwitch(l: Ledger, reason: string, now: int): Result<Ledger, LedgerError> {
    if Blank(reason) then Err(ReasonRequired)
    else Ok(SwitchTo(l, KillSwitch(SystemPaused, Some(reason), Some(now)), DoTripKillSwitch))
  }

  function ClearKillSwitch(l: Ledger, reason: string): Result<Ledger, LedgerError> {
    if Blank(reason) then Err(ReasonRequired)
    else Ok(SwitchTo(l, KillSwitch(SystemActive, None, None), DoResumeKillSwitch))
  }

  function SetKelly(l: Ledger, name: string, fraction: real): Result<Ledger, LedgerError> {
    if l.system.state.SystemPaused? then Err(KillSwitchActive)
    else if name !in l.strategies then Err(StrategyNotFound)
    else if l.strategies[name].state.Decommissioned? then Err(StrategyIsDecommissioned)
    else
      var s := l.strategies[name];
      var value := if fraction < 0.0 then 0.0 else if fraction > 1.0 then 1.0 else fraction;
      Ok(AppendAudit(l.(strategies := l.strategies[name := s.(kellyFraction := value)]),
                     DoSetKelly, OnStrategy(name),
                     KellyIs(s.kellyFraction), KellyIs(value)))
  }

  datatype Transition = Activate | BootstrapActivate | Pause | Resume | Decommission
  {
    predicate Allowed(state: StrategyState) {
      match this
      case Activate => CanActivate(state)
      case BootstrapActivate => CanActivate(state)
      case Pause => CanPause(state)
      case Resume => CanResume(state)
      case Decommission => true
    }

    function Destination(): StrategyState {
      match this
      case Activate => Active
      case BootstrapActivate => Active
      case Pause => OperatorPaused
      case Resume => Active
      case Decommission => Decommissioned
    }

    function Audited(): Action {
      match this
      case Activate => DoActivate
      case BootstrapActivate => DoActivate
      case Pause => DoPause
      case Resume => DoResume
      case Decommission => DoDecommission
    }
  }

  function ApplyTransition(l: Ledger, name: string, reason: string, t: Transition): Result<Ledger, LedgerError> {
    if Blank(reason) then Err(ReasonRequired)
    else if !t.BootstrapActivate? && l.system.state.SystemPaused? then Err(KillSwitchActive)
    else if name !in l.strategies then Err(StrategyNotFound)
    else if !t.Allowed(l.strategies[name].state) then Err(CannotTransition(l.strategies[name].state))
    else
      var s := l.strategies[name];
      var enabled := s.enabled && !t.Decommission?;
      Ok(AppendAudit(
           l.(strategies := l.strategies[name := s.(state := t.Destination(), enabled := enabled)]),
           t.Audited(), OnStrategy(name),
           if t.Decommission? then StateAndEnabled(s.state, s.enabled) else StateIs(s.state),
           if t.Decommission? then StateAndEnabled(t.Destination(), false) else StateIs(t.Destination())))
  }

  // ---------------------------------------------------------------- seeding

  const ENSEMBLE_DISAGREEMENT := "weather_ensemble_disagreement"
  const STALE_QUOTE := "weather_stale_quote"
  const SEED_NAMES := [ENSEMBLE_DISAGREEMENT, STALE_QUOTE]

  function SeedConfig(name: string): StrategyConfig {
    if name == ENSEMBLE_DISAGREEMENT
    then StrategyConfig(0, 0, true, 900, Some(0.55), Some(2.0), Some(1.5), None, Some(0.10), Some(0.05))
    else StrategyConfig(0, 0, true, 900, Some(0.55), None, None, Some(0.08), Some(0.10), Some(0.05))
  }

  function SeedRow(name: string, initial: int): Strategy {
    Strategy(true, Seeded, 0, initial, initial, if name == ENSEMBLE_DISAGREEMENT then 0.25 else 0.2,
             WithStartingBaseline(SeedConfig(name), initial))
  }

  function SeedAmount(name: string, initial: int, overrides: map<string, int>): int {
    if name in overrides then overrides[name] else initial
  }

  function SeedOne(l: Ledger, name: string, initial: int, now: int): Result<Ledger, LedgerError> {
    if name in l.strategies then Ok(l)
    else
      var inserted := l.(strategies := l.strategies[name := SeedRow(name, initial)]);
      match Deposit(inserted, name, initial, now)
      case Err(e) => Err(e)
      case Ok(funded) => ApplyTransition(funded, name, "initial seed activation", BootstrapActivate)
  }

  function SeedAll(l: Ledger, names: seq<string>, initial: int, overrides: map<string, int>, now: int)
    : Result<Ledger, LedgerError>
  {
    if |names| == 0 then Ok(l)
    else
      var last := names[|names| - 1];
      match SeedAll(l, names[..|names| - 1], initial, overrides, now)
      case Err(e) => Err(e)
      case Ok(m) => SeedOne(m, last, SeedAmount(last, initial, overrides), now)
  }

  // ---------------------------------------------------------------- reconciliation

  function AmountOf(name: string): CashEvent -> int {
    (e: CashEvent) => if e.strategy == name then e.amount else 0
  }

  /** sum(cash_event.amount_cents) for one strategy. */
  function CashTotal(cash: seq<CashEvent>, name: string): int { SumBy(cash, AmountOf(name)) }

  /** check_bankroll_invariant does not raise. */
  predicate Reconciles(l: Ledger, name: string) {
    name in l.strategies && l.strategies[name].bankroll == CashTotal(l.cash, name)
  }
}
