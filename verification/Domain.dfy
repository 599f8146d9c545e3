/** The rows of the per-environment database and the strategy state machine
    (core/db/models.py, core/domain/). Row ids are positions in their table, so they
    are fresh by construction; money is in cents, prices in dollars. */
module Domain {
  import opened Lists

  datatype StrategyState =
    | Seeded | Active | LowBankrollPaused | DrawdownPaused | OperatorPaused | Decommissioned

  datatype SystemState = SystemActive | SystemPaused

  datatype Side = Yes | No

  datatype PositionStatus = Open | Resolved

  datatype CashKind = Deposited | Withdrew | RealizedPnl | Fee

  datatype SignalOutcome =
    | OrderPlaced | RejectedKellyZero | RejectedExposureCap | RejectedCorrelationCap
    | RejectedBelowThreshold | RejectedBelowMinPosition | RejectedMarketClosed
    | RejectedStaleInputs | RejectedSystemPaused

  datatype StrategyConfig = StrategyConfig(
    minBankroll: int,
    minTradeable: int,
    autoResumeOnDeposit: bool,
    maxInputAge: int,
    confidenceFloor: Option<real>,
    disagreementThreshold: Option<real>,
    spreadMarginMultiplier: Option<real>,
    wideSpreadThreshold: Option<real>,
    exposureCap: Option<real>,
    correlationCap: Option<real>)

  datatype Strategy = Strategy(
    enabled: bool,
    state: StrategyState,
    bankroll: int,
    initialDeposit: int,
    hwm: int,
    kellyFraction: real,
    config: StrategyConfig)

  datatype CashEvent = CashEvent(
    strategy: string, at: int, kind: CashKind, amount: int, balanceAfter: int, ref: Option<nat>)

  datatype Position = Position(
    strategy: string, ticker: string, side: Side, price: real, qty: int, costBasis: int,
    status: PositionStatus, closedAt: Option<int>, realized: Option<int>)

  datatype Fill = Fill(
    position: nat, signal: Option<nat>, side: Side, qty: int, price: real, fees: int)

  datatype Signal = Signal(
    strategy: string, ticker: string, probYes: real, confidence: real, outcome: SignalOutcome)

  datatype KillSwitch = KillSwitch(state: SystemState, reason: Option<string>, trippedAt: Option<int>)

  datatype Action =
    | DoDeposit | DoWithdraw | DoSetStartingBankroll | DoRecordRealizedPnl | DoRecordSignal
    | DoOpenPosition | DoFillFee | DoResolvePosition | DoTripKillSwitch | DoResumeKillSwitch
    | DoSetKelly | DoActivate | DoPause | DoResume | DoDecommission

  datatype Target =
    | OnStrategy(name: string) | OnSignal(signal: nat) | OnPosition(position: nat) | OnSystem

  /** The shapes of an audit record's before and after documents. */
  datatype Facts =
    | NoFacts
    | Funds(bankroll: int)
    | FundsAndState(bankroll: int, state: StrategyState)
    | Baseline(bankroll: int, initialDeposit: int, hwm: int, minBankroll: int)
    | StateIs(state: StrategyState)
    | StateAndEnabled(state: StrategyState, enabled: bool)
    | KellyIs(kelly: real)
    | SwitchIs(killSwitch: KillSwitch)
    | StatusIs(status: PositionStatus)
    | SettledFor(realized: int)
    | OpenedAs(fill: nat, costBasis: int, fees: int)
    | OutcomeIs(outcome: SignalOutcome)
  {
    /** The document's bankrollCents, if it has one. */
    function Money(): Option<int> {
      if Funds? || FundsAndState? || Baseline? then Some(bankroll) else None
    }

    /** The document's state, if it has one. */
    function Stage(): Option<StrategyState> {
      if FundsAndState? || StateIs? || StateAndEnabled? then Some(state) else None
    }
  }

  datatype AuditEvent = AuditEvent(action: Action, target: Target, before: Facts, after: Facts)

  datatype LedgerError =
    | KillSwitchActive | AmountNotPositive | StrategyNotFound | DepositBlocked
    | ExceedsFreeCash(free: int) | ReasonRequired | StrategyIsDecommissioned | TradingActivityExists
    | QuantityNotPositive | CostNotPositive | FeesNegative | CostMismatch(expected: int)
    | SignalNotFound | SignalOfOtherStrategy | CannotTransition(from: StrategyState)

  datatype SignalDraft = SignalDraft(ticker: string, probYes: real, confidence: real, side: Side)

  datatype Outcome = SettledYes | SettledNo | Void

  /** A contract_resolution row: the outcome and the YES settlement price. */
  datatype Resolution = Resolution(outcome: Outcome, settlement: real)

  datatype Order = Order(ticker: string, side: Side, qty: int, price: real, costBasis: int)

  /** `str.strip()` leaves nothing. */
  predicate Blank(s: string) {
    forall i :: 0 <= i < |s| ==> s[i] in " \t\n\r"
  }

  // ---------------------------------------------------------------- state machine

  predicate CanActivate(state: StrategyState) { state.Seeded? }

  predicate CanPause(state: StrategyState) { state.Active? }

  predicate CanResume(state: StrategyState) {
    state.LowBankrollPaused? || state.DrawdownPaused? || state.OperatorPaused?
  }

  predicate ShouldAutoResume(state: StrategyState, config: StrategyConfig, newBankroll: int) {
    config.autoResumeOnDeposit && state.LowBankrollPaused? && newBankroll >= config.minBankroll
  }

  predicate CanEmitSignals(s: Strategy) {
    s.enabled && s.state.Active? && s.kellyFraction > 0.0
  }

  // ---------------------------------------------------------------- effective configuration

  const DEFAULT_CONFIDENCE_FLOOR := 0.55
  const DEFAULT_DISAGREEMENT_THRESHOLD := 2.0
  const DEFAULT_SPREAD_MARGIN_MULTIPLIER := 1.5
  const DEFAULT_WIDE_SPREAD_THRESHOLD := 0.08
  const DEFAULT_EXPOSURE_CAP := 0.5
  const DEFAULT_CORRELATION_CAP := 0.5

  function OrDefault<T>(x: Option<T>, default: T): T {
    if x.Some? then x.value else default
  }

  // ---------------------------------------------------------------- starting baseline

  const DEFAULT_MIN_TRADEABLE := 5000

  function WithStartingBaseline(config: StrategyConfig, amount: int): StrategyConfig {
    config.(minBankroll := amount,
            minTradeable := if amount < DEFAULT_MIN_TRADEABLE then amount else DEFAULT_MIN_TRADEABLE)
  }
}
