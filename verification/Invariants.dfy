/** The whole-run invariant of the ledger and the proof that every writer operation
    keeps it: solvency, cash-event reconciliation, the audit chain, the high-water mark
    and the one-to-one records between positions, fills and settlements. */
module Invariants {
  import opened Lists
  import opened Rounding
  import opened Domain
  import opened LedgerSpec

  // ---------------------------------------------------------------- projections of the logs

  function BankrollLink(name: string): AuditEvent -> Option<(int, int)> {
    (a: AuditEvent) =>
      if a.target == OnStrategy(name) && a.before.Money().Some? && a.after.Money().Some?
      then Some((a.before.Money().value, a.after.Money().value)) else None
  }

  function StateLink(name: string): AuditEvent -> Option<(StrategyState, StrategyState)> {
    (a: AuditEvent) =>
      if a.target == OnStrategy(name) && a.before.Stage().Some? && a.after.Stage().Some?
      then Some((a.before.Stage().value, a.after.Stage().value)) else None
  }

  function SwitchLink(): AuditEvent -> Option<(KillSwitch, KillSwitch)> {
    (a: AuditEvent) =>
      if a.target == OnSystem && a.before.SwitchIs? && a.after.SwitchIs?
      then Some((a.before.killSwitch, a.after.killSwitch)) else None
  }

  /** The links form one chain from `start` to `end`: each `before` is the previous `after`. */
  predicate Linked<T(==)>(start: T, links: seq<(T, T)>, end: T) {
    if |links| == 0 then start == end
    else links[|links| - 1].1 == end && Linked(start, links[..|links| - 1], links[|links| - 1].0)
  }

  function KindAmount(name: string, kind: CashKind): CashEvent -> int {
    (e: CashEvent) => if e.strategy == name && e.kind == kind then e.amount else 0
  }

  function KindTotal(cash: seq<CashEvent>, name: string, kind: CashKind): int {
    SumBy(cash, KindAmount(name, kind))
  }

  function PnlBalance(name: string): CashEvent -> Option<int> {
    (e: CashEvent) => if e.strategy == name && e.kind.RealizedPnl? then Some(e.balanceAfter) else None
  }

  function MaxFrom(start: int, xs: seq<int>): int {
    if |xs| == 0 then start else Max(MaxFrom(start, xs[..|xs| - 1]), xs[|xs| - 1])
  }

  /** The starting deposit or the highest balance right after a settlement. */
  function HighWater(start: int, cash: seq<CashEvent>, name: string): int {
    MaxFrom(start, Collect(cash, PnlBalance(name)))
  }

  /** The amounts of the REALIZED_PNL events that reference position `id`. */
  function PnlOf(id: nat): CashEvent -> Option<int> {
    (e: CashEvent) => if e.kind.RealizedPnl? && e.ref == Some(id) then Some(e.amount) else None
  }

  function RealizedOf(name: string): Position -> int {
    (p: Position) => if p.strategy == name && p.realized.Some? then p.realized.value else 0
  }

  function RealizedTotal(positions: seq<Position>, name: string): int {
    SumBy(positions, RealizedOf(name))
  }

  // ---------------------------------------------------------------- the invariant

  /** Every balance_after is the sum of the strategy's amounts up to that event. */
  predicate Balanced(cash: seq<CashEvent>) {
    |cash| == 0 ||
    var e := cash[|cash| - 1];
    Balanced(cash[..|cash| - 1]) && e.balanceAfter == CashTotal(cash[..|cash| - 1], e.strategy) + e.amount
  }

  predicate CashEventSound(names: set<string>, positions: seq<Position>, e: CashEvent) {
    && e.strategy in names
    && (e.kind.Deposited? ==> e.amount > 0)
    && (e.kind.Withdrew? || e.kind.Fee? ==> e.amount < 0)
    && (e.kind.RealizedPnl? ==> e.ref.Some?)
    && (e.ref.Some? ==> e.ref.value < |positions| && positions[e.ref.value].strategy == e.strategy)
  }

  ghost predicate CashSound(names: set<string>, positions: seq<Position>, cash: seq<CashEvent>) {
    && Balanced(cash)
    && forall e :: e in cash ==> CashEventSound(names, positions, e)
  }

  predicate PositionSound(names: set<string>, cash: seq<CashEvent>, id: nat, p: Position) {
    && p.strategy in names
    && p.qty > 0
    && p.costBasis > 0
    && (p.status.Resolved? <==> p.closedAt.Some?)
    && (p.status.Resolved? <==> p.realized.Some?)
    && Collect(cash, PnlOf(id)) == if p.status.Resolved? then [p.realized.value] else []
  }

  ghost predicate PositionsSound(names: set<string>, cash: seq<CashEvent>, positions: seq<Position>) {
    forall id :: 0 <= id < |positions| ==> PositionSound(names, cash, id, positions[id])
  }

  /** Every cost basis is the half-up rounding of qty x price. */
  ghost predicate Priced(positions: seq<Position>) {
    forall p :: p in positions ==> p.costBasis == ExpectedCost(p.qty, p.price)
  }

  predicate FillSound(signals: seq<Signal>, i: nat, f: Fill, p: Position) {
    && f.position == i
    && f.side == p.side && f.qty == p.qty && f.price == p.price
    && f.fees >= 0
    && (f.signal.Some? ==> f.signal.value < |signals| && signals[f.signal.value].strategy == p.strategy)
  }

  ghost predicate FillsSound(fills: seq<Fill>, positions: seq<Position>, signals: seq<Signal>) {
    && |fills| == |positions|
    && forall i :: 0 <= i < |fills| ==> FillSound(signals, i, fills[i], positions[i])
  }

  predicate StrategySound(name: string, s: Strategy, cash: seq<CashEvent>, positions: seq<Position>, audit: seq<AuditEvent>) {
    && s.bankroll == CashTotal(cash, name)
    && Reserved(positions, name) <= s.bankroll
    && s.hwm == HighWater(s.initialDeposit, cash, name)
    && KindTotal(cash, name, RealizedPnl) == RealizedTotal(positions, name)
    && Linked(0, Collect(audit, BankrollLink(name)), s.bankroll)
    && Linked(Seeded, Collect(audit, StateLink(name)), s.state)
    && s.config.minBankroll == s.initialDeposit
    && (s.state.Decommissioned? ==> !s.enabled)
  }

  ghost predicate StrategiesSound(
    strategies: map<string, Strategy>, cash: seq<CashEvent>, positions: seq<Position>, audit: seq<AuditEvent>)
  {
    forall name :: name in strategies ==> StrategySound(name, strategies[name], cash, positions, audit)
  }

  ghost predicate AuditSound(names: set<string>, audit: seq<AuditEvent>, system: KillSwitch) {
    && (forall a :: a in audit && a.target.OnStrategy? ==> a.target.name in names)
    && Linked(EMPTY_LEDGER.system, Collect(audit, SwitchLink()), system)
    && (system.state.SystemPaused? <==> system.reason.Some?)
  }

  ghost predicate Sound(l: Ledger) {
    && StrategiesSound(l.strategies, l.cash, l.positions, l.audit)
    && CashSound(l.strategies.Keys, l.positions, l.cash)
    && PositionsSound(l.strategies.Keys, l.cash, l.positions)
    && Priced(l.positions)
    && FillsSound(l.fills, l.positions, l.signals)
    && AuditSound(l.strategies.Keys, l.audit, l.system)
  }

  // ---------------------------------------------------------------- how the projections grow

  lemma {:induction false} CollectNone<T, U>(xs: seq<T>, f: T -> Option<U>)
    requires forall i :: 0 <= i < |xs| ==> f(xs[i]).None?
    ensures Collect(xs, f) == []
    decreases |xs|
  {
    if |xs| == 0 {
    } else {
      CollectNone(xs[..|xs| - 1], f);
    }
  }

  lemma LinkedAppend<T>(start: T, links: seq<(T, T)>, before: T, after: T)
    requires Linked(start, links, before)
    ensures Linked(start, links + [(before, after)], after)
  {
    assert (links + [(before, after)])[..|links|] == links;
  }

  lemma CashGrows(cash: seq<CashEvent>, e: CashEvent, name: string)
    ensures CashTotal(cash + [e], name) == CashTotal(cash, name) + if e.strategy == name then e.amount else 0
    ensures KindTotal(cash + [e], name, RealizedPnl)
         == KindTotal(cash, name, RealizedPnl) + if e.strategy == name && e.kind.RealizedPnl? then e.amount else 0
    ensures forall start ::
              HighWater(start, cash + [e], name)
              == if e.strategy == name && e.kind.RealizedPnl?
                 then Max(HighWater(start, cash, name), e.balanceAfter) else HighWater(start, cash, name)
  {
    SumByAppend(cash, e, AmountOf(name));
    SumByAppend(cash, e, KindAmount(name, RealizedPnl));
    CollectAppend(cash, e, PnlBalance(name));
    var old' := Collect(cash, PnlBalance(name));
    assert (old' + [e.balanceAfter])[..|old'|] == old';
  }

  lemma CashSoundGrows(names: set<string>, positions: seq<Position>, cash: seq<CashEvent>, e: CashEvent)
    requires CashSound(names, positions, cash) && CashEventSound(names, positions, e)
    requires e.balanceAfter == CashTotal(cash, e.strategy) + e.amount
    ensures CashSound(names, positions, cash + [e])
  {
    assert (cash + [e])[..|cash|] == cash;
  }

  /** More strategies, more positions, or settled ones: no cash event is affected. */
  lemma CashSoundFrame(
    names: set<string>, names': set<string>, positions: seq<Position>, positions': seq<Position>, cash: seq<CashEvent>)
    requires CashSound(names, positions, cash) && names <= names' && |positions| <= |positions'|
    requires forall i :: 0 <= i < |positions| ==> positions'[i].strategy == positions[i].strategy
    ensures CashSound(names', positions', cash)
  {
    forall e | e in cash
      ensures CashEventSound(names', positions', e)
    {
      assert CashEventSound(names, positions, e);
    }
  }

  /** Only a settlement adds to what the cash log says about a position. */
  lemma PositionsSoundGrow(names: set<string>, cash: seq<CashEvent>, e: CashEvent, positions: seq<Position>)
    requires PositionsSound(names, cash, positions) && !e.kind.RealizedPnl?
    ensures PositionsSound(names, cash + [e], positions)
  {
    forall id | 0 <= id < |positions|
      ensures PositionSound(names, cash + [e], id, positions[id])
    {
      assert PositionSound(names, cash, id, positions[id]);
      CollectAppend(cash, e, PnlOf(id));
    }
  }

  lemma AuditSoundGrows(names: set<string>, audit: seq<AuditEvent>, system: KillSwitch, a: AuditEvent)
    requires AuditSound(names, audit, system) && !a.target.OnSystem?
    requires a.target.OnStrategy? ==> a.target.name in names
    ensures AuditSound(names, audit + [a], system)
  {
    CollectAppend(audit, a, SwitchLink());
  }

  /** An audit record adds at most one link to the chains of the strategy it targets. */
  lemma AuditGrows(audit: seq<AuditEvent>, a: AuditEvent, name: string, s: Strategy, s': Strategy)
    requires Linked(0, Collect(audit, BankrollLink(name)), s.bankroll)
    requires Linked(Seeded, Collect(audit, StateLink(name)), s.state)
    requires BankrollLink(name)(a) == Some((s.bankroll, s'.bankroll))
          || (BankrollLink(name)(a).None? && s'.bankroll == s.bankroll)
    requires StateLink(name)(a) == Some((s.state, s'.state))
          || (StateLink(name)(a).None? && s'.state == s.state)
    ensures Linked(0, Collect(audit + [a], BankrollLink(name)), s'.bankroll)
    ensures Linked(Seeded, Collect(audit + [a], StateLink(name)), s'.state)
  {
    CollectAppend(audit, a, BankrollLink(name));
    CollectAppend(audit, a, StateLink(name));
    LinkedAppend(0, Collect(audit, BankrollLink(name)), s.bankroll, s'.bankroll);
    LinkedAppend(Seeded, Collect(audit, StateLink(name)), s.state, s'.state);
  }

  /** A record that carries no bankroll or state leaves every strategy as sound as it was. */
  lemma StrategiesSoundUnlinked(
    strategies: map<string, Strategy>, cash: seq<CashEvent>, positions: seq<Position>,
    audit: seq<AuditEvent>, a: AuditEvent)
    requires StrategiesSound(strategies, cash, positions, audit) && !a.target.OnStrategy?
    ensures StrategiesSound(strategies, cash, positions, audit + [a])
  {
    forall n | n in strategies
      ensures StrategySound(n, strategies[n], cash, positions, audit + [a])
    {
      assert StrategySound(n, strategies[n], cash, positions, audit);
      AuditGrows(audit, a, n, strategies[n], strategies[n]);
    }
  }

  // ---------------------------------------------------------------- steps on one strategy

  function Extend<T>(xs: seq<T>, x: Option<T>): seq<T> { if x.Some? then xs + [x.value] else xs }

  /** The row, the cash event if any, and the audit record that `l'` has and `l` has not. */
  predicate Adds(l: Ledger, l': Ledger, name: string, s': Strategy, e: Option<CashEvent>, a: AuditEvent) {
    && l'.strategies == l.strategies[name := s']
    && l'.cash == Extend(l.cash, e)
    && l'.audit == l.audit + [a]
    && l'.positions == l.positions && l'.fills == l.fills && l'.signals == l.signals && l'.system == l.system
  }

  predicate MoneyMoves(name: string, s: Strategy, s': Strategy, e: Option<CashEvent>) {
    if e.None? then s'.bankroll == s.bankroll
    else e.value.strategy == name && !e.value.kind.RealizedPnl?
         && s'.bankroll == e.value.balanceAfter == s.bankroll + e.value.amount
  }

  predicate LinksOn(name: string, s: Strategy, s': Strategy, a: AuditEvent) {
    && a.target == OnStrategy(name)
    && (BankrollLink(name)(a) == Some((s.bankroll, s'.bankroll))
        || (BankrollLink(name)(a).None? && s'.bankroll == s.bankroll))
    && (StateLink(name)(a) == Some((s.state, s'.state)) || (StateLink(name)(a).None? && s'.state == s.state))
  }

  /** The limits a row must keep by itself. */
  predicate RowLimits(name: string, s: Strategy, positions: seq<Position>) {
    && Reserved(positions, name) <= s.bankroll
    && s.config.minBankroll == s.initialDeposit
    && (s.state.Decommissioned? ==> !s.enabled)
  }

  /** What every operation that writes one strategy row, at most one cash event and one
      paired audit record must establish, settlements aside. */
  predicate StrategyStep(l: Ledger, l': Ledger, name: string, s': Strategy, e: Option<CashEvent>, a: AuditEvent) {
    && name in l.strategies
    && Adds(l, l', name, s', e, a)
    && MoneyMoves(name, l.strategies[name], s', e)
    && LinksOn(name, l.strategies[name], s', a)
    && RowLimits(name, s', l.positions)
    && (e.Some? ==> CashEventSound(l.strategies.Keys, l.positions, e.value))
    && ((s'.hwm == l.strategies[name].hwm && s'.initialDeposit == l.strategies[name].initialDeposit)
        || (Collect(l.cash, PnlBalance(name)) == [] && s'.hwm == s'.initialDeposit))
  }

  lemma StepKeepsRow(
    n: string, name: string, s: Strategy, s': Strategy, cash: seq<CashEvent>, e: Option<CashEvent>,
    positions: seq<Position>, audit: seq<AuditEvent>, a: AuditEvent)
    requires StrategySound(n, s, cash, positions, audit)
    requires MoneyMoves(name, s, s', e) || (n != name && e.Some? && e.value.strategy == name) || (n != name && e.None?)
    requires a.target == OnStrategy(name)
    requires n != name ==> s' == s
    requires n == name ==>
               && LinksOn(name, s, s', a) && RowLimits(name, s', positions)
               && ((s'.hwm == s.hwm && s'.initialDeposit == s.initialDeposit)
                   || (Collect(cash, PnlBalance(name)) == [] && s'.hwm == s'.initialDeposit))
    ensures StrategySound(n, s', Extend(cash, e), positions, audit + [a])
  {
    AuditGrows(audit, a, n, s, s');
    if e.Some? { CashGrows(cash, e.value, n); }
  }

  lemma StepKeepsStrategies(l: Ledger, l': Ledger, name: string, s': Strategy, e: Option<CashEvent>, a: AuditEvent)
    requires StrategiesSound(l.strategies, l.cash, l.positions, l.audit)
    requires StrategyStep(l, l', name, s', e, a)
    ensures StrategiesSound(l'.strategies, l'.cash, l'.positions, l'.audit)
  {
    forall n | n in l'.strategies
      ensures StrategySound(n, l'.strategies[n], l'.cash, l'.positions, l'.audit)
    {
      assert StrategySound(n, l.strategies[n], l.cash, l.positions, l.audit);
      StepKeepsRow(n, name, l.strategies[n], l'.strategies[n], l.cash, e, l.positions, l.audit, a);
    }
  }

  lemma StepKeepsRecords(l: Ledger, l': Ledger, name: string, s': Strategy, e: Option<CashEvent>, a: AuditEvent)
    requires CashSound(l.strategies.Keys, l.positions, l.cash)
    requires PositionsSound(l.strategies.Keys, l.cash, l.positions)
    requires AuditSound(l.strategies.Keys, l.audit, l.system)
    requires StrategyStep(l, l', name, s', e, a) && l.strategies[name].bankroll == CashTotal(l.cash, name)
    ensures l'.strategies.Keys == l.strategies.Keys
    ensures CashSound(l.strategies.Keys, l.positions, l'.cash)
    ensures PositionsSound(l.strategies.Keys, l'.cash, l.positions)
    ensures AuditSound(l.strategies.Keys, l'.audit, l.system)
  {
    if e.Some? {
      CashSoundGrows(l.strategies.Keys, l.positions, l.cash, e.value);
      PositionsSoundGrow(l.strategies.Keys, l.cash, e.value, l.positions);
    }
    AuditSoundGrows(l.strategies.Keys, l.audit, l.system, a);
  }

  lemma StepKeepsSound(l: Ledger, l': Ledger, name: string, s': Strategy, e: Option<CashEvent>, a: AuditEvent)
    requires Sound(l) && StrategyStep(l, l', name, s', e, a)
    ensures Sound(l')
  {
    RowSound(l, name);
    StepKeepsStrategies(l, l', name, s', e, a);
    StepKeepsRecords(l, l', name, s', e, a);
  }

  lemma RowSound(l: Ledger, name: string)
    requires Sound(l) && name in l.strategies
    ensures StrategySound(name, l.strategies[name], l.cash, l.positions, l.audit)
    ensures RowLimits(name, l.strategies[name], l.positions)
  {
  }

  lemma DepositStep(l: Ledger, name: string, amount: int, now: int)
    requires Deposit(l, name, amount, now).Ok? && RowLimits(name, l.strategies[name], l.positions)
    ensures var l' := Deposit(l, name, amount, now).value;
            StrategyStep(l, l', name, l'.strategies[name], Some(l'.cash[|l.cash|]), l'.audit[|l.audit|])
  {
    var l' := Deposit(l, name, amount, now).value;
    assert l'.strategies == l.strategies[name := l'.strategies[name]];
  }

  lemma DepositKeepsSound(l: Ledger, name: string, amount: int, now: int)
    requires Sound(l)
    ensures var r := Deposit(l, name, amount, now); r.Ok? ==> Sound(r.value)
  {
    var r := Deposit(l, name, amount, now);
    if r.Ok? {
      RowSound(l, name);
      DepositStep(l, name, amount, now);
      StepKeepsSound(l, r.value, name, r.value.strategies[name], Some(r.value.cash[|l.cash|]), r.value.audit[|l.audit|]);
    }
  }

  lemma MoveStep(l: Ledger, name: string, kind: CashKind, amount: int, now: int, ref: Option<nat>, action: Action)
    requires name in l.strategies && (kind.Withdrew? || kind.Fee?) && amount < 0
    requires RowLimits(name, l.strategies[name], l.positions)
    requires Reserved(l.positions, name) <= l.strategies[name].bankroll + amount
    requires ref.Some? ==> ref.value < |l.positions| && l.positions[ref.value].strategy == name
    ensures var l' := MoveBankroll(l, name, kind, amount, now, ref, action);
            StrategyStep(l, l', name, l'.strategies[name], Some(l'.cash[|l.cash|]), l'.audit[|l.audit|])
  {
  }

  lemma MoveKeepsSound(l: Ledger, name: string, kind: CashKind, amount: int, now: int, ref: Option<nat>, action: Action)
    requires Sound(l) && name in l.strategies && (kind.Withdrew? || kind.Fee?) && amount < 0
    requires Reserved(l.positions, name) <= l.strategies[name].bankroll + amount
    requires ref.Some? ==> ref.value < |l.positions| && l.positions[ref.value].strategy == name
    ensures Sound(MoveBankroll(l, name, kind, amount, now, ref, action))
  {
    var l' := MoveBankroll(l, name, kind, amount, now, ref, action);
    RowSound(l, name);
    MoveStep(l, name, kind, amount, now, ref, action);
    StepKeepsSound(l, l', name, l'.strategies[name], Some(l'.cash[|l.cash|]), l'.audit[|l.audit|]);
  }

  lemma WithdrawKeepsSound(l: Ledger, name: string, amount: int, now: int)
    requires Sound(l)
    ensures var r := Withdraw(l, name, amount, now); r.Ok? ==> Sound(r.value)
  {
    if Withdraw(l, name, amount, now).Ok? {
      RowSound(l, name);
      MoveKeepsSound(l, name, Withdrew, -amount, now, None, DoWithdraw);
    }
  }

  /** Without a position there is nothing reserved and nothing was ever settled. */
  lemma NoActivityMeansNoSettlement(l: Ledger, name: string)
    requires Sound(l) && !HasTradingActivity(l, name)
    ensures Reserved(l.positions, name) == 0
    ensures Collect(l.cash, PnlBalance(name)) == []
  {
    SumByZero(l.positions, OpenCost(name));
    forall i | 0 <= i < |l.cash|
      ensures PnlBalance(name)(l.cash[i]).None?
    {
      assert CashEventSound(l.strategies.Keys, l.positions, l.cash[i]);
    }
    CollectNone(l.cash, PnlBalance(name));
  }

  function BaselineEvent(s: Strategy, name: string, amount: int, now: int): Option<CashEvent> {
    var delta := amount - s.bankroll;
    if delta == 0 then None
    else Some(CashEvent(name, now, if delta > 0 then Deposited else Withdrew, delta, amount, None))
  }

  lemma SetStartingBankrollStep(l: Ledger, name: string, amount: int, reason: string, now: int)
    requires SetStartingBankroll(l, name, amount, reason, now).Ok?
    requires RowLimits(name, l.strategies[name], l.positions)
    requires Reserved(l.positions, name) == 0 && Collect(l.cash, PnlBalance(name)) == []
    ensures var l' := SetStartingBankroll(l, name, amount, reason, now).value;
            StrategyStep(l, l', name, l'.strategies[name],
                         BaselineEvent(l.strategies[name], name, amount, now), l'.audit[|l.audit|])
  {
    var l' := SetStartingBankroll(l, name, amount, reason, now).value;
    assert l'.strategies == l.strategies[name := l'.strategies[name]];
  }

  lemma SetStartingBankrollKeepsSound(l: Ledger, name: string, amount: int, reason: string, now: int)
    requires Sound(l)
    ensures var r := SetStartingBankroll(l, name, amount, reason, now); r.Ok? ==> Sound(r.value)
  {
    var r := SetStartingBankroll(l, name, amount, reason, now);
    if r.Ok? {
      RowSound(l, name);
      NoActivityMeansNoSettlement(l, name);
      SetStartingBankrollStep(l, name, amount, reason, now);
      StepKeepsSound(l, r.value, name, r.value.strategies[name],
                     BaselineEvent(l.strategies[name], name, amount, now), r.value.audit[|l.audit|]);
    }
  }

  lemma SetKellyStep(l: Ledger, name: string, fraction: real)
    requires SetKelly(l, name, fraction).Ok? && RowLimits(name, l.strategies[name], l.positions)
    ensures var l' := SetKelly(l, name, fraction).value;
            StrategyStep(l, l', name, l'.strategies[name], None, l'.audit[|l.audit|])
  {
  }

  lemma SetKellyKeepsSound(l: Ledger, name: string, fraction: real)
    requires Sound(l)
    ensures var r := SetKelly(l, name, fraction); r.Ok? ==> Sound(r.value)
  {
    var r := SetKelly(l, name, fraction);
    if r.Ok? {
      RowSound(l, name);
      SetKellyStep(l, name, fraction);
      StepKeepsSound(l, r.value, name, r.value.strategies[name], None, r.value.audit[|l.audit|]);
    }
  }

  lemma TransitionStep(l: Ledger, name: string, reason: string, t: Transition)
    requires ApplyTransition(l, name, reason, t).Ok? && RowLimits(name, l.strategies[name], l.positions)
    ensures var l' := ApplyTransition(l, name, reason, t).value;
            StrategyStep(l, l', name, l'.strategies[name], None, l'.audit[|l.audit|])
  {
  }

  lemma TransitionKeepsSound(l: Ledger, name: string, reason: string, t: Transition)
    requires Sound(l)
    ensures var r := ApplyTransition(l, name, reason, t); r.Ok? ==> Sound(r.value)
  {
    var r := ApplyTransition(l, name, reason, t);
    if r.Ok? {
      RowSound(l, name);
      TransitionStep(l, name, reason, t);
      StepKeepsSound(l, r.value, name, r.value.strategies[name], None, r.value.audit[|l.audit|]);
    }
  }

  // ---------------------------------------------------------------- steps that leave strategies alone

  lemma RecordSignalKeepsSound(l: Ledger, signal: Signal)
    requires Sound(l)
    ensures var r := RecordSignal(l, signal); r.Ok? ==> Sound(r.value)
  {
    var r := RecordSignal(l, signal);
    if r.Ok? {
      var a := r.value.audit[|l.audit|];
      StrategiesSoundUnlinked(l.strategies, l.cash, l.positions, l.audit, a);
      AuditSoundGrows(l.strategies.Keys, l.audit, l.system, a);
      FillsSoundFrame(l.fills, l.positions, l.signals, signal);
    }
  }

  lemma FillsSoundFrame(fills: seq<Fill>, positions: seq<Position>, signals: seq<Signal>, signal: Signal)
    requires FillsSound(fills, positions, signals)
    ensures FillsSound(fills, positions, signals + [signal])
  {
    forall i | 0 <= i < |fills| ensures FillSound(signals + [signal], i, fills[i], positions[i]) {
      assert FillSound(signals, i, fills[i], positions[i]);
    }
  }

  lemma SwitchKeepsSound(l: Ledger, k: KillSwitch, action: Action)
    requires Sound(l) && (k.state.SystemPaused? <==> k.reason.Some?)
    ensures Sound(SwitchTo(l, k, action))
  {
    var a := SwitchTo(l, k, action).audit[|l.audit|];
    CollectAppend(l.audit, a, SwitchLink());
    LinkedAppend(EMPTY_LEDGER.system, Collect(l.audit, SwitchLink()), l.system, k);
    StrategiesSoundUnlinked(l.strategies, l.cash, l.positions, l.audit, a);
  }

  // ---------------------------------------------------------------- opening

  /** The ledger after the position and fill rows, before any fee is debited. */
  function Booked(l: Ledger, name: string, order: Order, signal: Option<nat>, fees: int): Ledger {
    AppendAudit(
      l.(positions := l.positions + [NewPosition(name, order)],
         fills := l.fills + [Fill(|l.positions|, signal, order.side, order.qty, order.price, fees)]),
      DoOpenPosition, OnPosition(|l.positions|), NoFacts, OpenedAs(|l.fills|, order.costBasis, fees))
  }

  lemma BookedKeepsStrategies(
    strategies: map<string, Strategy>, cash: seq<CashEvent>, positions: seq<Position>, audit: seq<AuditEvent>, p: Position)
    requires StrategiesSound(strategies, cash, positions, audit)
    requires p.strategy in strategies && p.status.Open? && p.realized.None?
    requires Reserved(positions, p.strategy) + p.costBasis <= strategies[p.strategy].bankroll
    ensures StrategiesSound(strategies, cash, positions + [p], audit)
  {
    forall n | n in strategies ensures StrategySound(n, strategies[n], cash, positions + [p], audit) {
      assert StrategySound(n, strategies[n], cash, positions, audit);
      SumByAppend(positions, p, OpenCost(n));
      SumByAppend(positions, p, RealizedOf(n));
    }
  }

  lemma BookedKeepsPositions(names: set<string>, cash: seq<CashEvent>, positions: seq<Position>, name: string, order: Order)
    requires PositionsSound(names, cash, positions) && CashSound(names, positions, cash) && name in names
    requires order.qty > 0 && order.costBasis > 0
    ensures PositionsSound(names, cash, positions + [NewPosition(name, order)])
  {
    var positions' := positions + [NewPosition(name, order)];
    forall id | 0 <= id < |positions'| ensures PositionSound(names, cash, id, positions'[id]) {
      if id < |positions| {
        assert PositionSound(names, cash, id, positions[id]);
      } else {
        forall i | 0 <= i < |cash| ensures PnlOf(id)(cash[i]).None? {
          assert CashEventSound(names, positions, cash[i]);
        }
        CollectNone(cash, PnlOf(id));
      }
    }
  }

  lemma BookedKeepsFills(fills: seq<Fill>, positions: seq<Position>, signals: seq<Signal>, f: Fill, p: Position)
    requires FillsSound(fills, positions, signals) && FillSound(signals, |positions|, f, p)
    ensures FillsSound(fills + [f], positions + [p], signals)
  {
    forall i | 0 <= i < |fills + [f]| ensures FillSound(signals, i, (fills + [f])[i], (positions + [p])[i]) {
      if i < |fills| { assert FillSound(signals, i, fills[i], positions[i]); }
    }
  }

  /** An order whose rows may be booked. */
  predicate Bookable(l: Ledger, name: string, order: Order, signal: Option<nat>, fees: int) {
    && name in l.strategies && fees >= 0 && order.qty > 0 && order.costBasis > 0
    && order.costBasis == ExpectedCost(order.qty, order.price)
    && (signal.Some? ==> signal.value < |l.signals| && l.signals[signal.value].strategy == name)
    && Reserved(l.positions, name) + order.costBasis <= l.strategies[name].bankroll
  }

  lemma BookedKeepsTrails(l: Ledger, name: string, order: Order, signal: Option<nat>, fees: int)
    requires StrategiesSound(l.strategies, l.cash, l.positions, l.audit)
    requires AuditSound(l.strategies.Keys, l.audit, l.system) && Bookable(l, name, order, signal, fees)
    ensures var l' := Booked(l, name, order, signal, fees);
            && StrategiesSound(l'.strategies, l'.cash, l'.positions, l'.audit)
            && AuditSound(l'.strategies.Keys, l'.audit, l'.system)
  {
    var l' := Booked(l, name, order, signal, fees);
    BookedKeepsStrategies(l.strategies, l.cash, l.positions, l.audit, NewPosition(name, order));
    StrategiesSoundUnlinked(l.strategies, l.cash, l'.positions, l.audit, l'.audit[|l.audit|]);
    AuditSoundGrows(l.strategies.Keys, l.audit, l.system, l'.audit[|l.audit|]);
  }

  lemma BookedKeepsRecords(l: Ledger, name: string, order: Order, signal: Option<nat>, fees: int)
    requires CashSound(l.strategies.Keys, l.positions, l.cash)
    requires PositionsSound(l.strategies.Keys, l.cash, l.positions)
    requires FillsSound(l.fills, l.positions, l.signals) && Bookable(l, name, order, signal, fees)
    ensures var l' := Booked(l, name, order, signal, fees);
            && CashSound(l'.strategies.Keys, l'.positions, l'.cash)
            && PositionsSound(l'.strategies.Keys, l'.cash, l'.positions)
            && FillsSound(l'.fills, l'.positions, l'.signals)
  {
    var l' := Booked(l, name, order, signal, fees);
    BookedKeepsPositions(l.strategies.Keys, l.cash, l.positions, name, order);
    CashSoundFrame(l.strategies.Keys, l.strategies.Keys, l.positions, l'.positions, l.cash);
    BookedKeepsFills(l.fills, l.positions, l.signals, l'.fills[|l.fills|], NewPosition(name, order));
  }

  lemma BookedKeepsSound(l: Ledger, name: string, order: Order, signal: Option<nat>, fees: int)
    requires Sound(l) && Bookable(l, name, order, signal, fees)
    ensures Sound(Booked(l, name, order, signal, fees))
    ensures Reserved(Booked(l, name, order, signal, fees).positions, name)
         == Reserved(l.positions, name) + order.costBasis
  {
    BookedKeepsTrails(l, name, order, signal, fees);
    BookedKeepsRecords(l, name, order, signal, fees);
    SumByAppend(l.positions, NewPosition(name, order), OpenCost(name));
  }

  /** When an order is accepted, and the two stages of booking it. */
  lemma OpenStages(l: Ledger, name: string, order: Order, signal: Option<nat>, fees: int, now: int)
    requires OpenPosition(l, name, order, signal, fees, now).Ok?
    ensures Bookable(l, name, order, signal, fees)
    ensures Reserved(l.positions, name) + order.costBasis + fees <= l.strategies[name].bankroll
    ensures OpenPosition(l, name, order, signal, fees, now).value
         == var booked := Booked(l, name, order, signal, fees);
            if fees == 0 then booked
            else MoveBankroll(booked, name, Fee, -fees, now, Some(|l.positions|), DoFillFee)
  {
  }

  lemma OpenPositionKeepsSound(l: Ledger, name: string, order: Order, signal: Option<nat>, fees: int, now: int)
    requires Sound(l)
    ensures var r := OpenPosition(l, name, order, signal, fees, now); r.Ok? ==> Sound(r.value)
  {
    if OpenPosition(l, name, order, signal, fees, now).Ok? {
      OpenStages(l, name, order, signal, fees, now);
      BookedKeepsSound(l, name, order, signal, fees);
      if fees > 0 {
        MoveKeepsSound(Booked(l, name, order, signal, fees), name, Fee, -fees, now, Some(|l.positions|), DoFillFee);
      }
    }
  }

  // ---------------------------------------------------------------- settling

  /** A settlement price that a contract can have. */
  predicate ValidResolution(res: Resolution) { 0.0 <= res.settlement <= 1.0 }

  lemma NotionalNonNegative(qty: int, price: real)
    requires qty >= 0 && price >= 0.0
    ensures Notional(qty, price) >= 0.0
  {
  }

  /** No settlement loses more than the cost basis. */
  lemma LossIsBounded(p: Position, res: Resolution)
    requires p.qty > 0 && p.costBasis > 0 && ValidResolution(res)
    ensures PnlAt(p, res) >= -p.costBasis
  {
    NotionalNonNegative(p.qty, if p.side.Yes? then res.settlement else 1.0 - res.settlement);
  }

  /** The rows a settlement writes: one cash event, two audit records, one position. */
  lemma SettlementRows(l: Ledger, id: nat, realized: int, now: int)
    requires id < |l.positions| && l.positions[id].strategy in l.strategies
    ensures var p := l.positions[id];
            var s := l.strategies[p.strategy];
            var balance := s.bankroll + realized;
            var l' := Settle(l, id, realized, now);
            && l'.cash == l.cash + [CashEvent(p.strategy, now, RealizedPnl, realized, balance, Some(id))]
            && l'.strategies == l.strategies[p.strategy := s.(bankroll := balance, hwm := Max(s.hwm, balance))]
            && l'.positions == l.positions[id := SettledPosition(p, realized, now)]
            && l'.audit == l.audit
               + [AuditEvent(DoRecordRealizedPnl, OnStrategy(p.strategy), Funds(s.bankroll), Funds(balance))]
               + [AuditEvent(DoResolvePosition, OnPosition(id), StatusIs(Open), SettledFor(realized))]
            && l'.fills == l.fills && l'.signals == l.signals && l'.system == l.system
  {
  }

  /** Settling one position keeps a strategy's row sound, whether or not it is the owner. */
  lemma SettlementKeepsRow(
    n: string, s: Strategy, cash: seq<CashEvent>, positions: seq<Position>, audit: seq<AuditEvent>,
    id: nat, q: Position, e: CashEvent, a: AuditEvent)
    requires StrategySound(n, s, cash, positions, audit)
    requires id < |positions| && positions[id].status.Open? && positions[id].realized.None?
    requires q == positions[id].(status := Resolved, closedAt := q.closedAt, realized := Some(e.amount))
    requires e.strategy == positions[id].strategy && e.kind.RealizedPnl?
    requires a.target == OnStrategy(e.strategy)
    requires e.strategy == n ==>
               && e.balanceAfter == s.bankroll + e.amount
               && a.before == Funds(s.bankroll) && a.after == Funds(e.balanceAfter)
               && q.costBasis + e.amount >= 0
    ensures var s' := if e.strategy == n
                      then s.(bankroll := e.balanceAfter, hwm := Max(s.hwm, e.balanceAfter)) else s;
            StrategySound(n, s', cash + [e], positions[id := q], audit + [a])
  {
    var s' := if e.strategy == n
              then s.(bankroll := e.balanceAfter, hwm := Max(s.hwm, e.balanceAfter)) else s;
    AuditGrows(audit, a, n, s, s');
    CashGrows(cash, e, n);
    SumByUpdate(positions, id, q, RealizedOf(n));
    SumByUpdate(positions, id, q, OpenCost(n));
  }

  lemma SettlementKeepsStrategies(
    strategies: map<string, Strategy>, cash: seq<CashEvent>, positions: seq<Position>, audit: seq<AuditEvent>,
    id: nat, q: Position, e: CashEvent, a: AuditEvent)
    requires StrategiesSound(strategies, cash, positions, audit)
    requires id < |positions| && positions[id].status.Open? && positions[id].realized.None?
    requires q == positions[id].(status := Resolved, closedAt := q.closedAt, realized := Some(e.amount))
    requires e.strategy == positions[id].strategy && e.strategy in strategies && e.kind.RealizedPnl?
    requires var s := strategies[e.strategy];
             && e.balanceAfter == s.bankroll + e.amount
             && a.target == OnStrategy(e.strategy) && a.before == Funds(s.bankroll) && a.after == Funds(e.balanceAfter)
             && q.costBasis + e.amount >= 0
    ensures var s := strategies[e.strategy];
            StrategiesSound(
              strategies[e.strategy := s.(bankroll := e.balanceAfter, hwm := Max(s.hwm, e.balanceAfter))],
              cash + [e], positions[id := q], audit + [a])
  {
    var s := strategies[e.strategy];
    var strategies' := strategies[e.strategy := s.(bankroll := e.balanceAfter, hwm := Max(s.hwm, e.balanceAfter))];
    forall n | n in strategies'
      ensures StrategySound(n, strategies'[n], cash + [e], positions[id := q], audit + [a])
    {
      SettlementKeepsRow(n, strategies[n], cash, positions, audit, id, q, e, a);
    }
  }

  /** A position that can be settled for `realized` without overdrawing. */
  predicate Settles(l: Ledger, id: nat, realized: int) {
    && id < |l.positions| && l.positions[id].strategy in l.strategies
    && l.positions[id].status.Open? && l.positions[id].realized.None?
    && realized >= -l.positions[id].costBasis
  }

  /** The cash event and the audit record of a settlement. */
  function SettlementCash(l: Ledger, p: Position, id: nat, realized: int, now: int): CashEvent
    requires p.strategy in l.strategies
  {
    CashEvent(p.strategy, now, RealizedPnl, realized, l.strategies[p.strategy].bankroll + realized, Some(id))
  }

  function SettlementAudit(l: Ledger, p: Position, realized: int): AuditEvent
    requires p.strategy in l.strategies
  {
    var was := l.strategies[p.strategy].bankroll;
    AuditEvent(DoRecordRealizedPnl, OnStrategy(p.strategy), Funds(was), Funds(was + realized))
  }

  lemma SettleWrites(l: Ledger, id: nat, realized: int, now: int)
    requires id < |l.positions| && l.positions[id].strategy in l.strategies
    ensures var p, l' := l.positions[id], Settle(l, id, realized, now);
            var s, e := l.strategies[p.strategy], SettlementCash(l, p, id, realized, now);
            && l'.strategies == l.strategies[p.strategy := s.(bankroll := e.balanceAfter, hwm := Max(s.hwm, e.balanceAfter))]
            && l'.cash == l.cash + [e] && l'.positions == l.positions[id := SettledPosition(p, realized, now)]
            && |l'.audit| > |l.audit| && l'.audit[|l.audit|] == SettlementAudit(l, p, realized)
  {
    SettlementRows(l, id, realized, now);
  }

  lemma SettleKeepsStrategies(l: Ledger, id: nat, realized: int, now: int)
    requires StrategiesSound(l.strategies, l.cash, l.positions, l.audit) && Settles(l, id, realized)
    ensures var l' := Settle(l, id, realized, now);
            StrategiesSound(l'.strategies, l'.cash, l'.positions, l.audit + [l'.audit[|l.audit|]])
  {
    var p := l.positions[id];
    SettleWrites(l, id, realized, now);
    SettlementKeepsStrategies(l.strategies, l.cash, l.positions, l.audit, id, SettledPosition(p, realized, now),
                              SettlementCash(l, p, id, realized, now), SettlementAudit(l, p, realized));
  }

  lemma SettleKeepsTrails(l: Ledger, id: nat, realized: int, now: int)
    requires StrategiesSound(l.strategies, l.cash, l.positions, l.audit)
    requires AuditSound(l.strategies.Keys, l.audit, l.system) && Settles(l, id, realized)
    ensures var l' := Settle(l, id, realized, now);
            && l'.strategies.Keys == l.strategies.Keys
            && StrategiesSound(l'.strategies, l'.cash, l'.positions, l'.audit)
            && AuditSound(l.strategies.Keys, l'.audit, l'.system)
  {
    var l' := Settle(l, id, realized, now);
    SettleKeepsStrategies(l, id, realized, now);
    SettlementRows(l, id, realized, now);
    var paid, closed := l'.audit[|l.audit|], l'.audit[|l.audit| + 1];
    StrategiesSoundUnlinked(l'.strategies, l'.cash, l'.positions, l.audit + [paid], closed);
    AuditSoundGrows(l.strategies.Keys, l.audit, l.system, paid);
    AuditSoundGrows(l.strategies.Keys, l.audit + [paid], l.system, closed);
  }

  lemma SettlementKeepsPositions(
    names: set<string>, cash: seq<CashEvent>, positions: seq<Position>, id: nat, q: Position, e: CashEvent)
    requires PositionsSound(names, cash, positions) && id < |positions| && positions[id].status.Open?
    requires q.closedAt.Some? && q == positions[id].(status := Resolved, closedAt := q.closedAt, realized := Some(e.amount))
    requires e.kind.RealizedPnl? && e.ref == Some(id)
    ensures PositionsSound(names, cash + [e], positions[id := q])
  {
    var positions' := positions[id := q];
    forall k | 0 <= k < |positions'|
      ensures PositionSound(names, cash + [e], k, positions'[k])
    {
      assert PositionSound(names, cash, k, positions[k]);
      CollectAppend(cash, e, PnlOf(k));
    }
  }

  lemma SettlementKeepsFills(fills: seq<Fill>, positions: seq<Position>, signals: seq<Signal>, id: nat, q: Position)
    requires FillsSound(fills, positions, signals) && id < |positions|
    requires q == positions[id].(status := q.status, closedAt := q.closedAt, realized := q.realized)
    ensures FillsSound(fills, positions[id := q], signals)
  {
    var positions' := positions[id := q];
    forall k | 0 <= k < |fills|
      ensures FillSound(signals, k, fills[k], positions'[k])
    {
      assert FillSound(signals, k, fills[k], positions[k]);
    }
  }

  lemma SettleKeepsRecords(l: Ledger, id: nat, realized: int, now: int)
    requires CashSound(l.strategies.Keys, l.positions, l.cash)
    requires PositionsSound(l.strategies.Keys, l.cash, l.positions)
    requires FillsSound(l.fills, l.positions, l.signals) && Priced(l.positions) && Settles(l, id, realized)
    requires l.strategies[l.positions[id].strategy].bankroll == CashTotal(l.cash, l.positions[id].strategy)
    ensures var l' := Settle(l, id, realized, now);
            && CashSound(l.strategies.Keys, l'.positions, l'.cash)
            && PositionsSound(l.strategies.Keys, l'.cash, l'.positions)
            && FillsSound(l'.fills, l'.positions, l'.signals)
            && Priced(l'.positions)
  {
    var l' := Settle(l, id, realized, now);
    SettlementRows(l, id, realized, now);
    var e, q := l'.cash[|l.cash|], l'.positions[id];
    CashSoundGrows(l.strategies.Keys, l.positions, l.cash, e);
    CashSoundFrame(l.strategies.Keys, l.strategies.Keys, l.positions, l'.positions, l'.cash);
    SettlementKeepsPositions(l.strategies.Keys, l.cash, l.positions, id, q, e);
    SettlementKeepsFills(l.fills, l.positions, l.signals, id, q);
    PricedKept(l.positions, id, q);
  }

  lemma SettleKeepsSound(l: Ledger, id: nat, realized: int, now: int)
    requires Sound(l) && Settles(l, id, realized)
    ensures Sound(Settle(l, id, realized, now))
  {
    RowSound(l, l.positions[id].strategy);
    SettleKeepsTrails(l, id, realized, now);
    SettleKeepsRecords(l, id, realized, now);
  }

  lemma PricedKept(positions: seq<Position>, id: nat, q: Position)
    requires Priced(positions) && id < |positions|
    requires q.qty == positions[id].qty && q.price == positions[id].price && q.costBasis == positions[id].costBasis
    ensures Priced(positions[id := q])
  {
    forall p | p in positions[id := q] ensures p.costBasis == ExpectedCost(p.qty, p.price) {
      assert positions[id] in positions;
    }
  }

  lemma ResolveKeepsSound(l: Ledger, id: nat, res: Resolution, now: int)
    requires Sound(l) && id < |l.positions| && ValidResolution(res)
    ensures ResolvePosition(l, id, res, now).Ok? && Sound(ResolvePosition(l, id, res, now).value)
  {
    var p := l.positions[id];
    assert PositionSound(l.strategies.Keys, l.cash, id, p);
    if p.status.Open? {
      LossIsBounded(p, res);
      SettleKeepsSound(l, id, PnlAt(p, res), now);
    }
  }

  // ---------------------------------------------------------------- seeding

  /** A name the table does not hold has no trace in any log. */
  lemma UnknownHasNoTrace(l: Ledger, n: string)
    requires Sound(l) && n !in l.strategies
    ensures CashTotal(l.cash, n) == 0 && KindTotal(l.cash, n, RealizedPnl) == 0
    ensures Collect(l.cash, PnlBalance(n)) == []
    ensures Reserved(l.positions, n) == 0 && RealizedTotal(l.positions, n) == 0
    ensures Collect(l.audit, BankrollLink(n)) == [] && Collect(l.audit, StateLink(n)) == []
  {
    forall i | 0 <= i < |l.cash| ensures l.cash[i].strategy != n {
      assert CashEventSound(l.strategies.Keys, l.positions, l.cash[i]);
    }
    forall i | 0 <= i < |l.positions| ensures l.positions[i].strategy != n {
      assert PositionSound(l.strategies.Keys, l.cash, i, l.positions[i]);
    }
    SumByZero(l.cash, AmountOf(n));
    SumByZero(l.cash, KindAmount(n, RealizedPnl));
    CollectNone(l.cash, PnlBalance(n));
    SumByZero(l.positions, OpenCost(n));
    SumByZero(l.positions, RealizedOf(n));
    CollectNone(l.audit, BankrollLink(n));
    CollectNone(l.audit, StateLink(n));
  }

  lemma InsertKeepsSound(l: Ledger, name: string, initial: int)
    requires Sound(l) && name !in l.strategies
    ensures Sound(l.(strategies := l.strategies[name := SeedRow(name, initial)]))
  {
    var l' := l.(strategies := l.strategies[name := SeedRow(name, initial)]);
    UnknownHasNoTrace(l, name);
    forall n | n in l'.strategies ensures StrategySound(n, l'.strategies[n], l'.cash, l'.positions, l'.audit) {
      if n != name { RowSound(l, n); }
    }
    CashSoundFrame(l.strategies.Keys, l'.strategies.Keys, l.positions, l.positions, l.cash);
    forall id | 0 <= id < |l.positions| ensures PositionSound(l'.strategies.Keys, l.cash, id, l.positions[id]) {
      assert PositionSound(l.strategies.Keys, l.cash, id, l.positions[id]);
    }
  }

  lemma SeedOneKeepsSound(l: Ledger, name: string, initial: int, now: int)
    requires Sound(l)
    ensures var r := SeedOne(l, name, initial, now); r.Ok? ==> Sound(r.value)
  {
    if name !in l.strategies {
      var inserted := l.(strategies := l.strategies[name := SeedRow(name, initial)]);
      InsertKeepsSound(l, name, initial);
      DepositKeepsSound(inserted, name, initial, now);
      var r := Deposit(inserted, name, initial, now);
      if r.Ok? { TransitionKeepsSound(r.value, name, "initial seed activation", BootstrapActivate); }
    }
  }

  lemma {:induction false} SeedAllKeepsSound(
    l: Ledger, names: seq<string>, initial: int, overrides: map<string, int>, now: int)
    requires Sound(l)
    ensures var r := SeedAll(l, names, initial, overrides, now); r.Ok? ==> Sound(r.value)
    decreases |names|
  {
    if |names| == 0 {
    } else {
      var last := names[|names| - 1];
      SeedAllKeepsSound(l, names[..|names| - 1], initial, overrides, now);
      var r := SeedAll(l, names[..|names| - 1], initial, overrides, now);
      if r.Ok? { SeedOneKeepsSound(r.value, last, SeedAmount(last, initial, overrides), now); }
    }
  }
}
