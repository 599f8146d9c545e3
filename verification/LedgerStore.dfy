/** The ledger writer itself: tables that change in place, one method per operation
    (core/ledger/writer.py, core/ledger/seed.py). Every method is proved to commit exactly
    the database its function in LedgerSpec.dfy describes, and to leave every table as it
    was when that function answers with an error. */
module LedgerStore {
  import opened Lists
  import opened Domain
  import opened LedgerSpec

  /** The database after an operation: what was specified, or what was there before. */
  function After(before: Ledger, spec: Result<Ledger, LedgerError>): Ledger {
    if spec.Ok? then spec.value else before
  }

  /** The caller sees an error exactly when the operation has one. */
  predicate Reports<T, U>(r: Result<T, LedgerError>, spec: Result<U, LedgerError>) {
    r.Ok? == spec.Ok? && (spec.Err? ==> r.Err? && r.error == spec.error)
  }

  class Store {
    var system: KillSwitch
    var strategies: map<string, Strategy>
    var cash: seq<CashEvent>
    var positions: seq<Position>
    var fills: seq<Fill>
    var signals: seq<Signal>
    var audit: seq<AuditEvent>

    function Value(): Ledger
      reads this
    {
      Ledger(system, strategies, cash, positions, fills, signals, audit)
    }

    constructor ()
      ensures Value() == EMPTY_LEDGER
    {
      system := KillSwitch(SystemActive, None, None);
      strategies := map[];
      cash, positions, fills, signals, audit := [], [], [], [], [];
    }

    /** Discard the session: every table goes back to what it was. */
    method Rollback(saved: Ledger)
      modifies this
      ensures Value() == saved
    {
      system, strategies, cash := saved.system, saved.strategies, saved.cash;
      positions, fills, signals, audit := saved.positions, saved.fills, saved.signals, saved.audit;
    }

    // -------------------------------------------------------------- reads

    method FreeCashCents(name: string) returns (free: int)
      ensures free == FreeCash(Value(), name)
    {
      if name !in strategies { return 0; }
      var reserved := 0;
      for i := 0 to |positions|
        invariant reserved == Reserved(positions[..i], name)
      {
        SumByAppend(positions[..i], positions[i], OpenCost(name));
        assert positions[..i + 1] == positions[..i] + [positions[i]];
        if positions[i].strategy == name && positions[i].status.Open? {
          reserved := reserved + positions[i].costBasis;
        }
      }
      assert positions[..|positions|] == positions;
      free := strategies[name].bankroll - reserved;
      if free < 0 { free := 0; }
    }

    /** check_bankroll_invariant: true when it does not raise. */
    method CheckBankrollInvariant(name: string) returns (ok: bool)
      ensures ok <==> Reconciles(Value(), name)
    {
      if name !in strategies { return false; }
      var total := 0;
      for i := 0 to |cash|
        invariant total == CashTotal(cash[..i], name)
      {
        SumByAppend(cash[..i], cash[i], AmountOf(name));
        assert cash[..i + 1] == cash[..i] + [cash[i]];
        if cash[i].strategy == name { total := total + cash[i].amount; }
      }
      assert cash[..|cash|] == cash;
      ok := strategies[name].bankroll == total;
    }

    // -------------------------------------------------------------- appends

    method RecordAudit(action: Action, target: Target, before: Facts, after: Facts)
      modifies this`audit
      ensures audit == old(audit) + [AuditEvent(action, target, before, after)]
    {
      audit := audit + [AuditEvent(action, target, before, after)];
    }

    method RecordCashEvent(name: string, kind: CashKind, amount: int, balanceAfter: int, now: int, ref: Option<nat>)
      returns (e: CashEvent)
      requires name in strategies
      modifies this`cash, this`strategies
      ensures e == CashEvent(name, now, kind, amount, balanceAfter, ref)
      ensures cash == old(cash) + [e]
      ensures strategies == old(strategies)[name := old(strategies)[name].(bankroll := balanceAfter)]
    {
      e := CashEvent(name, now, kind, amount, balanceAfter, ref);
      cash := cash + [e];
      strategies := strategies[name := strategies[name].(bankroll := balanceAfter)];
    }

    method WriteBankrollEvent(
      name: string, kind: CashKind, amount: int, balanceAfter: int, now: int, ref: Option<nat>,
      action: Action, before: Facts, after: Facts) returns (e: CashEvent)
      requires name in strategies
      modifies this`cash, this`strategies, this`audit
      ensures e == CashEvent(name, now, kind, amount, balanceAfter, ref)
      ensures cash == old(cash) + [e]
      ensures strategies == old(strategies)[name := old(strategies)[name].(bankroll := balanceAfter)]
      ensures audit == old(audit) + [AuditEvent(action, OnStrategy(name), before, after)]
    {
      e := RecordCashEvent(name, kind, amount, balanceAfter, now, ref);
      RecordAudit(action, OnStrategy(name), before, after);
    }

    // -------------------------------------------------------------- operator cash moves

    method DepositCash(name: string, amount: int, now: int) returns (r: Result<CashEvent, LedgerError>)
      modifies this
      ensures Value() == After(old(Value()), Deposit(old(Value()), name, amount, now))
      ensures Reports(r, Deposit(old(Value()), name, amount, now))
      ensures r.Ok? ==> cash == old(cash) + [r.value]
    {
      if system.state.SystemPaused? { return Err(KillSwitchActive); }
      if amount <= 0 { return Err(AmountNotPositive); }
      if name !in strategies { return Err(StrategyNotFound); }
      var s := strategies[name];
      if s.state.Decommissioned? { return Err(DepositBlocked); }
      var newBankroll := s.bankroll + amount;
      var newState := s.state;
      if ShouldAutoResume(s.state, s.config, newBankroll) {
        newState := Active;
        strategies := strategies[name := s.(state := newState)];
      }
      var e := WriteBankrollEvent(name, Deposited, amount, newBankroll, now, None, DoDeposit,
                                  FundsAndState(s.bankroll, s.state), FundsAndState(newBankroll, newState));
      assert strategies == old(strategies)[name := s.(bankroll := newBankroll, state := newState)];
      return Ok(e);
    }

    method WithdrawCash(name: string, amount: int, now: int) returns (r: Result<CashEvent, LedgerError>)
      modifies this
      ensures Value() == After(old(Value()), Withdraw(old(Value()), name, amount, now))
      ensures Reports(r, Withdraw(old(Value()), name, amount, now))
      ensures r.Ok? ==> cash == old(cash) + [r.value]
    {
      if system.state.SystemPaused? { return Err(KillSwitchActive); }
      if amount <= 0 { return Err(AmountNotPositive); }
      if name !in strategies { return Err(StrategyNotFound); }
      var free := FreeCashCents(name);
      if amount > free { return Err(ExceedsFreeCash(free)); }
      var bankroll := strategies[name].bankroll;
      var e := WriteBankrollEvent(name, Withdrew, -amount, bankroll - amount, now, None, DoWithdraw,
                                  Funds(bankroll), Funds(bankroll - amount));
      return Ok(e);
    }

    method SetStarting(name: string, amount: int, reason: string, now: int) returns (r: Result<Strategy, LedgerError>)
      modifies this
      ensures Value() == After(old(Value()), SetStartingBankroll(old(Value()), name, amount, reason, now))
      ensures Reports(r, SetStartingBankroll(old(Value()), name, amount, reason, now))
      ensures r.Ok? ==> name in strategies && r.value == strategies[name]
    {
      if system.state.SystemPaused? { return Err(KillSwitchActive); }
      if amount <= 0 { return Err(AmountNotPositive); }
      if Blank(reason) { return Err(ReasonRequired); }
      if name !in strategies { return Err(StrategyNotFound); }
      if strategies[name].state.Decommissioned? { return Err(StrategyIsDecommissioned); }
      if HasTradingActivity(Value(), name) { return Err(TradingActivityExists); }
      var before := BaselineFacts(strategies[name]);
      var delta := amount - strategies[name].bankroll;
      if delta != 0 {
        var _ := RecordCashEvent(name, if delta > 0 then Deposited else Withdrew, delta, amount, now, None);
      }
      var s := strategies[name];
      s := s.(initialDeposit := amount);
      s := s.(hwm := amount);
      s := s.(config := WithStartingBaseline(s.config, amount));
      strategies := strategies[name := s];
      RecordAudit(DoSetStartingBankroll, OnStrategy(name), before, BaselineFacts(s));
      return Ok(s);
    }

    // -------------------------------------------------------------- signals and positions

    method AddSignal(signal: Signal) returns (r: Result<nat, LedgerError>)
      modifies this
      ensures Value() == After(old(Value()), RecordSignal(old(Value()), signal))
      ensures Reports(r, RecordSignal(old(Value()), signal))
      ensures r.Ok? ==> r.value == |old(signals)|
    {
      if system.state.SystemPaused? { return Err(KillSwitchActive); }
      var id := |signals|;
      signals := signals + [signal];
      RecordAudit(DoRecordSignal, OnSignal(id), NoFacts, OutcomeIs(signal.outcome));
      return Ok(id);
    }

    method OpenPaperPosition(name: string, order: Order, signal: Option<nat>, fees: int, now: int)
      returns (r: Result<(nat, nat), LedgerError>)
      modifies this
      ensures Value() == After(old(Value()), OpenPosition(old(Value()), name, order, signal, fees, now))
      ensures Reports(r, OpenPosition(old(Value()), name, order, signal, fees, now))
      ensures r.Ok? ==> r.value == (|old(positions)|, |old(fills)|)
    {
      if system.state.SystemPaused? { return Err(KillSwitchActive); }
      if order.qty <= 0 { return Err(QuantityNotPositive); }
      if order.costBasis <= 0 { return Err(CostNotPositive); }
      if fees < 0 { return Err(FeesNegative); }
      var expected := ExpectedCost(order.qty, order.price);
      if order.costBasis != expected { return Err(CostMismatch(expected)); }
      if signal.Some? {
        if signal.value >= |signals| { return Err(SignalNotFound); }
        if signals[signal.value].strategy != name { return Err(SignalOfOtherStrategy); }
      }
      if name !in strategies { return Err(StrategyNotFound); }
      var free := FreeCashCents(name);
      if order.costBasis + fees > free { return Err(ExceedsFreeCash(free)); }
      var id, fill := |positions|, |fills|;
      positions := positions + [NewPosition(name, order)];
      fills := fills + [Fill(id, signal, order.side, order.qty, order.price, fees)];
      RecordAudit(DoOpenPosition, OnPosition(id), NoFacts, OpenedAs(fill, order.costBasis, fees));
      if fees > 0 {
        var bankroll := strategies[name].bankroll;
        var _ := WriteBankrollEvent(name, Fee, -fees, bankroll - fees, now, Some(id), DoFillFee,
                                    Funds(bankroll), Funds(bankroll - fees));
      }
      return Ok((id, fill));
    }

    method RealizePnl(name: string, amount: int, now: int, ref: Option<nat>) returns (e: CashEvent)
      requires name in strategies
      modifies this
      ensures Value() == RecordRealizedPnl(old(Value()), name, amount, now, ref)
      ensures cash == old(cash) + [e]
    {
      var bankroll := strategies[name].bankroll;
      e := WriteBankrollEvent(name, RealizedPnl, amount, bankroll + amount, now, ref, DoRecordRealizedPnl,
                              Funds(bankroll), Funds(bankroll + amount));
      if bankroll + amount > strategies[name].hwm {
        strategies := strategies[name := strategies[name].(hwm := bankroll + amount)];
      }
    }

    method Resolve(id: nat, res: Resolution, now: int) returns (r: Result<(), LedgerError>)
      requires id < |positions|
      modifies this
      ensures Value() == After(old(Value()), ResolvePosition(old(Value()), id, res, now))
      ensures Reports(r, ResolvePosition(old(Value()), id, res, now))
    {
      var p := positions[id];
      if !p.status.Open? { return Ok(()); }
      var payout := Payout(p.side, p.qty, p.costBasis, res);
      var realized := payout - p.costBasis;
      if p.strategy !in strategies { return Err(StrategyNotFound); }
      var _ := RealizePnl(p.strategy, realized, now, Some(id));
      p := p.(status := Resolved);
      p := p.(closedAt := Some(now));
      p := p.(realized := Some(realized));
      positions := positions[id := p];
      RecordAudit(DoResolvePosition, OnPosition(id), StatusIs(Open), SettledFor(realized));
      return Ok(());
    }

    // -------------------------------------------------------------- kill switch and lifecycle

    method ApplyKillSwitch(reason: string, now: int) returns (r: Result<(), LedgerError>)
      modifies this
      ensures Value() == After(old(Value()), TripKillSwitch(old(Value()), reason, now))
      ensures Reports(r, TripKillSwitch(old(Value()), reason, now))
    {
      if Blank(reason) { return Err(ReasonRequired); }
      var before := system;
      system := KillSwitch(SystemPaused, Some(reason), Some(now));
      RecordAudit(DoTripKillSwitch, OnSystem, SwitchIs(before), SwitchIs(system));
      return Ok(());
    }

    method LiftKillSwitch(reason: string) returns (r: Result<(), LedgerError>)
      modifies this
      ensures Value() == After(old(Value()), ClearKillSwitch(old(Value()), reason))
      ensures Reports(r, ClearKillSwitch(old(Value()), reason))
    {
      if Blank(reason) { return Err(ReasonRequired); }
      var before := system;
      system := KillSwitch(SystemActive, None, None);
      RecordAudit(DoResumeKillSwitch, OnSystem, SwitchIs(before), SwitchIs(system));
      return Ok(());
    }

    method SetKellyFraction(name: string, fraction: real) returns (r: Result<(), LedgerError>)
      modifies this
      ensures Value() == After(old(Value()), SetKelly(old(Value()), name, fraction))
      ensures Reports(r, SetKelly(old(Value()), name, fraction))
    {
      if system.state.SystemPaused? { return Err(KillSwitchActive); }
      if name !in strategies { return Err(StrategyNotFound); }
      var s := strategies[name];
      if s.state.Decommissioned? { return Err(StrategyIsDecommissioned); }
      var value := if fraction > 1.0 then 1.0 else fraction;
      if value < 0.0 { value := 0.0; }
      strategies := strategies[name := s.(kellyFraction := value)];
      RecordAudit(DoSetKelly, OnStrategy(name), KellyIs(s.kellyFraction), KellyIs(value));
      return Ok(());
    }

    method ChangeState(name: string, reason: string, t: Transition) returns (r: Result<(), LedgerError>)
      modifies this
      ensures Value() == After(old(Value()), ApplyTransition(old(Value()), name, reason, t))
      ensures Reports(r, ApplyTransition(old(Value()), name, reason, t))
    {
      if Blank(reason) { return Err(ReasonRequired); }
      if !t.BootstrapActivate? && system.state.SystemPaused? { return Err(KillSwitchActive); }
      if name !in strategies { return Err(StrategyNotFound); }
      var s := strategies[name];
      if !t.Allowed(s.state) { return Err(CannotTransition(s.state)); }
      var before, after := StateIs(s.state), StateIs(t.Destination());
      if t.Decommission? {
        before := StateAndEnabled(s.state, s.enabled);
        strategies := strategies[name := s.(enabled := false)];
        after := StateAndEnabled(t.Destination(), false);
      }
      strategies := strategies[name := strategies[name].(state := t.Destination())];
      RecordAudit(t.Audited(), OnStrategy(name), before, after);
      assert strategies == old(strategies)[name := s.(state := t.Destination(), enabled := s.enabled && !t.Decommission?)];
      return Ok(());
    }

    // -------------------------------------------------------------- seeding

    /** One missing strategy: insert its row, fund it, activate it. */
    method SeedStrategy(name: string, initial: int, now: int) returns (r: Result<(), LedgerError>)
      requires name !in strategies
      modifies this
      ensures var spec := SeedOne(old(Value()), name, initial, now);
              Reports(r, spec) && (spec.Ok? ==> Value() == spec.value)
    {
      strategies := strategies[name := SeedRow(name, initial)];
      var funded := DepositCash(name, initial, now);
      if funded.Err? { return Err(funded.error); }
      r := ChangeState(name, "initial seed activation", BootstrapActivate);
    }

    method SeedStrategies(initial: int, overrides: map<string, int>, now: int) returns (r: Result<(), LedgerError>)
      modifies this
      ensures Value() == After(old(Value()), SeedAll(old(Value()), SEED_NAMES, initial, overrides, now))
      ensures Reports(r, SeedAll(old(Value()), SEED_NAMES, initial, overrides, now))
    {
      var saved := Value();
      for i := 0 to |SEED_NAMES|
        invariant SeedAll(saved, SEED_NAMES[..i], initial, overrides, now) == Ok(Value())
      {
        var name := SEED_NAMES[i];
        assert SEED_NAMES[..i + 1][..i] == SEED_NAMES[..i];
        if name !in strategies {
          var seeded := SeedStrategy(name, SeedAmount(name, initial, overrides), now);
          if seeded.Err? {
            SeedAllStops(saved, SEED_NAMES, i + 1, initial, overrides, now);
            Rollback(saved);
            return Err(seeded.error);
          }
        }
      }
      assert SEED_NAMES[..|SEED_NAMES|] == SEED_NAMES;
      return Ok(());
    }
  }

  /** The first error ends the seeding. */
  lemma {:induction false} SeedAllStops(
    l: Ledger, names: seq<string>, i: nat, initial: int, overrides: map<string, int>, now: int)
    requires i <= |names| && SeedAll(l, names[..i], initial, overrides, now).Err?
    ensures SeedAll(l, names, initial, overrides, now) == SeedAll(l, names[..i], initial, overrides, now)
    decreases |names|
  {
    if i == |names| {
      assert names[..i] == names;
    } else {
      assert names[..|names| - 1][..i] == names[..i];
      SeedAllStops(l, names[..|names| - 1], i, initial, overrides, now);
    }
  }
}
