/** The strategy lifecycle over whole runs (core/ledger/writer.py, core/domain/state_machine.py):
    which states are ever reached, who changes them, and what a tick may do in them. */
module Lifecycle {
  import opened Lists
  import opened Rounding
  import opened Domain
  import opened LedgerSpec
  import opened Invariants
  import opened Sizing
  import opened WeatherUtils
  import opened Shared
  import opened Tick
  import opened TickTheorems
  import opened ResolutionTick
  import opened Runs
  import opened RunTheorems
  import Strategies
  import Features

  // ---------------------------------------------------------------- what a committed row looks like

  /** The thresholds a seeded strategy keeps for good. */
  predicate Tuned(config: StrategyConfig) {
    && config.confidenceFloor == Some(0.55)
    && OrDefault(config.disagreementThreshold, DEFAULT_DISAGREEMENT_THRESHOLD) == 2.0
    && OrDefault(config.wideSpreadThreshold, DEFAULT_WIDE_SPREAD_THRESHOLD) == 0.08
  }

  /** A seeded strategy after any number of commands: its states are three of the six, its
      Kelly fraction is a fraction, and its caps and thresholds are the seeded ones. */
  predicate Operating(s: Strategy) {
    && (s.state.Active? || s.state.OperatorPaused? || s.state.Decommissioned?)
    && 0.0 <= s.kellyFraction <= 1.0
    && s.initialDeposit > 0
    && s.config.maxInputAge == 900 && s.config.exposureCap == Some(0.10) && s.config.correlationCap == Some(0.05)
    && Tuned(s.config)
  }

  ghost predicate AllOperating(rows: map<string, Strategy>) {
    forall name :: name in rows ==> Operating(rows[name])
  }

  /** No strategy that was there is in another state. */
  ghost predicate SameStates(rows: map<string, Strategy>, rows': map<string, Strategy>) {
    forall name :: name in rows ==>
      name in rows' && rows'[name].state == rows[name].state && rows'[name].enabled == rows[name].enabled
  }

  ghost predicate StatesKept(l: Ledger, l': Ledger) {
    AllOperating(l'.strategies) && SameStates(l.strategies, l'.strategies)
  }

  lemma OneRowKeepsStates(rows: map<string, Strategy>, name: string, s: Strategy)
    requires AllOperating(rows) && name in rows && Operating(s)
    requires s.state == rows[name].state && s.enabled == rows[name].enabled
    ensures AllOperating(rows[name := s]) && SameStates(rows, rows[name := s])
  {
  }

  lemma DepositKeepsStates(l: Ledger, name: string, amount: int, now: int)
    requires AllOperating(l.strategies) && Deposit(l, name, amount, now).Ok?
    ensures StatesKept(l, Deposit(l, name, amount, now).value)
  {
    var s := l.strategies[name];
    assert Operating(s);
    OneRowKeepsStates(l.strategies, name, s.(bankroll := s.bankroll + amount));
    assert Deposit(l, name, amount, now).value.strategies == l.strategies[name := s.(bankroll := s.bankroll + amount)];
  }

  lemma WithdrawKeepsStates(l: Ledger, name: string, amount: int, now: int)
    requires AllOperating(l.strategies) && Withdraw(l, name, amount, now).Ok?
    ensures StatesKept(l, Withdraw(l, name, amount, now).value)
  {
    var s := l.strategies[name];
    assert Operating(s);
    OneRowKeepsStates(l.strategies, name, s.(bankroll := s.bankroll - amount));
  }

  lemma BaselineKeepsStates(l: Ledger, name: string, amount: int, reason: string, now: int)
    requires AllOperating(l.strategies) && SetStartingBankroll(l, name, amount, reason, now).Ok?
    ensures StatesKept(l, SetStartingBankroll(l, name, amount, reason, now).value)
  {
    var s := l.strategies[name];
    assert Operating(s);
    var s' := s.(bankroll := amount, initialDeposit := amount, hwm := amount, config := WithStartingBaseline(s.config, amount));
    OneRowKeepsStates(l.strategies, name, s');
    assert SetStartingBankroll(l, name, amount, reason, now).value.strategies == l.strategies[name := s'];
  }

  lemma KellyKeepsStates(l: Ledger, name: string, fraction: real)
    requires AllOperating(l.strategies) && SetKelly(l, name, fraction).Ok?
    ensures StatesKept(l, SetKelly(l, name, fraction).value)
  {
    var s := l.strategies[name];
    assert Operating(s);
    OneRowKeepsStates(l.strategies, name, SetKelly(l, name, fraction).value.strategies[name]);
  }

  lemma OperatorKeepsStates(w: World, c: Command)
    requires AllOperating(w.ledger.strategies)
    requires c.Pay? || c.Take? || c.SetBaseline? || c.Kelly?
    ensures StatesKept(w.ledger, ApplyLedger(w, c))
  {
    var l := w.ledger;
    if ApplyLedger(w, c) != l {
      match c
      case Pay(name, amount, now) => DepositKeepsStates(l, name, amount, now);
      case Take(name, amount, now) => WithdrawKeepsStates(l, name, amount, now);
      case SetBaseline(name, amount, reason, now) => BaselineKeepsStates(l, name, amount, reason, now);
      case Kelly(name, fraction) => KellyKeepsStates(l, name, fraction);
    }
  }

  lemma SwitchKeepsRows(w: World, c: Command)
    requires c.Trip? || c.Lift? || c.Note? || c.Ingest? || c.SeedPlaces?
    ensures ApplyLedger(w, c).strategies == w.ledger.strategies
  {
  }

  lemma SwitchKeepsStates(w: World, c: Command)
    requires AllOperating(w.ledger.strategies) && (c.Trip? || c.Lift? || c.Note? || c.Ingest? || c.SeedPlaces?)
    ensures StatesKept(w.ledger, ApplyLedger(w, c))
  {
    SwitchKeepsRows(w, c);
  }

  lemma PlaceKeepsStates(l: Ledger, name: string, order: Order, signal: Option<nat>, fees: int, now: int)
    requires AllOperating(l.strategies) && OpenPosition(l, name, order, signal, fees, now).Ok?
    ensures StatesKept(l, OpenPosition(l, name, order, signal, fees, now).value)
  {
    var s := l.strategies[name];
    assert Operating(s);
    OneRowKeepsStates(l.strategies, name, s.(bankroll := s.bankroll - fees));
    assert OpenPosition(l, name, order, signal, fees, now).value.strategies
           == if fees == 0 then l.strategies else l.strategies[name := s.(bankroll := s.bankroll - fees)];
  }

  lemma MoveKeepsOperating(l: Ledger, name: string, reason: string, t: Transition)
    requires AllOperating(l.strategies) && ApplyTransition(l, name, reason, t).Ok?
    ensures AllOperating(ApplyTransition(l, name, reason, t).value.strategies)
  {
    assert Operating(l.strategies[name]);
  }

  lemma SeedOneKeepsStates(l: Ledger, name: string, initial: int, now: int)
    requires AllOperating(l.strategies) && SeedOne(l, name, initial, now).Ok?
    ensures StatesKept(l, SeedOne(l, name, initial, now).value)
  {
    if name !in l.strategies {
      var row := SeedRow(name, initial).(state := Active, bankroll := initial);
      assert SeedOne(l, name, initial, now).value.strategies == l.strategies[name := row];
      assert Operating(row);
    }
  }

  lemma {:induction false} SeedAllKeepsStates(l: Ledger, names: seq<string>, initial: int, overrides: map<string, int>, now: int)
    requires AllOperating(l.strategies) && SeedAll(l, names, initial, overrides, now).Ok?
    ensures StatesKept(l, SeedAll(l, names, initial, overrides, now).value)
    decreases |names|
  {
    if |names| == 0 {
    } else {
      var front, name := names[..|names| - 1], names[|names| - 1];
      SeedAllKeepsStates(l, front, initial, overrides, now);
      SeedOneKeepsStates(SeedAll(l, front, initial, overrides, now).value, name, SeedAmount(name, initial, overrides), now);
    }
  }

  lemma {:induction false} ResolvingKeepsStates(l: Ledger, order: seq<nat>, resolutions: Resolutions, now: int)
    requires AllOperating(l.strategies) && ResolveAll(l, order, resolutions, now).Ok?
    ensures StatesKept(l, ResolveAll(l, order, resolutions, now).value)
    decreases |order|
  {
    if |order| == 0 {
    } else {
      var front, id := order[..|order| - 1], order[|order| - 1];
      ResolvingKeepsStates(l, front, resolutions, now);
      var m := ResolveAll(l, front, resolutions, now).value;
      if Due(m, id, resolutions) {
        var name := m.positions[id].strategy;
        SettlementRows(m, id, PnlAt(m.positions[id], resolutions[m.positions[id].ticker]), now);
        assert Operating(m.strategies[name]);
        OneRowKeepsStates(m.strategies, name, ResolveAll(l, order, resolutions, now).value.strategies[name]);
      }
    }
  }

  lemma SettlingKeepsStates(l: Ledger, order: seq<nat>, resolutions: Resolutions, now: int)
    requires AllOperating(l.strategies)
    ensures StatesKept(l, SettleDue(l, order, resolutions, now))
  {
    if ResolveAll(l, order, resolutions, now).Ok? { ResolvingKeepsStates(l, order, resolutions, now); }
  }

  lemma TickKeepsStates(l: Ledger, d: SharedData, asOf: int, now: int)
    requires AllOperating(l.strategies) && EngineTick(l, d, asOf, now).Ok?
    ensures StatesKept(l, EngineTick(l, d, asOf, now).value.ledger)
  {
    TickKeepsRows(l, d, asOf, now);
  }

  /** An engine tick writes no strategy row. */
  lemma TickKeepsRows(l: Ledger, d: SharedData, asOf: int, now: int)
    requires EngineTick(l, d, asOf, now).Ok?
    ensures EngineTick(l, d, asOf, now).value.ledger.strategies == l.strategies
  {
    StrategiesKeepRows(TickState(l, Stats(0, 0)), Strategies.REGISTERED, Fresh(l, IndexAt(d, asOf), Strategies.Evaluate, now),
                       Features.MarketStates(d, asOf));
  }

  lemma CommandKeepsOperating(w: World, c: Command)
    requires AllOperating(w.ledger.strategies)
    ensures AllOperating(ApplyLedger(w, c).strategies)
    ensures !c.Move? ==> SameStates(w.ledger.strategies, ApplyLedger(w, c).strategies)
  {
    if c.Seed? {
      if SeedAll(w.ledger, SEED_NAMES, c.initial, c.overrides, c.now).Ok? {
        SeedAllKeepsStates(w.ledger, SEED_NAMES, c.initial, c.overrides, c.now);
      }
    } else if c.Move? {
      if ApplyTransition(w.ledger, c.name, c.reason, c.transition).Ok? {
        MoveKeepsOperating(w.ledger, c.name, c.reason, c.transition);
      }
    } else if c.Pay? || c.Take? || c.SetBaseline? || c.Kelly? {
      OperatorKeepsStates(w, c);
    } else if c.RunEngine? {
      if EngineTick(w.ledger, w.shared, c.asOf, c.now).Ok? { TickKeepsStates(w.ledger, w.shared, c.asOf, c.now); }
    } else if c.SettleOpen? {
      SettlingKeepsStates(w.ledger, c.order, w.shared.resolutions, c.now);
    } else if c.Place? {
      if OpenPosition(w.ledger, c.name, c.sized, c.source, c.fees, c.now).Ok? {
        PlaceKeepsStates(w.ledger, c.name, c.sized, c.source, c.fees, c.now);
      }
    } else {
      SwitchKeepsStates(w, c);
    }
  }

  lemma {:induction false} EveryRunOperates(commands: seq<Command>)
    ensures AllOperating(Run(EMPTY_WORLD, commands).ledger.strategies)
    decreases |commands|
  {
    if |commands| == 0 {
    } else {
      EveryRunOperates(commands[..|commands| - 1]);
      CommandKeepsOperating(Run(EMPTY_WORLD, commands[..|commands| - 1]), commands[|commands| - 1]);
    }
  }

  // ---------------------------------------------------------------- who changes a state

  /** On every run, only an operator's transition changes the state of a strategy. No strategy
      is ever paused for a low bankroll or a drawdown, so no deposit ever resumes one. */
  lemma OnlyOperatorsChangeStates(commands: seq<Command>, c: Command, name: string)
    requires name in Run(EMPTY_WORLD, commands).ledger.strategies
    ensures var w := Run(EMPTY_WORLD, commands);
            var s, l' := w.ledger.strategies[name], ApplyLedger(w, c);
            && !s.state.LowBankrollPaused? && !s.state.DrawdownPaused? && !s.state.Seeded?
            && !ShouldAutoResume(s.state, s.config, s.bankroll)
            && name in l'.strategies
            && (!c.Move? ==> l'.strategies[name].state == s.state && l'.strategies[name].enabled == s.enabled)
  {
    var w := Run(EMPTY_WORLD, commands);
    EveryRunOperates(commands);
    CommandKeepsOperating(w, c);
    if c.Move? {
      var r := ApplyTransition(w.ledger, c.name, c.reason, c.transition);
      if r.Ok? { assert r.value.strategies.Keys == w.ledger.strategies.Keys; }
    }
  }

  /** From which states a transition leads where. */
  predicate Leads(t: Transition, from: StrategyState, to: StrategyState) {
    match t
    case Activate => from == Seeded && to == Active
    case BootstrapActivate => from == Seeded && to == Active
    case Pause => from == Active && to == OperatorPaused
    case Resume => from in {LowBankrollPaused, DrawdownPaused, OperatorPaused} && to == Active
    case Decommission => to == Decommissioned
  }

  function MoveAction(t: Transition): Action {
    match t
    case Activate => DoActivate
    case BootstrapActivate => DoActivate
    case Pause => DoPause
    case Resume => DoResume
    case Decommission => DoDecommission
  }

  /** A transition is accepted exactly with a reason, an active system unless it is the seeding's
      own, and a state it leads from; it then writes the state it leads to, disables on
      decommission, keeps every other column, and leaves one audit record. */
  lemma MoveWrites(l: Ledger, name: string, reason: string, t: Transition)
    ensures var r := ApplyTransition(l, name, reason, t);
            && (r.Ok? <==> && !Blank(reason) && (t.BootstrapActivate? || l.system.state.SystemActive?) && name in l.strategies
                           && exists to :: Leads(t, l.strategies[name].state, to))
            && (r.Ok? ==>
                  && name in r.value.strategies && |r.value.audit| == |l.audit| + 1
                  && var s, s', a := l.strategies[name], r.value.strategies[name], r.value.audit[|l.audit|];
                  && Leads(t, s.state, s'.state)
                  && s' == s.(state := s'.state, enabled := s.enabled && !t.Decommission?)
                  && a.action == MoveAction(t) && a.target == OnStrategy(name)
                  && a.before.Stage() == Some(s.state) && a.after.Stage() == Some(s'.state)
                  && r.value == l.(strategies := l.strategies[name := s'], audit := l.audit + [a]))
  {
    if name in l.strategies {
      var s := l.strategies[name];
      assert t.Allowed(s.state) <==> Leads(t, s.state, t.Destination());
      forall to | Leads(t, s.state, to) ensures to == t.Destination() { }
    }
  }

  /** On a run, with the kill switch off and a reason given, pausing takes an active strategy and
      resuming a paused one; decommissioning takes any and activation, needed only inside seeding,
      none. */
  lemma TransitionsOfARun(commands: seq<Command>, name: string, reason: string, t: Transition)
    requires name in Run(EMPTY_WORLD, commands).ledger.strategies && !Blank(reason)
    requires Run(EMPTY_WORLD, commands).ledger.system.state.SystemActive?
    ensures var l := Run(EMPTY_WORLD, commands).ledger;
            var s, r := l.strategies[name], ApplyTransition(l, name, reason, t);
            match t
            case Pause => if s.state.Active? then r.Ok? && RowAfter(r, name, s.(state := OperatorPaused)) else r == Err(CannotTransition(s.state))
            case Resume => if s.state.OperatorPaused? then r.Ok? && RowAfter(r, name, s.(state := Active)) else r == Err(CannotTransition(s.state))
            case Decommission => r.Ok? && RowAfter(r, name, s.(state := Decommissioned, enabled := false))
            case Activate => r == Err(CannotTransition(s.state))
            case BootstrapActivate => r == Err(CannotTransition(s.state))
  {
    EveryRunOperates(commands);
  }

  predicate RowAfter(r: Result<Ledger, LedgerError>, name: string, s: Strategy)
    requires r.Ok?
  {
    name in r.value.strategies && r.value.strategies[name] == s
  }

  /** Blank reasons are the empty ones and those of white space only. */
  lemma BlankIff(reason: string)
    ensures !Blank(reason) <==> exists i :: 0 <= i < |reason| && Visible(reason[i])
  {
    forall i | 0 <= i < |reason| ensures Visible(reason[i]) <==> reason[i] !in " \t\n\r" { }
  }

  predicate Visible(c: char) { c != ' ' && c != '\t' && c != '\n' && c != '\r' }

  // ---------------------------------------------------------------- a strategy that may not emit

  /** Everything recorded between the two ledgers is about other strategies. */
  predicate Silent(l: Ledger, l': Ledger, name: string) {
    && |l.signals| <= |l'.signals| && |l.positions| <= |l'.positions|
    && (forall i :: |l.signals| <= i < |l'.signals| ==> l'.signals[i].strategy != name)
    && (forall i :: |l.positions| <= i < |l'.positions| ==> l'.positions[i].strategy != name)
  }

  lemma SilentTransitive(a: Ledger, b: Ledger, c: Ledger, name: string)
    requires Silent(a, b, name) && Silent(b, c, name) && Evolves(b, c)
    ensures Silent(a, c, name)
  {
    forall i | |a.positions| <= i < |c.positions| ensures c.positions[i].strategy != name {
      if i < |b.positions| { assert PositionEvolves(b.positions[i], c.positions[i]); }
    }
    forall i | |a.signals| <= i < |c.signals| ensures c.signals[i].strategy != name {
      if i < |b.signals| { assert c.signals[i] == b.signals[i]; }
    }
  }

  lemma MarketIsSilent(st: TickState, owner: string, c: Context, market: MarketState, name: string)
    requires owner != name && ConsiderMarket(st, owner, c, market).Ok?
    ensures Silent(st.ledger, ConsiderMarket(st, owner, c, market).value.ledger, name)
    ensures Evolves(st.ledger, ConsiderMarket(st, owner, c, market).value.ledger)
  {
    var l' := ConsiderMarket(st, owner, c, market).value.ledger;
    MarketAppends(st, owner, c, market);
    RecordStepEvolves(st.ledger, l');
  }

  lemma {:induction false} MarketsAreSilent(st: TickState, owner: string, c: Context, markets: seq<MarketState>, name: string)
    requires owner != name && ConsiderMarkets(st, owner, c, markets).Ok?
    ensures Silent(st.ledger, ConsiderMarkets(st, owner, c, markets).value.ledger, name)
    decreases |markets|
  {
    if |markets| == 0 {
    } else {
      var front, market := markets[..|markets| - 1], markets[|markets| - 1];
      MarketsAreSilent(st, owner, c, front, name);
      var m := ConsiderMarkets(st, owner, c, front).value;
      MarketIsSilent(m, owner, c, market, name);
      SilentTransitive(st.ledger, m.ledger, ConsiderMarkets(st, owner, c, markets).value.ledger, name);
    }
  }

  lemma {:induction false} TickIsSilent(st: TickState, names: seq<string>, c: Context, markets: seq<MarketState>, name: string)
    requires RunStrategies(st, names, c, markets).Ok?
    requires name in st.ledger.strategies && !CanEmitSignals(st.ledger.strategies[name])
    ensures Silent(st.ledger, RunStrategies(st, names, c, markets).value.ledger, name)
    decreases |names|
  {
    if |names| == 0 {
    } else {
      var front, owner := names[..|names| - 1], names[|names| - 1];
      TickIsSilent(st, front, c, markets, name);
      StrategiesKeepRows(st, front, c, markets);
      var m := RunStrategies(st, front, c, markets).value;
      if owner in m.ledger.strategies && CanEmitSignals(m.ledger.strategies[owner]) {
        MarketsAreSilent(m, owner, c, markets, name);
        MarketsEvolve(m, owner, c, markets);
        SilentTransitive(st.ledger, m.ledger, RunStrategies(st, names, c, markets).value.ledger, name);
      }
    }
  }

  lemma EngineTickIsSilent(l: Ledger, d: SharedData, asOf: int, now: int, name: string)
    requires name in l.strategies && !CanEmitSignals(l.strategies[name])
    ensures Silent(l, TickLedger(l, d, asOf, now), name)
  {
    if EngineTick(l, d, asOf, now).Ok? {
      TickIsSilent(TickState(l, Stats(0, 0)), Strategies.REGISTERED, Fresh(l, IndexAt(d, asOf), Strategies.Evaluate, now),
                   Features.MarketStates(d, asOf), name);
    }
  }

  lemma SettlingIsSilent(l: Ledger, order: seq<nat>, resolutions: Resolutions, now: int, name: string)
    ensures Silent(l, SettleDue(l, order, resolutions, now), name)
  {
    if ResolveAll(l, order, resolutions, now).Ok? {
      ResolveAllKeepsFills(l, order, resolutions, now);
      ResolveAllKeepsCount(l, order, resolutions, now);
    }
  }

  lemma CommandIsSilent(w: World, c: Command, name: string)
    requires !c.Place? && !c.Note? && name in w.ledger.strategies && !CanEmitSignals(w.ledger.strategies[name])
    ensures Silent(w.ledger, ApplyLedger(w, c), name)
  {
    if c.RunEngine? {
      EngineTickIsSilent(w.ledger, w.shared, c.asOf, c.now, name);
    } else if c.SettleOpen? {
      SettlingIsSilent(w.ledger, c.order, w.shared.resolutions, c.now, name);
    } else {
      OperatorsWriteNoRecords(w, c);
    }
  }

  /** From a sound world in which a strategy is decommissioned, an engine-driven continuation
      records nothing about it. */
  lemma {:induction false} DecommissionedIsSilent(w: World, commands: seq<Command>, name: string)
    requires WorldSound(w) && EngineOnly(commands)
    requires name in w.ledger.strategies && w.ledger.strategies[name].state.Decommissioned?
    ensures Silent(w.ledger, Run(w, commands).ledger, name)
    decreases |commands|
  {
    if |commands| == 0 {
    } else {
      var front, c := commands[..|commands| - 1], commands[|commands| - 1];
      var m := Run(w, front);
      DecommissionedIsSilent(w, front, name);
      StaysDecommissioned(w, front, name);
      CommandIsSilent(m, c, name);
      CommandEvolves(m, c);
      SilentTransitive(w.ledger, m.ledger, ApplyLedger(m, c), name);
    }
  }

  lemma StaysDecommissioned(w: World, commands: seq<Command>, name: string)
    requires WorldSound(w) && name in w.ledger.strategies && w.ledger.strategies[name].state.Decommissioned?
    ensures var l := Run(w, commands).ledger;
            && name in l.strategies && l.strategies[name].state.Decommissioned? && !l.strategies[name].enabled
            && Collect(l.cash, DepositOf(name)) == Collect(w.ledger.cash, DepositOf(name))
  {
    RunEvolves(w, commands);
    assert StrategyEvolves(w.ledger, Run(w, commands).ledger, name);
    RunKeepsWorldSound(w, commands);
    RowSound(Run(w, commands).ledger, name);
  }

  /** A strategy decommissioned in `l` is still so in `l'`, disabled, and got no deposit. */
  predicate Retired(l: Ledger, l': Ledger, name: string) {
    && name in l'.strategies
    && l'.strategies[name].state.Decommissioned? && !l'.strategies[name].enabled && !CanEmitSignals(l'.strategies[name])
    && Collect(l'.cash, DepositOf(name)) == Collect(l.cash, DepositOf(name))
  }

  predicate NoNewFills(l: Ledger, l': Ledger, name: string) {
    forall i :: |l.fills| <= i < |l'.fills| ==>
      l'.fills[i].position < |l'.positions| && l'.positions[l'.fills[i].position].strategy != name
  }

  /** A strategy decommissioned on some run stays so on every continuation, disabled and without
      a further deposit; on an engine-driven continuation no signal, position or fill of it is
      added. */
  lemma DecommissionedIsForGood(past: seq<Command>, future: seq<Command>, name: string)
    requires name in Run(EMPTY_WORLD, past).ledger.strategies
    requires Run(EMPTY_WORLD, past).ledger.strategies[name].state.Decommissioned?
    ensures var l, l' := Run(EMPTY_WORLD, past).ledger, Run(Run(EMPTY_WORLD, past), future).ledger;
            && Retired(l, l', name)
            && (EngineOnly(future) ==> Silent(l, l', name) && NoNewFills(l, l', name))
  {
    var w := Run(EMPTY_WORLD, past);
    EveryRunIsSound(past);
    StaysDecommissioned(w, future, name);
    if EngineOnly(future) {
      DecommissionedIsSilent(w, future, name);
      RunKeepsWorldSound(w, future);
      SilentFills(w.ledger, Run(w, future).ledger, name);
    }
  }

  // ---------------------------------------------------------------- a paused strategy

  predicate Halted(rows: map<string, Strategy>, name: string) {
    name in rows && (rows[name].state == OperatorPaused || rows[name].state == Decommissioned)
  }

  predicate Resumes(c: Command, name: string) { c.Move? && c.name == name && c.transition.Resume? }

  /** Nothing but a resumption of the strategy itself ends its pause. */
  lemma HaltedStays(w: World, c: Command, name: string)
    requires AllOperating(w.ledger.strategies) && Halted(w.ledger.strategies, name) && !Resumes(c, name)
    ensures Halted(ApplyLedger(w, c).strategies, name)
  {
    CommandKeepsOperating(w, c);
    if c.Move? { MoveWrites(w.ledger, c.name, c.reason, c.transition); }
  }

  lemma {:induction false} HaltedIsSilent(w: World, commands: seq<Command>, name: string)
    requires AllOperating(w.ledger.strategies) && Halted(w.ledger.strategies, name) && EngineOnly(commands)
    requires forall i :: 0 <= i < |commands| ==> !Resumes(commands[i], name)
    ensures Silent(w.ledger, Run(w, commands).ledger, name)
    ensures AllOperating(Run(w, commands).ledger.strategies) && Halted(Run(w, commands).ledger.strategies, name)
    decreases |commands|
  {
    if |commands| == 0 {
    } else {
      var front, c := commands[..|commands| - 1], commands[|commands| - 1];
      HaltedIsSilent(w, front, name);
      HaltedStep(w.ledger, Run(w, front), c, name);
    }
  }

  lemma HaltedStep(l: Ledger, w: World, c: Command, name: string)
    requires AllOperating(w.ledger.strategies) && Halted(w.ledger.strategies, name) && !c.Place? && !c.Note? && !Resumes(c, name)
    requires Silent(l, w.ledger, name)
    ensures var l' := ApplyLedger(w, c); Silent(l, l', name) && AllOperating(l'.strategies) && Halted(l'.strategies, name)
  {
    CommandIsSilent(w, c, name);
    CommandEvolves(w, c);
    SilentTransitive(l, w.ledger, ApplyLedger(w, c), name);
    HaltedStays(w, c, name);
    CommandKeepsOperating(w, c);
  }

  /** After an operator has paused a strategy on any run, an engine-driven continuation in which it
      is not resumed records no signal, position or fill of it, and leaves it paused or
      decommissioned. */
  lemma PauseSilences(past: seq<Command>, reason: string, future: seq<Command>, name: string)
    requires var w := Run(EMPTY_WORLD, past); w.ledger.system.state.SystemActive? && name in w.ledger.strategies && !Blank(reason)
    requires Run(EMPTY_WORLD, past).ledger.strategies[name].state.Active?
    requires EngineOnly(future) && forall i :: 0 <= i < |future| ==> !Resumes(future[i], name)
    ensures var w := Apply(Run(EMPTY_WORLD, past), Move(name, reason, Pause));
            && name in w.ledger.strategies && w.ledger.strategies[name].state == OperatorPaused
            && var l' := Run(w, future).ledger;
            && Silent(w.ledger, l', name) && NoNewFills(w.ledger, l', name) && Halted(l'.strategies, name)
  {
    var w0 := Run(EMPTY_WORLD, past);
    var w := Apply(w0, Move(name, reason, Pause));
    EveryRunIsSound(past);
    CommandKeepsWorldSound(w0, Move(name, reason, Pause));
    PausedWorld(past, reason, name);
    HaltedIsSilent(w, future, name);
    RunKeepsWorldSound(w, future);
    SilentFills(w.ledger, Run(w, future).ledger, name);
  }

  lemma PausedWorld(past: seq<Command>, reason: string, name: string)
    requires var w := Run(EMPTY_WORLD, past); w.ledger.system.state.SystemActive? && name in w.ledger.strategies && !Blank(reason)
    requires Run(EMPTY_WORLD, past).ledger.strategies[name].state.Active?
    ensures var l := ApplyLedger(Run(EMPTY_WORLD, past), Move(name, reason, Pause));
            AllOperating(l.strategies) && name in l.strategies && l.strategies[name].state == OperatorPaused
  {
    EveryRunOperates(past);
    CommandKeepsOperating(Run(EMPTY_WORLD, past), Move(name, reason, Pause));
    TransitionsOfARun(past, name, reason, Pause);
  }

  lemma SilentFills(l: Ledger, l': Ledger, name: string)
    requires Sound(l) && Sound(l') && Silent(l, l', name)
    ensures NoNewFills(l, l', name)
  {
    forall i | |l.fills| <= i < |l'.fills|
      ensures l'.fills[i].position < |l'.positions| && l'.positions[l'.fills[i].position].strategy != name
    {
      assert FillSound(l'.signals, i, l'.fills[i], l'.positions[i]);
    }
  }

  // ---------------------------------------------------------------- what operators' commands leave

  /** The row a strategy starts with. */
  predicate Starts(name: string, s: Strategy, amount: int) {
    && s.enabled && s.state == Active && s.bankroll == s.initialDeposit == s.hwm == amount
    && s.config.minBankroll == amount && s.config.minTradeable == (if amount < 5000 then amount else 5000)
    && s.config.autoResumeOnDeposit && s.config.maxInputAge == 900 && s.config.confidenceFloor == Some(0.55)
    && s.config.exposureCap == Some(0.10) && s.config.correlationCap == Some(0.05)
    && (name == ENSEMBLE_DISAGREEMENT ==>
          && s.kellyFraction == 0.25 && s.config.wideSpreadThreshold == None
          && s.config.disagreementThreshold == Some(2.0) && s.config.spreadMarginMultiplier == Some(1.5))
    && (name == STALE_QUOTE ==>
          && s.kellyFraction == 0.2 && s.config.wideSpreadThreshold == Some(0.08)
          && s.config.disagreementThreshold == None && s.config.spreadMarginMultiplier == None)
  }

  /** The amount asked for this strategy, or for all. */
  function Asked(name: string, initial: int, overrides: map<string, int>): int {
    if name in overrides then overrides[name] else initial
  }

  /** What seeding one strategy answers and leaves. */
  predicate SeedsOne(l: Ledger, r: Result<Ledger, LedgerError>, name: string, amount: int) {
    && (r.Ok? <==> name in l.strategies || (l.system.state.SystemActive? && amount > 0))
    && (r.Ok? ==> r.value.system == l.system && name in r.value.strategies
                  && r.value.strategies == l.strategies[name := r.value.strategies[name]]
                  && (name in l.strategies ==> r.value == l)
                  && (name !in l.strategies ==> Starts(name, r.value.strategies[name], amount)))
  }

  lemma SeedOneWrites(l: Ledger, name: string, amount: int, now: int)
    requires name in SEED_NAMES
    ensures SeedsOne(l, SeedOne(l, name, amount, now), name, amount)
  {
    assert "initial seed activation"[0] == 'i';
    assert |ENSEMBLE_DISAGREEMENT| != |STALE_QUOTE|;
  }

  predicate CanStart(l: Ledger, name: string, initial: int, overrides: map<string, int>) {
    name in l.strategies || (l.system.state.SystemActive? && Asked(name, initial, overrides) > 0)
  }

  predicate Started(l: Ledger, l': Ledger, name: string, initial: int, overrides: map<string, int>) {
    && name in l'.strategies
    && if name in l.strategies then l'.strategies[name] == l.strategies[name]
       else Starts(name, l'.strategies[name], Asked(name, initial, overrides))
  }

  /** What seeding both answers and leaves. */
  predicate SeedsBoth(l: Ledger, r: Result<Ledger, LedgerError>, initial: int, overrides: map<string, int>) {
    && (r.Ok? <==> CanStart(l, ENSEMBLE_DISAGREEMENT, initial, overrides) && CanStart(l, STALE_QUOTE, initial, overrides))
    && (r.Ok? ==>
          && Started(l, r.value, ENSEMBLE_DISAGREEMENT, initial, overrides)
          && Started(l, r.value, STALE_QUOTE, initial, overrides)
          && r.value.strategies.Keys == l.strategies.Keys + {ENSEMBLE_DISAGREEMENT, STALE_QUOTE}
          && forall name :: name in l.strategies ==> r.value.strategies[name] == l.strategies[name])
  }

  lemma OneAfterTheOther(
    l: Ledger, first: Result<Ledger, LedgerError>, second: Result<Ledger, LedgerError>, initial: int, overrides: map<string, int>)
    requires SeedsOne(l, first, ENSEMBLE_DISAGREEMENT, Asked(ENSEMBLE_DISAGREEMENT, initial, overrides))
    requires first.Ok? ==> SeedsOne(first.value, second, STALE_QUOTE, Asked(STALE_QUOTE, initial, overrides))
    ensures SeedsBoth(l, if first.Err? then first else second, initial, overrides)
  {
    assert |ENSEMBLE_DISAGREEMENT| != |STALE_QUOTE|;
  }

  /** Seeding succeeds exactly when each strategy is there already or the system is active and a
      positive amount is asked for it; the missing ones then start with theirs, and no other row is
      touched. */
  lemma SeedWrites(l: Ledger, initial: int, overrides: map<string, int>, now: int)
    ensures SeedsBoth(l, SeedAll(l, SEED_NAMES, initial, overrides, now), initial, overrides)
  {
    var a, b := Asked(ENSEMBLE_DISAGREEMENT, initial, overrides), Asked(STALE_QUOTE, initial, overrides);
    SeedIsTwo(l, initial, overrides, now);
    SeedOneWrites(l, ENSEMBLE_DISAGREEMENT, a, now);
    var first := SeedOne(l, ENSEMBLE_DISAGREEMENT, a, now);
    if first.Ok? {
      SeedOneWrites(first.value, STALE_QUOTE, b, now);
      OneAfterTheOther(l, first, SeedOne(first.value, STALE_QUOTE, b, now), initial, overrides);
    }
  }

  lemma SeedIsTwo(l: Ledger, initial: int, overrides: map<string, int>, now: int)
    ensures var first := SeedOne(l, ENSEMBLE_DISAGREEMENT, Asked(ENSEMBLE_DISAGREEMENT, initial, overrides), now);
            SeedAll(l, SEED_NAMES, initial, overrides, now)
            == if first.Err? then first else SeedOne(first.value, STALE_QUOTE, Asked(STALE_QUOTE, initial, overrides), now)
  {
    assert SEED_NAMES[..1] == [ENSEMBLE_DISAGREEMENT] && SEED_NAMES[..1][..0] == [];
    assert SeedAll(l, [], initial, overrides, now) == Ok(l);
  }

  /** A deposit is accepted for any positive amount to any strategy but a decommissioned one; it
      moves the bankroll and resumes exactly a strategy paused for a low bankroll that resumes by
      itself and is back at its minimum. */
  lemma DepositWrites(l: Ledger, name: string, amount: int, now: int)
    ensures var r := Deposit(l, name, amount, now);
            && (r.Ok? <==> && l.system.state.SystemActive? && amount > 0 && name in l.strategies
                           && l.strategies[name].state != Decommissioned)
            && (r.Ok? ==>
                  var s := l.strategies[name];
                  var back := s.state == LowBankrollPaused && s.config.autoResumeOnDeposit && s.bankroll + amount >= s.config.minBankroll;
                  r.value.strategies == l.strategies[name :=
                    s.(bankroll := s.bankroll + amount, state := if back then Active else s.state)])
  {
  }

  /** What is reserved is covered, as on every run (`RunTheorems.AlwaysSolvent`). */
  predicate Covered(l: Ledger, name: string) {
    name in l.strategies ==> Reserved(l.positions, name) <= l.strategies[name].bankroll
  }

  /** A withdrawal is accepted for any positive amount up to what is not reserved. */
  lemma WithdrawWrites(l: Ledger, name: string, amount: int, now: int)
    requires Covered(l, name)
    ensures var r := Withdraw(l, name, amount, now);
            && (r.Ok? <==> && l.system.state.SystemActive? && amount > 0 && name in l.strategies
                           && amount + Reserved(l.positions, name) <= l.strategies[name].bankroll)
            && (r.Ok? ==> r.value.strategies == l.strategies[name :=
                            l.strategies[name].(bankroll := l.strategies[name].bankroll - amount)])
  {
  }

  /** A Kelly fraction is stored for any strategy but a decommissioned one, as the nearest number
      between zero and one. */
  lemma KellyWrites(l: Ledger, name: string, fraction: real)
    ensures var r := SetKelly(l, name, fraction);
            && (r.Ok? <==> l.system.state.SystemActive? && name in l.strategies && l.strategies[name].state != Decommissioned)
            && (r.Ok? ==>
                  && name in r.value.strategies
                  && var k := r.value.strategies[name].kellyFraction;
                  && 0.0 <= k <= 1.0 && (0.0 <= fraction <= 1.0 ==> k == fraction)
                  && (fraction < 0.0 ==> k == 0.0) && (fraction > 1.0 ==> k == 1.0)
                  && r.value.strategies == l.strategies[name := l.strategies[name].(kellyFraction := k)])
  {
  }

  /** An order is booked exactly when its numbers are positive, its cost is its value rounded half
      up, its signal is the strategy's own, and cost and fees are not reserved; it opens one
      position with one fill, and only the fees leave the bankroll. */
  lemma OrderWrites(l: Ledger, name: string, order: Order, signal: Option<nat>, fees: int, now: int)
    requires Covered(l, name)
    ensures var r := OpenPosition(l, name, order, signal, fees, now);
            && (r.Ok? <==> && l.system.state.SystemActive? && name in l.strategies && order.qty > 0 && order.costBasis > 0 && fees >= 0
                           && order.costBasis == HalfUp(Notional(order.qty, order.price))
                           && (signal.Some? ==> signal.value < |l.signals| && l.signals[signal.value].strategy == name)
                           && order.costBasis + fees + Reserved(l.positions, name) <= l.strategies[name].bankroll)
            && (r.Ok? ==>
                  && r.value.positions == l.positions
                     + [Position(name, order.ticker, order.side, order.price, order.qty, order.costBasis, Open, None, None)]
                  && r.value.fills == l.fills + [Fill(|l.positions|, signal, order.side, order.qty, order.price, fees)]
                  && name in r.value.strategies
                  && r.value.strategies[name] == l.strategies[name].(bankroll := l.strategies[name].bankroll - fees))
  {
  }

  /** A new baseline is accepted exactly before any signal or position of the strategy, and sets
      bankroll, deposit, mark and minimum alike. */
  lemma BaselineWrites(l: Ledger, name: string, amount: int, reason: string, now: int)
    ensures var r := SetStartingBankroll(l, name, amount, reason, now);
            && (r.Ok? <==>
                  && l.system.state.SystemActive? && amount > 0 && !Blank(reason)
                  && name in l.strategies && l.strategies[name].state != Decommissioned
                  && (forall s :: s in l.signals ==> s.strategy != name) && (forall p :: p in l.positions ==> p.strategy != name))
            && (r.Ok? ==>
                  var s := l.strategies[name];
                  var minTradeable := if amount < 5000 then amount else 5000;
                  && r.value.strategies == l.strategies[name :=
                       s.(bankroll := amount, initialDeposit := amount, hwm := amount,
                          config := s.config.(minBankroll := amount, minTradeable := minTradeable))]
                  && r.value.audit == l.audit + [AuditEvent(DoSetStartingBankroll, OnStrategy(name),
                       Baseline(s.bankroll, s.initialDeposit, s.hwm, s.config.minBankroll), Baseline(amount, amount, amount, amount))])
  {
    assert HasTradingActivity(l, name)
           <==> (exists s :: s in l.signals && s.strategy == name) || (exists p :: p in l.positions && p.strategy == name) by {
      ActivityIsRecorded(l, name);
    }
    if SetStartingBankroll(l, name, amount, reason, now).Ok? { BaselineRows(l, name, amount, reason, now); }
  }

  lemma ActivityIsRecorded(l: Ledger, name: string)
    ensures HasTradingActivity(l, name)
            <==> (exists s :: s in l.signals && s.strategy == name) || (exists p :: p in l.positions && p.strategy == name)
  {
    if s :| s in l.signals && s.strategy == name { var i :| 0 <= i < |l.signals| && l.signals[i] == s; }
    if p :| p in l.positions && p.strategy == name { var i :| 0 <= i < |l.positions| && l.positions[i] == p; }
  }

  lemma BaselineRows(l: Ledger, name: string, amount: int, reason: string, now: int)
    requires SetStartingBankroll(l, name, amount, reason, now).Ok?
    ensures var s, l' := l.strategies[name], SetStartingBankroll(l, name, amount, reason, now).value;
            var minTradeable := if amount < 5000 then amount else 5000;
            && l'.strategies == l.strategies[name :=
                 s.(bankroll := amount, initialDeposit := amount, hwm := amount,
                    config := s.config.(minBankroll := amount, minTradeable := minTradeable))]
            && l'.audit == l.audit + [AuditEvent(DoSetStartingBankroll, OnStrategy(name),
                 Baseline(s.bankroll, s.initialDeposit, s.hwm, s.config.minBankroll), Baseline(amount, amount, amount, amount))]
  {
  }

  /** Lifting the switch undoes tripping it: the system is active again, and but for the two audit
      records nothing has changed. */
  lemma LiftUndoesTrip(l: Ledger, reason: string, why: string, now: int)
    requires l.system == KillSwitch(SystemActive, None, None) && !Blank(reason) && !Blank(why)
    ensures TripKillSwitch(l, reason, now).Ok? && ClearKillSwitch(TripKillSwitch(l, reason, now).value, why).Ok?
    ensures var paused := TripKillSwitch(l, reason, now).value;
            var lifted := ClearKillSwitch(paused, why).value;
            && paused.system == KillSwitch(SystemPaused, Some(reason), Some(now))
            && lifted == l.(audit := lifted.audit) && |lifted.audit| == |l.audit| + 2 && l.audit <= lifted.audit
  {
  }

  // ---------------------------------------------------------------- the seeded caps

  /** On every run an engine tick leaves a strategy that placed an order with at most a tenth
      of the total bankroll open, and at most a twentieth of its own on a date it grew. */
  lemma SeededCapsHold(commands: seq<Command>, asOf: int, now: int, name: string, date: string)
    requires name in Run(EMPTY_WORLD, commands).ledger.strategies
    requires var w := Run(EMPTY_WORLD, commands); EngineTick(w.ledger, w.shared, asOf, now).Ok?
    ensures var w := Run(EMPTY_WORLD, commands);
            var l' := EngineTick(w.ledger, w.shared, asOf, now).value.ledger;
            var from := |w.ledger.positions|;
            && (Grew(l'.positions, from, name) ==>
                  10 * Reserved(l'.positions, name) <= Max(0, TotalBankroll(l'.strategies)))
            && (GrewOnDate(l'.positions, from, name, date) ==>
                  20 * OpenOnDate(l'.positions, name, date) <= w.ledger.strategies[name].bankroll)
  {
    var w := Run(EMPTY_WORLD, commands);
    EveryRunOperates(commands);
    AlwaysSolvent(commands, name);
    TickKeepsSeededCaps(w.ledger, w.shared, asOf, now, name, date);
  }

  lemma TickKeepsSeededCaps(l: Ledger, d: SharedData, asOf: int, now: int, name: string, date: string)
    requires name in l.strategies && Operating(l.strategies[name]) && l.strategies[name].bankroll >= 0
    requires EngineTick(l, d, asOf, now).Ok?
    ensures var l', from := EngineTick(l, d, asOf, now).value.ledger, |l.positions|;
            && (Grew(l'.positions, from, name) ==>
                  10 * Reserved(l'.positions, name) <= Max(0, TotalBankroll(l'.strategies)))
            && (GrewOnDate(l'.positions, from, name, date) ==>
                  20 * OpenOnDate(l'.positions, name, date) <= l.strategies[name].bankroll)
  {
    RegisteredStrategiesStayOnMarket();
    CapsSurviveTheTick(l, Strategies.REGISTERED, Strategies.Evaluate, IndexAt(d, asOf), Features.MarketStates(d, asOf),
                       now, name, date);
    SeededShares(l.strategies[name], TotalBankroll(l.strategies));
  }

  /** The seeded shares are whole cents of a tenth and a twentieth, rounded down. */
  lemma SeededShares(s: Strategy, total: int)
    requires Operating(s)
    ensures total >= 0 ==> ExposureCap(s.config, total) == total / 10
    ensures s.bankroll >= 0 ==> CorrelationCap(s.config, s.bankroll) == s.bankroll / 20
    ensures 10 * ExposureCap(s.config, total) <= Max(0, total)
    ensures 20 * CorrelationCap(s.config, s.bankroll) <= Max(0, s.bankroll)
  {
    ShareOf(total, 10, 0.10);
    ShareOf(s.bankroll, 20, 0.05);
  }

  lemma ShareOf(amount: int, parts: int, share: real)
    requires (parts == 10 && share == 0.10) || (parts == 20 && share == 0.05)
    ensures amount >= 0 ==> Down(amount as real * share) == amount / parts
    ensures parts * Down(amount as real * share) <= Max(0, amount)
  {
    var part := Down(amount as real * share);
    if amount >= 0 {
      assert part as real <= amount as real * share < part as real + 1.0;
      assert (parts * part) as real <= amount as real < (parts * part + parts) as real;
    }
  }
}
