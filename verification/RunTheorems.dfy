/** What holds of every run from the empty databases, and what a pause, a decommissioned
    strategy and a settlement can and cannot do. */
module RunTheorems {
  import opened Lists
  import opened Domain
  import opened LedgerSpec
  import opened Invariants
  import opened Shared
  import opened WeatherUtils
  import opened Tick
  import opened TickTheorems
  import opened ResolutionTick
  import opened Runs
  import Strategies
  import Features

  // ---------------------------------------------------------------- every reachable world is sound

  lemma OpeningKeepsSettlements(l: Ledger, l': Ledger, resolutions: Resolutions)
    requires SettlementsStand(l, resolutions) && OpensOnly(l, l')
    ensures SettlementsStand(l', resolutions)
  {
    forall i | 0 <= i < |l'.positions| ensures SettledFrom(l'.positions[i], resolutions) {
      if i < |l.positions| { assert SettledFrom(l.positions[i], resolutions); }
    }
  }

  lemma {:induction false} ResolvingKeepsSettlements(l: Ledger, order: seq<nat>, resolutions: Resolutions, now: int)
    requires SettlementsStand(l, resolutions) && ResolveAll(l, order, resolutions, now).Ok?
    ensures SettlementsStand(ResolveAll(l, order, resolutions, now).value, resolutions)
    decreases |order|
  {
    if |order| == 0 {
    } else {
      var front, id := order[..|order| - 1], order[|order| - 1];
      ResolvingKeepsSettlements(l, front, resolutions, now);
      var m := ResolveAll(l, front, resolutions, now).value;
      var m' := ResolveAll(l, order, resolutions, now).value;
      if Due(m, id, resolutions) {
        var p := m.positions[id];
        SettlementRows(m, id, PnlAt(p, resolutions[p.ticker]), now);
        assert PnlAt(m'.positions[id], resolutions[p.ticker]) == PnlAt(p, resolutions[p.ticker]);
        forall i | 0 <= i < |m'.positions| ensures SettledFrom(m'.positions[i], resolutions) {
          assert SettledFrom(m.positions[i], resolutions);
        }
      }
    }
  }

  /** Operator commands and ingestion write no position, fill or signal. */
  lemma OperatorsWriteNoRecords(w: World, c: Command)
    requires !c.RunEngine? && !c.SettleOpen? && !c.Place? && !c.Note?
    ensures var l, l' := w.ledger, ApplyLedger(w, c);
            l'.positions == l.positions && l'.fills == l.fills && l'.signals == l.signals
  {
    if c.Seed? { SeedAllKeepsPositions(w.ledger, SEED_NAMES, c.initial, c.overrides, c.now); }
  }

  /** The index a tick builds. */
  function IndexAt(d: SharedData, asOf: int): seq<FeatureValue> {
    Features.IndexFeatures(Features.AllFeatures(d, asOf, None))
  }

  lemma EngineTickOpensOnly(l: Ledger, d: SharedData, asOf: int, now: int)
    requires EngineTick(l, d, asOf, now).Ok?
    ensures OpensOnly(l, EngineTick(l, d, asOf, now).value.ledger)
  {
    TickEvolves(TickState(l, Stats(0, 0)), Strategies.REGISTERED, Fresh(l, IndexAt(d, asOf), Strategies.Evaluate, now),
                Features.MarketStates(d, asOf));
  }

  lemma TickKeepsSettlements(l: Ledger, d: SharedData, asOf: int, now: int, resolutions: Resolutions)
    requires SettlementsStand(l, resolutions)
    ensures SettlementsStand(TickLedger(l, d, asOf, now), resolutions)
  {
    if EngineTick(l, d, asOf, now).Ok? {
      EngineTickOpensOnly(l, d, asOf, now);
      OpeningKeepsSettlements(l, TickLedger(l, d, asOf, now), resolutions);
    }
  }

  lemma SettlementsKeptBySettling(l: Ledger, order: seq<nat>, resolutions: Resolutions, now: int)
    requires SettlementsStand(l, resolutions)
    ensures SettlementsStand(SettleDue(l, order, resolutions, now), resolutions)
  {
    if ResolveAll(l, order, resolutions, now).Ok? { ResolvingKeepsSettlements(l, order, resolutions, now); }
  }

  lemma SettlementsKeptByCommand(w: World, c: Command)
    requires SettlementsStand(w.ledger, w.shared.resolutions)
    ensures SettlementsStand(ApplyLedger(w, c), w.shared.resolutions)
  {
    if c.RunEngine? {
      TickKeepsSettlements(w.ledger, w.shared, c.asOf, c.now, w.shared.resolutions);
    } else if c.SettleOpen? {
      SettlementsKeptBySettling(w.ledger, c.order, w.shared.resolutions, c.now);
    } else if c.Place? {
      OpeningKeepsSettlements(w.ledger, ApplyLedger(w, c), w.shared.resolutions);
    } else if !c.Note? {
      OperatorsWriteNoRecords(w, c);
    }
  }

  lemma {:induction false} SeedAllKeepsPositions(l: Ledger, names: seq<string>, initial: int, overrides: map<string, int>, now: int)
    ensures var r := SeedAll(l, names, initial, overrides, now);
            r.Ok? ==> r.value.positions == l.positions && r.value.fills == l.fills && r.value.signals == l.signals
    decreases |names|
  {
    if |names| == 0 {
    } else {
      SeedAllKeepsPositions(l, names[..|names| - 1], initial, overrides, now);
    }
  }

  lemma CommandKeepsWorldSound(w: World, c: Command)
    requires WorldSound(w)
    ensures WorldSound(Apply(w, c))
  {
    LedgerStaysSound(w, c);
    SettlementsKeptByCommand(w, c);
    if c.Ingest? {
      IngestionKeepsResolutions(w.shared.resolutions, c.payloads);
      var w' := Apply(w, c);
      forall i | 0 <= i < |w'.ledger.positions| ensures SettledFrom(w'.ledger.positions[i], w'.shared.resolutions) {
        assert SettledFrom(w.ledger.positions[i], w.shared.resolutions);
      }
    }
  }

  lemma {:induction false} RunKeepsWorldSound(w: World, commands: seq<Command>)
    requires WorldSound(w)
    ensures WorldSound(Run(w, commands))
    decreases |commands|
  {
    if |commands| == 0 {
    } else {
      RunKeepsWorldSound(w, commands[..|commands| - 1]);
      CommandKeepsWorldSound(Run(w, commands[..|commands| - 1]), commands[|commands| - 1]);
    }
  }

  lemma EveryRunIsSound(commands: seq<Command>)
    ensures WorldSound(Run(EMPTY_WORLD, commands))
  {
    EmptyIsSound();
    RunKeepsWorldSound(EMPTY_WORLD, commands);
  }

  /** On every run the reference rows are in the order in which they are listed, and the only
      locations are the seeded ones. */
  lemma {:induction false} EveryRunIsOrdered(commands: seq<Command>)
    ensures var d := Run(EMPTY_WORLD, commands).shared;
            && InIdOrder(d.locations) && InTickerOrder(d.markets)
            && (forall x :: x in d.locations ==> x in SEED_LOCATIONS)
    decreases |commands|
  {
    if |commands| == 0 {
    } else {
      var front, c := commands[..|commands| - 1], commands[|commands| - 1];
      EveryRunIsOrdered(front);
      CommandKeepsOrder(Run(EMPTY_WORLD, front), c);
    }
  }

  lemma CommandKeepsOrder(w: World, c: Command)
    requires InIdOrder(w.shared.locations) && InTickerOrder(w.shared.markets)
    requires forall x :: x in w.shared.locations ==> x in SEED_LOCATIONS
    ensures var d := Apply(w, c).shared;
            && InIdOrder(d.locations) && InTickerOrder(d.markets)
            && (forall x :: x in d.locations ==> x in SEED_LOCATIONS)
  {
    if c.SeedPlaces? {
      InsertLocationsKeepOrder(w.shared.locations, SEED_LOCATIONS);
      InsertLocationsMembers(w.shared.locations, SEED_LOCATIONS);
    } else if c.Ingest? {
      IngestionKeepsOrder(w.shared.markets, c.markets);
    }
  }

  // ---------------------------------------------------------------- solvency

  lemma ReservedNonNegative(l: Ledger, name: string)
    requires Sound(l)
    ensures Reserved(l.positions, name) >= 0
  {
    forall k | 0 <= k < |l.positions| ensures OpenCost(name)(l.positions[k]) >= 0 {
      assert PositionSound(l.strategies.Keys, l.cash, k, l.positions[k]);
    }
    SumByNonNegative(l.positions, OpenCost(name));
  }

  /** On every run no strategy is ever overdrawn: the bankroll covers what is reserved, so
      free cash is the plain difference and its clip at zero never acts. */
  lemma AlwaysSolvent(commands: seq<Command>, name: string)
    requires name in Run(EMPTY_WORLD, commands).ledger.strategies
    ensures var l := Run(EMPTY_WORLD, commands).ledger;
            && 0 <= Reserved(l.positions, name) <= l.strategies[name].bankroll
            && FreeCash(l, name) == l.strategies[name].bankroll - Reserved(l.positions, name)
  {
    EveryRunIsSound(commands);
    var l := Run(EMPTY_WORLD, commands).ledger;
    ReservedNonNegative(l, name);
    RowSound(l, name);
  }

  lemma ReservationReleased(positions: seq<Position>, id: nat, q: Position, name: string)
    requires id < |positions| && positions[id].status.Open? && q == positions[id].(status := Resolved, closedAt := q.closedAt, realized := q.realized)
    ensures Reserved(positions[id := q], name)
         == Reserved(positions, name) - if positions[id].strategy == name then positions[id].costBasis else 0
  {
    SumByUpdate(positions, id, q, OpenCost(name));
  }

  lemma SettleReleases(l: Ledger, id: nat, realized: int, now: int, name: string)
    requires Sound(l) && Settles(l, id, realized) && name in l.strategies
    ensures FreeCash(Settle(l, id, realized, now), name)
         == FreeCash(l, name) + if l.positions[id].strategy == name then l.positions[id].costBasis + realized else 0
  {
    RowSound(l, name);
    SettleMovesRow(l, id, realized, now, name);
    ReservationReleased(l.positions, id, SettledPosition(l.positions[id], realized, now), name);
  }

  /** Settling a position of a sound ledger raises its strategy's free cash by exactly the
      payout and touches nobody else's. */
  lemma SettlementPaysFreeCash(l: Ledger, id: nat, res: Resolution, now: int, name: string)
    requires Sound(l) && ValidResolution(res) && id < |l.positions| && l.positions[id].status.Open? && name in l.strategies
    ensures ResolvePosition(l, id, res, now).Ok?
    ensures var p := l.positions[id];
            FreeCash(ResolvePosition(l, id, res, now).value, name)
            == FreeCash(l, name) + if p.strategy == name then Payout(p.side, p.qty, p.costBasis, res) else 0
  {
    var p := l.positions[id];
    assert PositionSound(l.strategies.Keys, l.cash, id, p);
    LossIsBounded(p, res);
    SettleReleases(l, id, PnlAt(p, res), now, name);
  }

  // ---------------------------------------------------------------- event sourcing

  lemma {:induction false} TotalByKind(cash: seq<CashEvent>, name: string)
    ensures CashTotal(cash, name)
         == KindTotal(cash, name, Deposited) + KindTotal(cash, name, Withdrew)
            + KindTotal(cash, name, Fee) + KindTotal(cash, name, RealizedPnl)
    decreases |cash|
  {
    if |cash| == 0 {
    } else {
      TotalByKind(cash[..|cash| - 1], name);
    }
  }

  lemma {:induction false} BalancesArePrefixSums(cash: seq<CashEvent>, i: nat)
    requires Balanced(cash) && i < |cash|
    ensures cash[i].balanceAfter == CashTotal(cash[..i + 1], cash[i].strategy)
    decreases |cash|
  {
    var last := |cash| - 1;
    if i < last {
      BalancesArePrefixSums(cash[..last], i);
      assert cash[..last][..i + 1] == cash[..i + 1];
    } else {
      assert cash[..i + 1] == cash[..last] + [cash[last]];
      SumByAppend(cash[..last], cash[last], AmountOf(cash[i].strategy));
    }
  }

  /** On every run the stored bankroll is the sum of the cash events, so the reconciliation
      check never raises; it is also deposits less withdrawals less fees plus the results of
      the settled positions; and each balance_after is the running sum at its event. */
  lemma AlwaysReconciled(commands: seq<Command>, name: string, i: nat)
    requires name in Run(EMPTY_WORLD, commands).ledger.strategies
    ensures var l := Run(EMPTY_WORLD, commands).ledger;
            && Reconciles(l, name)
            && l.strategies[name].bankroll
               == KindTotal(l.cash, name, Deposited) + KindTotal(l.cash, name, Withdrew)
                  + KindTotal(l.cash, name, Fee) + RealizedTotal(l.positions, name)
            && (i < |l.cash| ==> l.cash[i].balanceAfter == CashTotal(l.cash[..i + 1], l.cash[i].strategy))
  {
    EveryRunIsSound(commands);
    var l := Run(EMPTY_WORLD, commands).ledger;
    RowSound(l, name);
    TotalByKind(l.cash, name);
    if i < |l.cash| { BalancesArePrefixSums(l.cash, i); }
  }

  // ---------------------------------------------------------------- settlement on runs

  /** In every world of every run, two resolution ticks that list the open positions in
      different orders settle the same positions and leave the same bankrolls and free cash;
      and a second tick over what is then still open changes nothing. */
  lemma SettlementOrderIsImmaterial(
    commands: seq<Command>, order: seq<nat>, order': seq<nat>, again: seq<nat>, now: int, later: int, name: string)
    requires var w := Run(EMPTY_WORLD, commands);
             && EnumeratesOpen(w.ledger, order) && EnumeratesOpen(w.ledger, order') && name in w.ledger.strategies
             && EnumeratesOpen(SettleDue(w.ledger, order, w.shared.resolutions, now), again)
    ensures var w := Run(EMPTY_WORLD, commands);
            var a, b := SettleDue(w.ledger, order, w.shared.resolutions, now), SettleDue(w.ledger, order', w.shared.resolutions, now);
            && a.positions == b.positions
            && name in a.strategies && name in b.strategies
            && a.strategies[name].bankroll == b.strategies[name].bankroll
            && FreeCash(a, name) == FreeCash(b, name)
            && SettleDue(a, again, w.shared.resolutions, later) == a
  {
    var w := Run(EMPTY_WORLD, commands);
    EveryRunIsSound(commands);
    SoundOrderIsImmaterial(w.ledger, order, order', again, w.shared.resolutions, now, later, name);
  }

  lemma SoundOrderIsImmaterial(
    l: Ledger, order: seq<nat>, order': seq<nat>, again: seq<nat>, resolutions: Resolutions, now: int, later: int, name: string)
    requires Sound(l) && EnumeratesOpen(l, order) && EnumeratesOpen(l, order') && name in l.strategies
    requires EnumeratesOpen(SettleDue(l, order, resolutions, now), again)
    ensures var a, b := SettleDue(l, order, resolutions, now), SettleDue(l, order', resolutions, now);
            && a.positions == b.positions
            && name in a.strategies && name in b.strategies
            && a.strategies[name].bankroll == b.strategies[name].bankroll
            && FreeCash(a, name) == FreeCash(b, name)
            && SettleDue(a, again, resolutions, later) == a
  {
    SoundIsOwned(l);
    ResolutionIsConfluent(l, order, order', resolutions, now, name);
    SecondRunIsANoOp(l, order, again, resolutions, now, later);
  }

  /** In every world of every run a resolution tick settles exactly the open positions whose
      market has a resolution, at the result that resolution gives. */
  lemma RunsSettleExactlyTheDue(commands: seq<Command>, order: seq<nat>, now: int, id: nat)
    requires var l := Run(EMPTY_WORLD, commands).ledger; EnumeratesOpen(l, order) && id < |l.positions|
    ensures var w := Run(EMPTY_WORLD, commands);
            var l, l', resolutions := w.ledger, SettleDue(w.ledger, order, w.shared.resolutions, now), w.shared.resolutions;
            && |l'.positions| == |l.positions|
            && (l'.positions[id] != l.positions[id] <==> Due(l, id, resolutions))
            && (Due(l, id, resolutions) ==>
                  l'.positions[id].realized == Some(PnlAt(l.positions[id], resolutions[l.positions[id].ticker])))
  {
    var w := Run(EMPTY_WORLD, commands);
    EveryRunIsSound(commands);
    SoundSettlesExactlyTheDue(w.ledger, order, w.shared.resolutions, now, id);
  }

  lemma SoundSettlesExactlyTheDue(l: Ledger, order: seq<nat>, resolutions: Resolutions, now: int, id: nat)
    requires Sound(l) && EnumeratesOpen(l, order) && id < |l.positions|
    ensures var l' := SettleDue(l, order, resolutions, now);
            && |l'.positions| == |l.positions|
            && (l'.positions[id] != l.positions[id] <==> Due(l, id, resolutions))
            && (Due(l, id, resolutions) ==>
                  l'.positions[id].realized == Some(PnlAt(l.positions[id], resolutions[l.positions[id].ticker])))
  {
    SoundIsOwned(l);
    ExactlyTheDueAreSettled(l, order, resolutions, now, id);
  }

  // ---------------------------------------------------------------- high-water mark

  lemma {:induction false} MaxFromIsMaximum(start: int, xs: seq<int>)
    ensures var m := MaxFrom(start, xs);
            && start <= m && (forall x :: x in xs ==> x <= m) && (m == start || m in xs)
    decreases |xs|
  {
    if |xs| == 0 {
    } else {
      var front, last := xs[..|xs| - 1], xs[|xs| - 1];
      MaxFromIsMaximum(start, front);
      assert xs == front + [last];
    }
  }

  /** On every run the high-water mark is the larger of the starting deposit and the highest
      balance right after a settlement; no other event moves it. */
  lemma HighWaterClosedForm(commands: seq<Command>, name: string)
    requires name in Run(EMPTY_WORLD, commands).ledger.strategies
    ensures var l := Run(EMPTY_WORLD, commands).ledger;
            var s := l.strategies[name];
            var balances := Collect(l.cash, PnlBalance(name));
            && s.initialDeposit <= s.hwm
            && (forall b :: b in balances ==> b <= s.hwm)
            && (s.hwm == s.initialDeposit || s.hwm in balances)
  {
    EveryRunIsSound(commands);
    var l := Run(EMPTY_WORLD, commands).ledger;
    RowSound(l, name);
    MaxFromIsMaximum(l.strategies[name].initialDeposit, Collect(l.cash, PnlBalance(name)));
  }

  /** Settling raises the high-water mark exactly when the bankroll after it, deposits included,
      is above the mark; whether the position won or lost does not enter. */
  lemma SettlementRaisesMarkIff(l: Ledger, id: nat, res: Resolution, now: int)
    requires id < |l.positions| && l.positions[id].status.Open? && l.positions[id].strategy in l.strategies
    ensures var p, r := l.positions[id], ResolvePosition(l, id, res, now);
            && r.Ok? && p.strategy in r.value.strategies
            && var s, s' := l.strategies[p.strategy], r.value.strategies[p.strategy];
               s.hwm <= s'.hwm && (s.hwm < s'.hwm <==> s.hwm < s.bankroll + PnlAt(p, res))
  {
    SettlementRows(l, id, PnlAt(l.positions[id], res), now);
  }

  /** No loss at all can raise the mark exactly when the bankroll is at most a cent above it. */
  lemma LossesKeepHighWaterIff(l: Ledger, id: nat, now: int)
    requires id < |l.positions| && l.positions[id].strategy in l.strategies
    ensures var name := l.positions[id].strategy;
            (forall realized :: realized < 0 ==>
               Settle(l, id, realized, now).strategies[name].hwm == l.strategies[name].hwm)
            <==> l.strategies[name].bankroll <= l.strategies[name].hwm + 1
  {
    var name := l.positions[id].strategy;
    SettlementRows(l, id, -1, now);
    assert Settle(l, id, -1, now).strategies[name].hwm == Max(l.strategies[name].hwm, l.strategies[name].bankroll - 1);
  }

  // ---------------------------------------------------------------- audit trail

  /** Read the log from the start, believing only the last `after`. */
  function Replay<T>(start: T, links: seq<(T, T)>): T {
    if |links| == 0 then start else links[|links| - 1].1
  }

  lemma {:induction false} LinkedIsAChain<T>(start: T, links: seq<(T, T)>, end: T)
    requires Linked(start, links, end)
    ensures Replay(start, links) == end
    ensures |links| > 0 ==> links[0].0 == start
    ensures forall i :: 0 < i < |links| ==> links[i].0 == links[i - 1].1
    decreases |links|
  {
    if |links| == 0 {
    } else {
      var last := |links| - 1;
      LinkedIsAChain(start, links[..last], links[last].0);
      forall i | 0 < i < |links| ensures links[i].0 == links[i - 1].1 {
        if i < last { assert links[..last][i].0 == links[..last][i - 1].1; }
      }
    }
  }

  /** On every run the audit records that carry a bankroll, and those that carry a state, form
      a chain, and replaying the log rebuilds the current bankroll, state and kill switch. */
  lemma AuditReplays(commands: seq<Command>, name: string)
    requires name in Run(EMPTY_WORLD, commands).ledger.strategies
    ensures var l := Run(EMPTY_WORLD, commands).ledger;
            var money, states := Collect(l.audit, BankrollLink(name)), Collect(l.audit, StateLink(name));
            && (|money| > 0 ==> money[0].0 == 0) && (|states| > 0 ==> states[0].0 == Seeded)
            && (forall i :: 0 < i < |money| ==> money[i].0 == money[i - 1].1)
            && (forall i :: 0 < i < |states| ==> states[i].0 == states[i - 1].1)
            && Replay(0, money) == l.strategies[name].bankroll
            && Replay(Seeded, states) == l.strategies[name].state
            && Replay(EMPTY_LEDGER.system, Collect(l.audit, SwitchLink())) == l.system
  {
    EveryRunIsSound(commands);
    var l := Run(EMPTY_WORLD, commands).ledger;
    RowSound(l, name);
    LinkedIsAChain(0, Collect(l.audit, BankrollLink(name)), l.strategies[name].bankroll);
    LinkedIsAChain(Seeded, Collect(l.audit, StateLink(name)), l.strategies[name].state);
    LinkedIsAChain(EMPTY_LEDGER.system, Collect(l.audit, SwitchLink()), l.system);
  }

  // ---------------------------------------------------------------- one-to-one records

  /** On every run a position is resolved exactly when one REALIZED_PNL event references it, and
      that event carries the position's realized result; a position has exactly one fill. */
  lemma SettlementsAreOneToOne(commands: seq<Command>, id: nat)
    requires id < |Run(EMPTY_WORLD, commands).ledger.positions|
    ensures var l := Run(EMPTY_WORLD, commands).ledger;
            var p := l.positions[id];
            && (p.status.Resolved? <==> |Collect(l.cash, PnlOf(id))| == 1)
            && (p.status.Open? <==> |Collect(l.cash, PnlOf(id))| == 0)
            && (p.status.Resolved? ==> p.realized == Some(Collect(l.cash, PnlOf(id))[0]))
            && |l.fills| == |l.positions| && l.fills[id].position == id
            && p.costBasis == ExpectedCost(p.qty, p.price) > 0
  {
    EveryRunIsSound(commands);
    var l := Run(EMPTY_WORLD, commands).ledger;
    assert PositionSound(l.strategies.Keys, l.cash, id, l.positions[id]);
    assert FillSound(l.signals, id, l.fills[id], l.positions[id]);
    assert l.positions[id] in l.positions;
  }

  /** Commands that go through the engine rather than straight to the writer. */
  predicate EngineOnly(commands: seq<Command>) {
    forall i :: 0 <= i < |commands| ==> !commands[i].Place? && !commands[i].Note?
  }

  lemma {:induction false} ResolveAllKeepsFills(l: Ledger, order: seq<nat>, resolutions: Resolutions, now: int)
    ensures var r := ResolveAll(l, order, resolutions, now); r.Ok? ==> r.value.fills == l.fills && r.value.signals == l.signals
    decreases |order|
  {
    if |order| == 0 {
    } else {
      ResolveAllKeepsFills(l, order[..|order| - 1], resolutions, now);
    }
  }

  lemma MatchedFrame(l: Ledger, l': Ledger)
    requires Matched(l) && l'.fills == l.fills && l'.signals == l.signals
    ensures Matched(l')
  {
  }

  lemma TickKeepsMatched(l: Ledger, d: SharedData, asOf: int, now: int)
    requires Sound(l) && Matched(l)
    ensures Matched(TickLedger(l, d, asOf, now))
  {
    if EngineTick(l, d, asOf, now).Ok? {
      TickKeepsRecordsMatched(l, Strategies.REGISTERED, Strategies.Evaluate, IndexAt(d, asOf), Features.MarketStates(d, asOf), now);
    }
  }

  lemma SettlingKeepsMatched(l: Ledger, order: seq<nat>, resolutions: Resolutions, now: int)
    requires Matched(l)
    ensures Matched(SettleDue(l, order, resolutions, now))
  {
    ResolveAllKeepsFills(l, order, resolutions, now);
    MatchedFrame(l, SettleDue(l, order, resolutions, now));
  }

  lemma CommandKeepsMatched(w: World, c: Command)
    requires Sound(w.ledger) && Matched(w.ledger) && !c.Place? && !c.Note?
    ensures Matched(ApplyLedger(w, c))
  {
    if c.RunEngine? {
      TickKeepsMatched(w.ledger, w.shared, c.asOf, c.now);
    } else if c.SettleOpen? {
      SettlingKeepsMatched(w.ledger, c.order, w.shared.resolutions, c.now);
    } else {
      OperatorsWriteNoRecords(w, c);
      MatchedFrame(w.ledger, ApplyLedger(w, c));
    }
  }

  /** On every engine-driven run, order-placing signals, fills and positions correspond one to one. */
  lemma EngineRunsAreMatched(commands: seq<Command>)
    requires EngineOnly(commands)
    ensures var l := Run(EMPTY_WORLD, commands).ledger; Matched(l) && FillsSound(l.fills, l.positions, l.signals)
  {
    EngineRunsMatchSignals(commands);
    EveryRunIsSound(commands);
  }

  lemma {:induction false} EngineRunsMatchSignals(commands: seq<Command>)
    requires EngineOnly(commands)
    ensures Matched(Run(EMPTY_WORLD, commands).ledger)
    decreases |commands|
  {
    if |commands| == 0 {
    } else {
      var front := commands[..|commands| - 1];
      EngineRunsMatchSignals(front);
      EveryRunIsSound(front);
      CommandKeepsMatched(Run(EMPTY_WORLD, front), commands[|commands| - 1]);
    }
  }

  // ---------------------------------------------------------------- the kill switch

  /** Nothing but settlements: no signal, position, fill, strategy, deposit, withdrawal or fee. */
  predicate OnlySettles(l: Ledger, l': Ledger) {
    && l'.system.state.SystemPaused?
    && l'.signals == l.signals && l'.fills == l.fills && |l'.positions| == |l.positions|
    && l'.strategies.Keys == l.strategies.Keys
    && l.cash <= l'.cash
    && forall i :: |l.cash| <= i < |l'.cash| ==> l'.cash[i].kind.RealizedPnl?
  }

  /** Seeding under the kill switch succeeds only when there is nothing left to seed: the
      deposit it makes is gated although the activation is not. */
  lemma SeedingUnderPause(l: Ledger, initial: int, overrides: map<string, int>, now: int)
    requires l.system.state.SystemPaused?
    ensures SeedAll(l, SEED_NAMES, initial, overrides, now)
         == if ENSEMBLE_DISAGREEMENT in l.strategies && STALE_QUOTE in l.strategies then Ok(l) else Err(KillSwitchActive)
  {
    assert SEED_NAMES[..1] == [ENSEMBLE_DISAGREEMENT] && SEED_NAMES[..1][..0] == [];
    assert SeedAll(l, [], initial, overrides, now) == Ok(l);
    assert SeedAll(l, [ENSEMBLE_DISAGREEMENT], initial, overrides, now)
           == if ENSEMBLE_DISAGREEMENT in l.strategies then Ok(l) else Err(KillSwitchActive);
  }

  lemma {:induction false} ResolvingOnlySettles(l: Ledger, order: seq<nat>, resolutions: Resolutions, now: int)
    requires l.system.state.SystemPaused? && ResolveAll(l, order, resolutions, now).Ok?
    ensures OnlySettles(l, ResolveAll(l, order, resolutions, now).value)
    decreases |order|
  {
    if |order| == 0 {
    } else {
      var front, id := order[..|order| - 1], order[|order| - 1];
      ResolvingOnlySettles(l, front, resolutions, now);
      var m := ResolveAll(l, front, resolutions, now).value;
      if Due(m, id, resolutions) {
        SettlementRows(m, id, PnlAt(m.positions[id], resolutions[m.positions[id].ticker]), now);
      }
    }
  }

  /** Some registered strategy would emit a signal at `asOf`. */
  ghost predicate WouldSignal(l: Ledger, d: SharedData, asOf: int, now: int) {
    AnySignal(l, Strategies.REGISTERED, Fresh(l, IndexAt(d, asOf), Strategies.Evaluate, now), Features.MarketStates(d, asOf))
  }

  lemma PausedEngineTick(l: Ledger, d: SharedData, asOf: int, now: int)
    requires l.system.state.SystemPaused?
    ensures EngineTick(l, d, asOf, now)
         == if WouldSignal(l, d, asOf, now) then Err(KillSwitchActive) else Ok(TickState(l, Stats(0, 0)))
  {
    PausedTick(l, Strategies.REGISTERED, Strategies.Evaluate, IndexAt(d, asOf), Features.MarketStates(d, asOf), now);
  }

  lemma PausedSeedOnlySettles(l: Ledger, initial: int, overrides: map<string, int>, now: int)
    requires l.system.state.SystemPaused?
    ensures OnlySettles(l, Commit(l, SeedAll(l, SEED_NAMES, initial, overrides, now)))
  {
    SeedingUnderPause(l, initial, overrides, now);
  }

  lemma PausedTickOnlySettles(l: Ledger, d: SharedData, asOf: int, now: int)
    requires l.system.state.SystemPaused?
    ensures OnlySettles(l, TickLedger(l, d, asOf, now))
  {
    PausedEngineTick(l, d, asOf, now);
  }

  lemma PausedSettlingOnlySettles(l: Ledger, order: seq<nat>, resolutions: Resolutions, now: int)
    requires l.system.state.SystemPaused?
    ensures OnlySettles(l, SettleDue(l, order, resolutions, now))
  {
    if ResolveAll(l, order, resolutions, now).Ok? { ResolvingOnlySettles(l, order, resolutions, now); }
  }

  lemma PausedMoveOnlySettles(l: Ledger, name: string, reason: string, t: Transition)
    requires l.system.state.SystemPaused?
    ensures OnlySettles(l, Commit(l, ApplyTransition(l, name, reason, t)))
  {
    var r := ApplyTransition(l, name, reason, t);
    if r.Ok? { assert r.value.strategies.Keys == l.strategies.Keys; }
  }

  lemma PausedCommandOnlySettles(w: World, c: Command)
    requires w.ledger.system.state.SystemPaused? && !c.Lift?
    ensures OnlySettles(w.ledger, ApplyLedger(w, c))
  {
    var l := w.ledger;
    match c
    case Seed(initial, overrides, now) => PausedSeedOnlySettles(l, initial, overrides, now);
    case RunEngine(asOf, now) => PausedTickOnlySettles(l, w.shared, asOf, now);
    case SettleOpen(order, now) => PausedSettlingOnlySettles(l, order, w.shared.resolutions, now);
    case Move(name, reason, transition) => PausedMoveOnlySettles(l, name, reason, transition);
    case _ =>
  }

  /** From a paused world, any run in which nobody lifts the kill switch only settles. */
  lemma {:induction false} PausedRunOnlySettles(w: World, commands: seq<Command>)
    requires w.ledger.system.state.SystemPaused?
    requires forall i :: 0 <= i < |commands| ==> !commands[i].Lift?
    ensures OnlySettles(w.ledger, Run(w, commands).ledger)
    decreases |commands|
  {
    if |commands| == 0 {
    } else {
      PausedRunOnlySettles(w, commands[..|commands| - 1]);
      PausedCommandOnlySettles(Run(w, commands[..|commands| - 1]), commands[|commands| - 1]);
    }
  }

  /** One scheduler cycle: the engine tick, then the resolution tick, which is not reached
      when the engine tick raises. */
  ghost function Cycle(w: World, asOf: int, now: int, order: seq<nat>): Ledger {
    match EngineTick(w.ledger, w.shared, asOf, now)
    case Err(_) => w.ledger
    case Ok(st) =>
      SettleDue(st.ledger, order, w.shared.resolutions, now)
  }

  /** Under the kill switch a cycle settles what is due exactly as a resolution tick alone
      would, unless some strategy has a signal: then the cycle settles nothing. */
  lemma PausedCycle(w: World, asOf: int, now: int, order: seq<nat>)
    requires w.ledger.system.state.SystemPaused?
    ensures Cycle(w, asOf, now, order)
         == if WouldSignal(w.ledger, w.shared, asOf, now) then w.ledger else SettleDue(w.ledger, order, w.shared.resolutions, now)
  {
    PausedEngineTick(w.ledger, w.shared, asOf, now);
  }
}
