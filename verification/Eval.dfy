/** Evaluation reads the ledger back: resolved trades, windows and the metrics that have to
    agree with the cash log (core/eval/queries.py, core/eval/metrics.py). */
module Eval {
  import opened Lists
  import opened Domain
  import opened LedgerSpec
  import opened Invariants
  import opened Runs
  import RunTheorems
  import SettledAnswers

  datatype Trade = Trade(probYes: real, outcomeYes: int, realized: int, costBasis: int)

  datatype TradeRecord = TradeRecord(trade: Trade, closedAt: int)

  type Resolutions = map<string, Resolution>

  // ---------------------------------------------------------------- resolved trades

  /** One row of the position x fill x signal join: the position's id and the signal's
      probability. */
  function JoinRow(l: Ledger, name: string): Fill -> Option<(nat, real)> {
    (f: Fill) =>
      if && f.position < |l.positions| && f.signal.Some? && f.signal.value < |l.signals|
         && l.positions[f.position].strategy == name && l.positions[f.position].status.Resolved?
      then Some((f.position, l.signals[f.signal.value].probYes)) else None
  }

  predicate Seen(rows: seq<(nat, real)>, id: nat) { exists i :: 0 <= i < |rows| && rows[i].0 == id }

  /** The first row of each position. */
  function Dedupe(rows: seq<(nat, real)>): seq<(nat, real)> {
    if |rows| == 0 then []
    else
      var front, last := rows[..|rows| - 1], rows[|rows| - 1];
      if Seen(front, last.0) then Dedupe(front) else Dedupe(front) + [last]
  }

  function RecordOf(l: Ledger, resolutions: Resolutions): ((nat, real)) -> Option<TradeRecord> {
    (row: (nat, real)) =>
      if row.0 >= |l.positions| then None
      else
        var p := l.positions[row.0];
        if p.closedAt.None? || p.ticker !in resolutions || resolutions[p.ticker].outcome.Void? then None
        else Some(TradeRecord(
                    Trade(row.1, if resolutions[p.ticker].outcome.SettledYes? then 1 else 0,
                          OrDefault(p.realized, 0), p.costBasis),
                    p.closedAt.value))
  }

  function TradeRecords(l: Ledger, resolutions: Resolutions, name: string): seq<TradeRecord> {
    Collect(Dedupe(Collect(l.fills, JoinRow(l, name))), RecordOf(l, resolutions))
  }

  method ResolvedTradeRecords(l: Ledger, resolutions: Resolutions, name: string) returns (records: seq<TradeRecord>)
    ensures records == TradeRecords(l, resolutions, name)
  {
    var rows := Collect(l.fills, JoinRow(l, name));
    records := [];
    var seen: set<nat> := {};
    for i := 0 to |rows|
      invariant forall id :: id in seen <==> Seen(rows[..i], id)
      invariant records == Collect(Dedupe(rows[..i]), RecordOf(l, resolutions))
    {
      var (id, prob) := rows[i];
      ghost var front := rows[..i];
      assert rows[..i + 1] == front + [rows[i]];
      SeenAppend(front, rows[i]);
      RecordsStep(front, rows[i], RecordOf(l, resolutions));
      if id !in seen {
        seen := seen + {id};
        var record := RecordOf(l, resolutions)((id, prob));
        if record.Some? { records := records + [record.value]; }
      }
    }
    assert rows[..|rows|] == rows;
  }

  lemma RecordsStep(front: seq<(nat, real)>, row: (nat, real), record: ((nat, real)) -> Option<TradeRecord>)
    ensures Collect(Dedupe(front + [row]), record)
         == Collect(Dedupe(front), record)
            + if Seen(front, row.0) || record(row).None? then [] else [record(row).value]
  {
    assert (front + [row])[..|front|] == front;
    CollectAppend(Dedupe(front), row, record);
  }

  lemma SeenAppend(front: seq<(nat, real)>, row: (nat, real))
    ensures forall id :: Seen(front + [row], id) <==> Seen(front, id) || id == row.0
  {
    forall id ensures Seen(front + [row], id) <==> Seen(front, id) || id == row.0 {
      if Seen(front, id) {
        var i :| 0 <= i < |front| && front[i].0 == id;
        assert (front + [row])[i].0 == id;
      }
      assert (front + [row])[|front|] == row;
    }
  }

  // ---------------------------------------------------------------- evaluation agrees with cash

  function RealizedIn(): TradeRecord -> int { (r: TradeRecord) => r.trade.realized }

  /** pnl_cents over a window's trades. */
  function PnlCents(records: seq<TradeRecord>): int { SumBy(records, RealizedIn()) }

  /** What the fill's position contributes to evaluation, and to the cash log. */
  function EvaluatedPnl(l: Ledger, resolutions: Resolutions, name: string): Fill -> int {
    (f: Fill) =>
      var row := JoinRow(l, name)(f);
      if row.None? then 0
      else
        var record := RecordOf(l, resolutions)(row.value);
        if record.None? then 0 else record.value.trade.realized
  }

  /** Results of positions whose fill names no signal: cash without a trade record. */
  function UnlinkedPnl(l: Ledger, name: string): Fill -> int {
    (f: Fill) =>
      if f.signal.None? && f.position < |l.positions| then RealizedOf(name)(l.positions[f.position]) else 0
  }

  function UnlinkedTotal(l: Ledger, name: string): int { SumBy(l.fills, UnlinkedPnl(l, name)) }

  lemma {:induction false} SumByCollect<T, U>(xs: seq<T>, f: T -> Option<U>, h: U -> int, g: T -> int)
    requires forall x :: x in xs ==> g(x) == if f(x).Some? then h(f(x).value) else 0
    ensures SumBy(Collect(xs, f), h) == SumBy(xs, g)
    decreases |xs|
  {
    if |xs| == 0 {
    } else {
      var front, last := xs[..|xs| - 1], xs[|xs| - 1];
      assert last in xs;
      SumByCollect(front, f, h, g);
      if f(last).Some? { SumByAppend(Collect(front, f), f(last).value, h); }
    }
  }

  lemma {:induction false} SumByZip<T, U>(xs: seq<T>, ys: seq<U>, f: T -> int, g: T -> int, h: U -> int)
    requires |xs| == |ys| && forall i :: 0 <= i < |xs| ==> f(xs[i]) + g(xs[i]) == h(ys[i])
    ensures SumBy(xs, f) + SumBy(xs, g) == SumBy(ys, h)
    decreases |xs|
  {
    if |xs| == 0 {
    } else {
      SumByZip(xs[..|xs| - 1], ys[..|ys| - 1], f, g, h);
    }
  }

  /** With one fill per position the join repeats no position, so deduplication is idle. */
  lemma {:induction false} OneFillNoDuplicates(l: Ledger, fills: seq<Fill>, name: string)
    requires forall i :: 0 <= i < |fills| ==> fills[i].position == i
    ensures var rows := Collect(fills, JoinRow(l, name));
            Dedupe(rows) == rows && forall i :: 0 <= i < |rows| ==> rows[i].0 < |fills|
    decreases |fills|
  {
    if |fills| == 0 {
    } else {
      OneFillNoDuplicates(l, fills[..|fills| - 1], name);
      var front := Collect(fills[..|fills| - 1], JoinRow(l, name));
      var row := JoinRow(l, name)(fills[|fills| - 1]);
      if row.Some? {
        assert (front + [row.value])[..|front|] == front;
        assert !Seen(front, row.value.0);
      }
    }
  }

  function RowPnl(l: Ledger, resolutions: Resolutions): ((nat, real)) -> int {
    (row: (nat, real)) =>
      var record := RecordOf(l, resolutions)(row);
      if record.None? then 0 else record.value.trade.realized
  }

  /** One position's result is in exactly one place: its trade, or the unlinked remainder. */
  lemma OneResultOnePlace(l: Ledger, resolutions: Resolutions, name: string, i: nat)
    requires Sound(l) && SettlementsStand(l, resolutions) && i < |l.fills|
    ensures EvaluatedPnl(l, resolutions, name)(l.fills[i]) + UnlinkedPnl(l, name)(l.fills[i])
         == RealizedOf(name)(l.positions[i])
  {
    assert FillSound(l.signals, i, l.fills[i], l.positions[i]);
    assert PositionSound(l.strategies.Keys, l.cash, i, l.positions[i]);
    ResultOfFill(l, resolutions, name, i);
  }

  lemma ResultOfFill(l: Ledger, resolutions: Resolutions, name: string, i: nat)
    requires i < |l.fills| && i < |l.positions|
    requires FillSound(l.signals, i, l.fills[i], l.positions[i])
    requires PositionSound(l.strategies.Keys, l.cash, i, l.positions[i]) && SettledFrom(l.positions[i], resolutions)
    ensures EvaluatedPnl(l, resolutions, name)(l.fills[i]) + UnlinkedPnl(l, name)(l.fills[i])
         == RealizedOf(name)(l.positions[i])
  {
    var f, p := l.fills[i], l.positions[i];
    if p.strategy == name && p.status.Resolved? && f.signal.Some? {
      assert JoinRow(l, name)(f) == Some((i, l.signals[f.signal.value].probYes));
      if resolutions[p.ticker].outcome.Void? { assert PnlAt(p, resolutions[p.ticker]) == 0; }
    } else {
      assert JoinRow(l, name)(f).None?;
      assert f.signal.Some? ==> RealizedOf(name)(p) == 0;
    }
  }

  lemma TradesSumOverFills(l: Ledger, resolutions: Resolutions, name: string)
    requires FillsSound(l.fills, l.positions, l.signals)
    ensures PnlCents(TradeRecords(l, resolutions, name)) == SumBy(l.fills, EvaluatedPnl(l, resolutions, name))
  {
    forall i | 0 <= i < |l.fills| ensures l.fills[i].position == i {
      assert FillSound(l.signals, i, l.fills[i], l.positions[i]);
    }
    OneFillNoDuplicates(l, l.fills, name);
    var rows := Collect(l.fills, JoinRow(l, name));
    SumByCollect(rows, RecordOf(l, resolutions), RealizedIn(), RowPnl(l, resolutions));
    SumByCollect(l.fills, JoinRow(l, name), RowPnl(l, resolutions), EvaluatedPnl(l, resolutions, name));
  }

  /** In a sound world the all-time evaluated P&L plus what unlinked positions realized is the
      sum of the strategy's REALIZED_PNL cash events. */
  lemma EvaluationReconciles(l: Ledger, resolutions: Resolutions, name: string)
    requires Sound(l) && SettlementsStand(l, resolutions) && name in l.strategies
    ensures PnlCents(TradeRecords(l, resolutions, name)) + UnlinkedTotal(l, name) == KindTotal(l.cash, name, RealizedPnl)
  {
    TradesSumOverFills(l, resolutions, name);
    forall i | 0 <= i < |l.fills|
      ensures EvaluatedPnl(l, resolutions, name)(l.fills[i]) + UnlinkedPnl(l, name)(l.fills[i])
           == RealizedOf(name)(l.positions[i])
    {
      OneResultOnePlace(l, resolutions, name, i);
    }
    SumByZip(l.fills, l.positions, EvaluatedPnl(l, resolutions, name), UnlinkedPnl(l, name), RealizedOf(name));
    RowSound(l, name);
  }

  /** On every engine-driven run the evaluated P&L is the sum of the REALIZED_PNL events. */
  lemma EngineRunsReconcile(commands: seq<Command>, name: string)
    requires RunTheorems.EngineOnly(commands) && name in Run(EMPTY_WORLD, commands).ledger.strategies
    ensures var w := Run(EMPTY_WORLD, commands);
            PnlCents(TradeRecords(w.ledger, w.shared.resolutions, name)) == KindTotal(w.ledger.cash, name, RealizedPnl)
  {
    RunTheorems.EveryRunIsSound(commands);
    RunTheorems.EngineRunsAreMatched(commands);
    var w := Run(EMPTY_WORLD, commands);
    EvaluationReconciles(w.ledger, w.shared.resolutions, name);
    forall i | 0 <= i < |w.ledger.fills| ensures UnlinkedPnl(w.ledger, name)(w.ledger.fills[i]) == 0 {
      assert w.ledger.fills[i] in w.ledger.fills;
    }
    SumByZero(w.ledger.fills, UnlinkedPnl(w.ledger, name));
  }

  /** No trade is ever built with a cost basis of zero or less, so its ROI is defined. */
  lemma TradesHavePositiveCost(l: Ledger, resolutions: Resolutions, name: string, r: TradeRecord)
    requires Sound(l) && r in TradeRecords(l, resolutions, name)
    ensures r.trade.costBasis > 0 && r.trade.outcomeYes in {0, 1}
  {
    var rows := Dedupe(Collect(l.fills, JoinRow(l, name)));
    CollectMember(rows, RecordOf(l, resolutions), r);
    var row :| row in rows && RecordOf(l, resolutions)(row) == Some(r);
    RecordCopiesPosition(l, resolutions, row, r);
    assert PositionSound(l.strategies.Keys, l.cash, row.0, l.positions[row.0]);
  }

  lemma RecordCopiesPosition(l: Ledger, resolutions: Resolutions, row: (nat, real), r: TradeRecord)
    requires RecordOf(l, resolutions)(row) == Some(r)
    ensures row.0 < |l.positions| && r.trade.costBasis == l.positions[row.0].costBasis
    ensures r.trade.outcomeYes in {0, 1}
  {
  }

  // ---------------------------------------------------------------- what a record stands for

  /** A trade to evaluate: a settled position of the strategy, opened by a signal, on a market that
      settled one way or the other. */
  predicate Evaluated(l: Ledger, resolutions: Resolutions, name: string, id: nat) {
    && id < |l.positions| && id < |l.fills|
    && l.positions[id].strategy == name && l.positions[id].status.Resolved? && l.positions[id].closedAt.Some?
    && l.fills[id].signal.Some? && l.fills[id].signal.value < |l.signals|
    && l.positions[id].ticker in resolutions && !resolutions[l.positions[id].ticker].outcome.Void?
  }

  /** The record says what its position realized and cost, what its signal expected and how the
      market settled. */
  predicate Stands(l: Ledger, resolutions: Resolutions, name: string, id: nat, r: TradeRecord) {
    && Evaluated(l, resolutions, name, id)
    && var p := l.positions[id];
    && p.closedAt == Some(r.closedAt) && r.trade.costBasis == p.costBasis && p.realized == Some(r.trade.realized)
    && r.trade.probYes == l.signals[l.fills[id].signal.value].probYes
    && r.trade.outcomeYes in {0, 1} && (r.trade.outcomeYes == 1 <==> resolutions[p.ticker].outcome.SettledYes?)
  }

  predicate Increasing(ids: seq<nat>) { forall j, k :: 0 <= j < k < |ids| ==> ids[j] < ids[k] }

  /** The records stand for these ids below `n`, one for one and in order, and for all that are due. */
  ghost predicate StandFor(records: seq<TradeRecord>, ids: seq<nat>, n: nat, due: nat -> bool, stands: (nat, TradeRecord) -> bool) {
    && |ids| == |records| && Increasing(ids)
    && (forall k :: 0 <= k < |ids| ==> ids[k] < n && stands(ids[k], records[k]))
    && (forall id: nat :: id < n && due(id) ==> id in ids)
  }

  /** The record the fill becomes, if any. */
  function RecordFrom(l: Ledger, resolutions: Resolutions, name: string): Fill -> Option<TradeRecord> {
    Then(JoinRow(l, name), RecordOf(l, resolutions))
  }

  lemma RecordStands(l: Ledger, resolutions: Resolutions, name: string, n: nat)
    requires Sound(l) && n < |l.fills|
    ensures var record := RecordFrom(l, resolutions, name)(l.fills[n]);
            && (record.Some? <==> Evaluated(l, resolutions, name, n))
            && (record.Some? ==> Stands(l, resolutions, name, n, record.value))
  {
    assert FillSound(l.signals, n, l.fills[n], l.positions[n]);
    assert PositionSound(l.strategies.Keys, l.cash, n, l.positions[n]);
  }

  lemma StandForNext(
    records: seq<TradeRecord>, ids: seq<nat>, n: nat, due: nat -> bool, stands: (nat, TradeRecord) -> bool, record: Option<TradeRecord>)
    requires StandFor(records, ids, n, due, stands)
    requires (record.Some? <==> due(n)) && (record.Some? ==> stands(n, record.value))
    ensures StandFor(if record.None? then records else records + [record.value],
                     if record.None? then ids else ids + [n], n + 1, due, stands)
  {
    if record.Some? {
      assert (ids + [n])[|ids|] == n;
      assert forall id :: id in ids ==> id in ids + [n];
    }
  }

  function IsEvaluated(l: Ledger, resolutions: Resolutions, name: string): nat -> bool {
    (id: nat) => Evaluated(l, resolutions, name, id)
  }

  function StandsIn(l: Ledger, resolutions: Resolutions, name: string): (nat, TradeRecord) -> bool {
    (id: nat, r: TradeRecord) => Stands(l, resolutions, name, id, r)
  }

  lemma {:induction false} RecordsStand(
    fills: seq<Fill>, record: Fill -> Option<TradeRecord>, due: nat -> bool, stands: (nat, TradeRecord) -> bool)
    returns (ids: seq<nat>)
    requires forall n: nat :: n < |fills| ==>
               (record(fills[n]).Some? <==> due(n)) && (record(fills[n]).Some? ==> stands(n, record(fills[n]).value))
    ensures StandFor(Collect(fills, record), ids, |fills|, due, stands)
    decreases |fills|
  {
    if |fills| == 0 {
      ids := [];
    } else {
      var last := |fills| - 1;
      ids := RecordsStand(fills[..last], record, due, stands);
      StandForNext(Collect(fills[..last], record), ids, last, due, stands, record(fills[last]));
      ids := if record(fills[last]).None? then ids else ids + [last];
    }
  }

  lemma NoRowIsDropped(l: Ledger, resolutions: Resolutions, name: string)
    requires FillsSound(l.fills, l.positions, l.signals)
    ensures TradeRecords(l, resolutions, name) == Collect(l.fills, RecordFrom(l, resolutions, name))
  {
    forall i | 0 <= i < |l.fills| ensures l.fills[i].position == i {
      assert FillSound(l.signals, i, l.fills[i], l.positions[i]);
    }
    OneFillNoDuplicates(l, l.fills, name);
    CollectTwice(l.fills, JoinRow(l, name), RecordOf(l, resolutions));
  }

  /** On a sound ledger evaluation yields one record for each trade to evaluate and nothing else,
      in the order in which the positions were opened. */
  lemma RecordsAreTheTrades(l: Ledger, resolutions: Resolutions, name: string) returns (ids: seq<nat>)
    requires Sound(l)
    ensures StandFor(TradeRecords(l, resolutions, name), ids, |l.positions|,
                     IsEvaluated(l, resolutions, name), StandsIn(l, resolutions, name))
  {
    NoRowIsDropped(l, resolutions, name);
    forall n: nat | n < |l.fills|
      ensures var record := RecordFrom(l, resolutions, name)(l.fills[n]);
              && (record.Some? <==> IsEvaluated(l, resolutions, name)(n))
              && (record.Some? ==> StandsIn(l, resolutions, name)(n, record.value))
    {
      RecordStands(l, resolutions, name, n);
    }
    ids := RecordsStand(l.fills, RecordFrom(l, resolutions, name),
                        IsEvaluated(l, resolutions, name), StandsIn(l, resolutions, name));
  }

  /** On every run a record of a YES position says 1 exactly when the position won a dollar per
      contract, and one of a NO position says 0 exactly then. */
  lemma OutcomesAreWins(commands: seq<Command>, name: string, id: nat, r: TradeRecord)
    requires var w := Run(EMPTY_WORLD, commands); Stands(w.ledger, w.shared.resolutions, name, id, r)
    ensures var p := Run(EMPTY_WORLD, commands).ledger.positions[id];
            && r.trade.realized in {100 * p.qty - p.costBasis, -p.costBasis}
            && (r.trade.outcomeYes == (if p.side.Yes? then 1 else 0) <==> r.trade.realized == 100 * p.qty - p.costBasis)
  {
    var w := Run(EMPTY_WORLD, commands);
    var p := w.ledger.positions[id];
    RunTheorems.EveryRunIsSound(commands);
    assert SettledFrom(p, w.shared.resolutions) && Decoded(w.shared.resolutions[p.ticker]);
    assert PositionSound(w.ledger.strategies.Keys, w.ledger.cash, id, p);
    SettledAnswers.WholePayouts(p);
  }

  // ---------------------------------------------------------------- windows

  datatype Window = SevenDays | ThirtyDays | AllTime

  const DAY := 86400

  function Cutoff(window: Window, now: int): Option<int> {
    match window
    case SevenDays => Some(now - 7 * DAY)
    case ThirtyDays => Some(now - 30 * DAY)
    case AllTime => None
  }

  function ClosedSince(cutoff: Option<int>): TradeRecord -> bool {
    (r: TradeRecord) => cutoff.None? || r.closedAt >= cutoff.value
  }

  function HappenedSince(cutoff: Option<int>): ((int, int)) -> bool {
    (e: (int, int)) => cutoff.None? || e.0 >= cutoff.value
  }

  function TradesForWindow(records: seq<TradeRecord>, window: Window, now: int): seq<TradeRecord> {
    Filter(records, ClosedSince(Cutoff(window, now)))
  }

  function EventsForWindow(events: seq<(int, int)>, window: Window, now: int): seq<(int, int)> {
    Filter(events, HappenedSince(Cutoff(window, now)))
  }

  function BalanceOf(): ((int, int)) -> int { (e: (int, int)) => e.1 }

  function BalancesForWindow(events: seq<(int, int)>, window: Window, now: int): seq<int> {
    MapSeq(EventsForWindow(events, window, now), BalanceOf())
  }

  /** Within the last 7 or 30 days of 86400 seconds, the first instant included, or ever. */
  predicate Within(window: Window, at: int, now: int) {
    match window
    case SevenDays => at >= now - 604800
    case ThirtyDays => at >= now - 2592000
    case AllTime => true
  }

  /** A window holds exactly the trades closed, and the balances recorded, within it. */
  lemma WindowHolds(records: seq<TradeRecord>, events: seq<(int, int)>, window: Window, now: int)
    ensures forall r :: r in TradesForWindow(records, window, now) <==> r in records && Within(window, r.closedAt, now)
    ensures forall e :: e in EventsForWindow(events, window, now) <==> e in events && Within(window, e.0, now)
    ensures var inside, balances := EventsForWindow(events, window, now), BalancesForWindow(events, window, now);
            |balances| == |inside| && forall i :: 0 <= i < |inside| ==> balances[i] == inside[i].1
  {
    var cutoff := Cutoff(window, now);
    forall r ensures r in TradesForWindow(records, window, now) <==> r in records && Within(window, r.closedAt, now) {
      FilterMember(records, ClosedSince(cutoff), r);
    }
    forall e ensures e in EventsForWindow(events, window, now) <==> e in events && Within(window, e.0, now) {
      FilterMember(events, HappenedSince(cutoff), e);
    }
  }

  function Wins(): TradeRecord -> int { (r: TradeRecord) => if r.trade.realized > 0 then 1 else 0 }

  /** n_wins. */
  function WinCount(records: seq<TradeRecord>): int { SumBy(records, Wins()) }

  function Gained(): TradeRecord -> bool { (r: TradeRecord) => r.trade.realized >= 1 }

  /** A win is a trade that gained at least a cent. */
  lemma {:induction false} WinsAreGains(records: seq<TradeRecord>)
    ensures WinCount(records) == |Filter(records, Gained())|
    decreases |records|
  {
    if |records| == 0 {
    } else {
      WinsAreGains(records[..|records| - 1]);
    }
  }

  // ---------------------------------------------------------------- drawdown

  function Peak(xs: seq<int>): int
    requires |xs| > 0
  {
    if |xs| == 1 then xs[0] else Max(Peak(xs[..|xs| - 1]), xs[|xs| - 1])
  }

  function Drawdown(xs: seq<int>): int {
    if |xs| == 0 then 0 else Max(Drawdown(xs[..|xs| - 1]), Peak(xs) - xs[|xs| - 1])
  }

  /** The single pass of max_drawdown_cents. */
  method MaxDrawdownCents(balances: seq<int>) returns (worst: int)
    ensures worst == Drawdown(balances)
    ensures forall i, j :: 0 <= i <= j < |balances| ==> balances[i] - balances[j] <= worst
    ensures |balances| > 0 ==> exists i, j :: 0 <= i <= j < |balances| && balances[i] - balances[j] == worst
    ensures |balances| == 0 ==> worst == 0
  {
    var peak: Option<int> := None;
    worst := 0;
    for k := 0 to |balances|
      invariant worst == Drawdown(balances[..k])
      invariant if k == 0 then peak.None? else peak == Some(Peak(balances[..k]))
    {
      var balance := balances[k];
      assert balances[..k + 1][..k] == balances[..k];
      if peak.None? || balance > peak.value { peak := Some(balance); }
      var drop := peak.value - balance;
      if drop > worst { worst := drop; }
    }
    assert balances[..|balances|] == balances;
    DrawdownIsWorstDrop(balances);
  }

  lemma {:induction false} PeakIsMaximum(xs: seq<int>)
    requires |xs| > 0
    ensures forall x :: x in xs ==> x <= Peak(xs)
    ensures exists i :: 0 <= i < |xs| && xs[i] == Peak(xs)
    decreases |xs|
  {
    if |xs| > 1 {
      var front, last := xs[..|xs| - 1], xs[|xs| - 1];
      PeakIsMaximum(front);
      assert xs == front + [last];
      var i :| 0 <= i < |front| && front[i] == Peak(front);
      var at := if last > Peak(front) then |xs| - 1 else i;
      assert xs[i] == front[i] && xs[at] == Peak(xs);
    } else {
      assert xs[0] == Peak(xs);
    }
  }

  /** The drawdown is the largest drop from an earlier balance to a later one. */
  lemma {:induction false} DrawdownIsWorstDrop(xs: seq<int>)
    ensures Drawdown(xs) >= 0
    ensures forall i, j :: 0 <= i <= j < |xs| ==> xs[i] - xs[j] <= Drawdown(xs)
    ensures |xs| > 0 ==> exists i, j :: 0 <= i <= j < |xs| && xs[i] - xs[j] == Drawdown(xs)
    decreases |xs|
  {
    if |xs| == 0 {
    } else {
      var front, last := xs[..|xs| - 1], |xs| - 1;
      DrawdownIsWorstDrop(front);
      PeakIsMaximum(xs);
      forall i, j | 0 <= i <= j < |xs| ensures xs[i] - xs[j] <= Drawdown(xs) {
        if j < last { assert front[i] - front[j] <= Drawdown(front); }
        assert xs[i] in xs;
      }
      if Drawdown(xs) == Peak(xs) - xs[last] {
        var i :| 0 <= i < |xs| && xs[i] == Peak(xs);
        assert xs[i] - xs[last] == Drawdown(xs);
      } else if |front| > 0 {
        var i, j :| 0 <= i <= j < |front| && front[i] - front[j] == Drawdown(front);
        assert xs[i] - xs[j] == Drawdown(xs);
      }
    }
  }

  /** `few` has no deeper drawdown and no higher peak than `all`. */
  predicate Shallower(few: seq<int>, all: seq<int>) {
    && Drawdown(few) <= Drawdown(all)
    && (|few| > 0 ==> |all| > 0 && Peak(few) <= Peak(all))
  }

  lemma ShallowerStep(few: seq<int>, all: seq<int>, b: int)
    requires Shallower(few, all)
    ensures Shallower(few, all + [b]) && Shallower(few + [b], all + [b])
  {
    assert (few + [b])[..|few|] == few && (all + [b])[..|all|] == all;
  }

  /** The elements of `xs` that `kept` marks, in order: any subsequence at all. */
  function Pick<T>(xs: seq<T>, kept: seq<bool>): seq<T>
    requires |kept| == |xs|
  {
    if |xs| == 0 then []
    else
      var front := Pick(xs[..|xs| - 1], kept[..|xs| - 1]);
      if kept[|xs| - 1] then front + [xs[|xs| - 1]] else front
  }

  /** Leaving balances out, whichever they are, never deepens the drawdown. */
  lemma {:induction false} DrawdownOfSubsequence(balances: seq<int>, kept: seq<bool>)
    requires |kept| == |balances|
    ensures Shallower(Pick(balances, kept), balances)
    decreases |balances|
  {
    if |balances| == 0 {
    } else {
      var last := |balances| - 1;
      DrawdownOfSubsequence(balances[..last], kept[..last]);
      ShallowerStep(Pick(balances[..last], kept[..last]), balances[..last], balances[last]);
      assert balances == balances[..last] + [balances[last]];
    }
  }

  /** A filter is a subsequence, so the balances of a window are one of all balances. */
  lemma {:induction false} FilterIsPick<T, U>(xs: seq<T>, p: T -> bool, f: T -> U)
    ensures MapSeq(Filter(xs, p), f) == Pick(MapSeq(xs, f), MapSeq(xs, p))
    decreases |xs|
  {
    if |xs| == 0 {
    } else {
      var front, last := xs[..|xs| - 1], xs[|xs| - 1];
      FilterIsPick(front, p, f);
      assert xs == front + [last];
      MapAppend(front, last, f);
      MapAppend(front, last, p);
      MapAppend(Filter(front, p), last, f);
      assert MapSeq(xs, f)[..|front|] == MapSeq(front, f) && MapSeq(xs, p)[..|front|] == MapSeq(front, p);
    }
  }

  lemma DrawdownOfFewerEvents(events: seq<(int, int)>, keep: ((int, int)) -> bool)
    ensures Shallower(MapSeq(Filter(events, keep), BalanceOf()), MapSeq(events, BalanceOf()))
  {
    FilterIsPick(events, keep, BalanceOf());
    DrawdownOfSubsequence(MapSeq(events, BalanceOf()), MapSeq(events, keep));
  }

  lemma {:induction false} SumOfFewer<T>(xs: seq<T>, keep: T -> bool, f: T -> int)
    requires forall x :: x in xs ==> f(x) >= 0
    ensures SumBy(Filter(xs, keep), f) <= SumBy(xs, f) && |Filter(xs, keep)| <= |xs|
    decreases |xs|
  {
    if |xs| == 0 {
    } else {
      var front, last := xs[..|xs| - 1], xs[|xs| - 1];
      assert last in xs;
      SumOfFewer(front, keep, f);
      if keep(last) { SumByAppend(Filter(front, keep), last, f); }
    }
  }

  /** Trades, wins and drawdown over 7 days are at most those over 30 days, and those at most
      the all-time ones. */
  lemma WindowsAreNested(records: seq<TradeRecord>, events: seq<(int, int)>, now: int)
    ensures var d7, d30, all := TradesForWindow(records, SevenDays, now), TradesForWindow(records, ThirtyDays, now),
                                TradesForWindow(records, AllTime, now);
            |d7| <= |d30| <= |all| && WinCount(d7) <= WinCount(d30) <= WinCount(all) && all == records
    ensures Drawdown(BalancesForWindow(events, SevenDays, now))
         <= Drawdown(BalancesForWindow(events, ThirtyDays, now))
         <= Drawdown(BalancesForWindow(events, AllTime, now))
  {
    var c7, c30 := Cutoff(SevenDays, now), Cutoff(ThirtyDays, now);
    FilterAll(records, ClosedSince(None));
    FilterAll(events, HappenedSince(None));
    FilterWithin(records, ClosedSince(c7), ClosedSince(c30));
    FilterWithin(events, HappenedSince(c7), HappenedSince(c30));
    SumOfFewer(Filter(records, ClosedSince(c30)), ClosedSince(c7), Wins());
    SumOfFewer(records, ClosedSince(c30), Wins());
    DrawdownOfFewerEvents(Filter(events, HappenedSince(c30)), HappenedSince(c7));
    DrawdownOfFewerEvents(events, HappenedSince(c30));
  }

  lemma {:induction false} FilterAll<T>(xs: seq<T>, p: T -> bool)
    requires forall x :: x in xs ==> p(x)
    ensures Filter(xs, p) == xs
    decreases |xs|
  {
    if |xs| == 0 {
    } else {
      assert xs[|xs| - 1] in xs;
      FilterAll(xs[..|xs| - 1], p);
    }
  }
}
