/** The resolution tick: settle the open positions whose market has resolved, in whatever
    order the query returns them (core/engine/resolution.py). */
module ResolutionTick {
  import opened Lists
  import opened Domain
  import opened LedgerSpec
  import opened Invariants
  import LedgerStore

  type Resolutions = map<string, Resolution>

  predicate Due(l: Ledger, id: nat, resolutions: Resolutions) {
    id < |l.positions| && l.positions[id].status.Open? && l.positions[id].ticker in resolutions
  }

  function ResolveOne(l: Ledger, id: nat, resolutions: Resolutions, now: int): Result<Ledger, LedgerError> {
    if id >= |l.positions| || l.positions[id].ticker !in resolutions then Ok(l)
    else ResolvePosition(l, id, resolutions[l.positions[id].ticker], now)
  }

  /** Settle the positions of `order`, left to right. */
  function ResolveAll(l: Ledger, order: seq<nat>, resolutions: Resolutions, now: int): Result<Ledger, LedgerError> {
    if |order| == 0 then Ok(l)
    else
      match ResolveAll(l, order[..|order| - 1], resolutions, now)
      case Err(e) => Err(e)
      case Ok(m) => ResolveOne(m, order[|order| - 1], resolutions, now)
  }

  /** An enumeration of the open positions: every one of them once, in any order. */
  predicate EnumeratesOpen(l: Ledger, order: seq<nat>) {
    && Distinct(order)
    && (forall i :: 0 <= i < |order| ==> order[i] < |l.positions| && l.positions[order[i]].status.Open?)
    && (forall id :: 0 <= id < |l.positions| && l.positions[id].status.Open? ==> id in order)
  }

  // ---------------------------------------------------------------- the tick as it runs

  method RunResolutionTick(store: LedgerStore.Store, order: seq<nat>, resolutions: Resolutions, now: int)
    returns (r: Result<nat, LedgerError>)
    requires EnumeratesOpen(store.Value(), order)
    modifies store
    ensures var spec := ResolveAll(old(store.Value()), order, resolutions, now);
            && store.Value() == LedgerStore.After(old(store.Value()), spec)
            && LedgerStore.Reports(r, spec)
    ensures r.Ok? ==> r.value == |Filter(order, HasResolution(old(store.positions), resolutions))|
  {
    var saved := store.Value();
    var resolved := 0;
    for i := 0 to |order|
      invariant ResolveAll(saved, order[..i], resolutions, now) == Ok(store.Value())
      invariant |store.positions| == |saved.positions|
      invariant forall id :: 0 <= id < |saved.positions| ==> store.positions[id].ticker == saved.positions[id].ticker
      invariant resolved == |Filter(order[..i], HasResolution(saved.positions, resolutions))|
    {
      ResolveNext(saved, order, resolutions, now, i, store.Value());
      var ticker := store.positions[order[i]].ticker;
      if ticker in resolutions {
        var settled := store.Resolve(order[i], resolutions[ticker], now);
        if settled.Err? {
          ResolveStops(saved, order, resolutions, now, i + 1);
          store.Rollback(saved);
          return Err(settled.error);
        }
        resolved := resolved + 1;
      }
    }
    assert order[..|order|] == order;
    return Ok(resolved);
  }

  function HasResolution(positions: seq<Position>, resolutions: Resolutions): nat -> bool {
    (id: nat) => id < |positions| && positions[id].ticker in resolutions
  }

  /** One more step of the loop: the next row is settled when its market has resolved, and counted. */
  lemma ResolveNext(saved: Ledger, order: seq<nat>, resolutions: Resolutions, now: int, i: nat, l: Ledger)
    requires i < |order| && order[i] < |saved.positions| == |l.positions|
    requires l.positions[order[i]].ticker == saved.positions[order[i]].ticker
    requires ResolveAll(saved, order[..i], resolutions, now) == Ok(l)
    ensures ResolveAll(saved, order[..i + 1], resolutions, now)
            == if l.positions[order[i]].ticker in resolutions
               then ResolvePosition(l, order[i], resolutions[l.positions[order[i]].ticker], now) else Ok(l)
    ensures |Filter(order[..i + 1], HasResolution(saved.positions, resolutions))|
            == |Filter(order[..i], HasResolution(saved.positions, resolutions))|
             + if l.positions[order[i]].ticker in resolutions then 1 else 0
  {
    assert order[..i + 1] == order[..i] + [order[i]];
    assert order[..i + 1][..i] == order[..i];
    FilterAppend(order[..i], order[i], HasResolution(saved.positions, resolutions));
  }

  lemma {:induction false} ResolveStops(l: Ledger, order: seq<nat>, resolutions: Resolutions, now: int, i: nat)
    requires i <= |order| && ResolveAll(l, order[..i], resolutions, now).Err?
    ensures ResolveAll(l, order, resolutions, now) == ResolveAll(l, order[..i], resolutions, now)
    decreases |order|
  {
    if i == |order| {
      assert order[..i] == order;
    } else {
      assert order[..|order| - 1][..i] == order[..i];
      ResolveStops(l, order[..|order| - 1], resolutions, now, i);
    }
  }

  // ---------------------------------------------------------------- closed form

  /** What settling position `id` adds to the bankroll of `name`. */
  function PnlFor(positions: seq<Position>, resolutions: Resolutions, name: string): nat -> int {
    (id: nat) =>
      if id < |positions| && positions[id].strategy == name && positions[id].status.Open? && positions[id].ticker in resolutions
      then PnlAt(positions[id], resolutions[positions[id].ticker]) else 0
  }

  function GainFor(positions: seq<Position>, resolutions: Resolutions, name: string): nat -> int {
    (id: nat) => Max(0, PnlFor(positions, resolutions, name)(id))
  }

  /** The row of position `id` once the positions of `order` are settled. */
  function SettledRow(l: Ledger, order: seq<nat>, resolutions: Resolutions, now: int, id: nat): Position
    requires id < |l.positions|
  {
    var p := l.positions[id];
    if id in order && Due(l, id, resolutions) then SettledPosition(p, PnlAt(p, resolutions[p.ticker]), now) else p
  }

  /** Every open position belongs to a strategy of the ledger (a foreign key). */
  predicate Owned(l: Ledger) {
    forall i :: 0 <= i < |l.positions| ==> l.positions[i].strategy in l.strategies
  }

  predicate SettledRows(l: Ledger, l': Ledger, order: seq<nat>, resolutions: Resolutions, now: int) {
    && |l'.positions| == |l.positions|
    && forall id :: 0 <= id < |l.positions| ==> l'.positions[id] == SettledRow(l, order, resolutions, now, id)
  }

  /** A strategy after the settlements: everything but money is untouched, the bankroll has
      moved by the sum of the results, and the high-water mark is bounded. */
  predicate SettledStrategy(l: Ledger, l': Ledger, order: seq<nat>, resolutions: Resolutions, name: string) {
    && name in l.strategies && name in l'.strategies
    && var s, s' := l.strategies[name], l'.strategies[name];
    && s' == s.(bankroll := s'.bankroll, hwm := s'.hwm)
    && s'.bankroll == s.bankroll + SumBy(order, PnlFor(l.positions, resolutions, name))
    && s.hwm <= s'.hwm <= Max(s.hwm, s.bankroll + SumBy(order, GainFor(l.positions, resolutions, name)))
    && (AnyDue(l, order, resolutions, name) ==> s'.bankroll <= s'.hwm)
    && (!AnyDue(l, order, resolutions, name) ==> s' == s)
  }

  /** Some position of `name` in `order` is settled. */
  predicate AnyDue(l: Ledger, order: seq<nat>, resolutions: Resolutions, name: string) {
    exists i :: 0 <= i < |order| && Due(l, order[i], resolutions) && l.positions[order[i]].strategy == name
  }

  lemma ResolveOneRows(
    l: Ledger, m: Ledger, m': Ledger, front: seq<nat>, id: nat, resolutions: Resolutions, now: int)
    requires SettledRows(l, m, front, resolutions, now) && id !in front && id < |l.positions|
    requires m'.positions == if Due(l, id, resolutions)
                             then m.positions[id := SettledRow(l, [id], resolutions, now, id)] else m.positions
    ensures SettledRows(l, m', front + [id], resolutions, now)
  {
    forall k | 0 <= k < |l.positions|
      ensures m'.positions[k] == SettledRow(l, front + [id], resolutions, now, k)
    {
      assert m.positions[k] == SettledRow(l, front, resolutions, now, k);
      assert k in front + [id] <==> k in front || k == id;
    }
  }

  lemma ResolveOneStrategy(
    l: Ledger, m: Ledger, m': Ledger, front: seq<nat>, id: nat, resolutions: Resolutions, name: string)
    requires SettledStrategy(l, m, front, resolutions, name) && id < |l.positions| && name in m'.strategies
    requires var pnl := PnlFor(l.positions, resolutions, name)(id);
             var s := m.strategies[name];
             m'.strategies[name]
             == if Due(l, id, resolutions) && l.positions[id].strategy == name
                then s.(bankroll := s.bankroll + pnl, hwm := Max(s.hwm, s.bankroll + pnl)) else s
    ensures SettledStrategy(l, m', front + [id], resolutions, name)
  {
    SumByAppend(front, id, PnlFor(l.positions, resolutions, name));
    SumByAppend(front, id, GainFor(l.positions, resolutions, name));
    PnlBelowGain(front, l.positions, resolutions, name);
    var order := front + [id];
    assert order[|front|] == id;
    assert AnyDue(l, order, resolutions, name)
           <==> AnyDue(l, front, resolutions, name) || (Due(l, id, resolutions) && l.positions[id].strategy == name) by {
      if AnyDue(l, front, resolutions, name) {
        var i :| 0 <= i < |front| && Due(l, front[i], resolutions) && l.positions[front[i]].strategy == name;
        assert order[i] == front[i];
      }
    }
  }

  lemma {:induction false} PnlBelowGain(order: seq<nat>, positions: seq<Position>, resolutions: Resolutions, name: string)
    ensures SumBy(order, PnlFor(positions, resolutions, name)) <= SumBy(order, GainFor(positions, resolutions, name))
    decreases |order|
  {
    if |order| == 0 {
    } else {
      PnlBelowGain(order[..|order| - 1], positions, resolutions, name);
    }
  }

  /** One more settlement, on the rows of the ledger it started from. */
  lemma ResolveOneEffect(l: Ledger, m: Ledger, front: seq<nat>, id: nat, resolutions: Resolutions, now: int)
    requires Owned(l) && SettledRows(l, m, front, resolutions, now) && id !in front && id < |l.positions|
    requires m.strategies.Keys == l.strategies.Keys
    ensures ResolveOne(m, id, resolutions, now).Ok?
    ensures var m' := ResolveOne(m, id, resolutions, now).value;
            if !Due(l, id, resolutions) then m' == m
            else
              var p := l.positions[id];
              m' == Settle(m, id, PnlAt(p, resolutions[p.ticker]), now) && m.positions[id] == p
  {
    assert m.positions[id] == SettledRow(l, front, resolutions, now, id);
  }

  /** What one settlement does to the row of `name`. */
  lemma SettleMovesRow(m: Ledger, id: nat, realized: int, now: int, name: string)
    requires id < |m.positions| && m.positions[id].strategy in m.strategies && name in m.strategies
    ensures var m' := Settle(m, id, realized, now);
            && m'.strategies.Keys == m.strategies.Keys
            && m'.positions == m.positions[id := SettledPosition(m.positions[id], realized, now)]
            && var s := m.strategies[name];
               m'.strategies[name]
               == if m.positions[id].strategy == name
                  then s.(bankroll := s.bankroll + realized, hwm := Max(s.hwm, s.bankroll + realized)) else s
  {
    SettlementRows(m, id, realized, now);
  }

  lemma ResolveOneStep(
    l: Ledger, m: Ledger, front: seq<nat>, id: nat, resolutions: Resolutions, now: int, name: string)
    requires Owned(l) && SettledRows(l, m, front, resolutions, now) && SettledStrategy(l, m, front, resolutions, name)
    requires id !in front && id < |l.positions| && m.strategies.Keys == l.strategies.Keys
    ensures ResolveOne(m, id, resolutions, now).Ok?
    ensures var m' := ResolveOne(m, id, resolutions, now).value;
            && m'.strategies.Keys == l.strategies.Keys
            && SettledRows(l, m', front + [id], resolutions, now)
            && SettledStrategy(l, m', front + [id], resolutions, name)
  {
    ResolveOneEffect(l, m, front, id, resolutions, now);
    var m' := ResolveOne(m, id, resolutions, now).value;
    if Due(l, id, resolutions) {
      SettleMovesRow(m, id, PnlAt(l.positions[id], resolutions[l.positions[id].ticker]), now, name);
    }
    ResolveOneRows(l, m, m', front, id, resolutions, now);
    ResolveOneStrategy(l, m, m', front, id, resolutions, name);
  }

  lemma {:induction false} ResolveAllEffect(l: Ledger, order: seq<nat>, resolutions: Resolutions, now: int, name: string)
    requires Owned(l) && Distinct(order) && name in l.strategies
    requires forall i :: 0 <= i < |order| ==> order[i] < |l.positions|
    ensures ResolveAll(l, order, resolutions, now).Ok?
    ensures var l' := ResolveAll(l, order, resolutions, now).value;
            && l'.strategies.Keys == l.strategies.Keys
            && SettledRows(l, l', order, resolutions, now)
            && SettledStrategy(l, l', order, resolutions, name)
    decreases |order|
  {
    if |order| == 0 {
    } else {
      var front, id := order[..|order| - 1], order[|order| - 1];
      ResolveAllEffect(l, front, resolutions, now, name);
      var m := ResolveAll(l, front, resolutions, now).value;
      ResolveOneStep(l, m, front, id, resolutions, now, name);
      assert order == front + [id];
    }
  }

  // ---------------------------------------------------------------- confluence

  lemma EnumerationsAgree(l: Ledger, order: seq<nat>, order': seq<nat>)
    requires EnumeratesOpen(l, order) && EnumeratesOpen(l, order')
    ensures multiset(order) == multiset(order')
    ensures forall id :: id in order <==> id in order'
  {
    forall id: nat ensures id in order <==> id in order' { }
    SameMembersSameBag(order, order');
  }

  /** The order in which the query returns the open positions does not matter: the same
      positions are settled for the same amounts, and every strategy ends with the same
      bankroll and the same reservation, hence the same free cash. */
  lemma ResolutionIsConfluent(
    l: Ledger, order: seq<nat>, order': seq<nat>, resolutions: Resolutions, now: int, name: string)
    requires Owned(l) && name in l.strategies && EnumeratesOpen(l, order) && EnumeratesOpen(l, order')
    ensures ResolveAll(l, order, resolutions, now).Ok? && ResolveAll(l, order', resolutions, now).Ok?
    ensures var a := ResolveAll(l, order, resolutions, now).value;
            var b := ResolveAll(l, order', resolutions, now).value;
            && a.positions == b.positions
            && name in a.strategies && name in b.strategies
            && a.strategies[name].(hwm := 0) == b.strategies[name].(hwm := 0)
            && FreeCash(a, name) == FreeCash(b, name)
  {
    ResolveAllEffect(l, order, resolutions, now, name);
    ResolveAllEffect(l, order', resolutions, now, name);
    EnumerationsAgree(l, order, order');
    SumByPermutation(order, order', PnlFor(l.positions, resolutions, name));
    SettledRowsAgree(l, ResolveAll(l, order, resolutions, now).value, ResolveAll(l, order', resolutions, now).value,
                     order, order', resolutions, now);
  }

  lemma SettledRowsAgree(l: Ledger, a: Ledger, b: Ledger, order: seq<nat>, order': seq<nat>, resolutions: Resolutions, now: int)
    requires SettledRows(l, a, order, resolutions, now) && SettledRows(l, b, order', resolutions, now)
    requires forall id :: id in order <==> id in order'
    ensures a.positions == b.positions
  {
    forall id | 0 <= id < |l.positions| ensures a.positions[id] == b.positions[id] {
      assert a.positions[id] == SettledRow(l, order, resolutions, now, id);
      assert b.positions[id] == SettledRow(l, order', resolutions, now, id);
    }
  }

  /** Only the high-water mark depends on the order, and only between these bounds: the final
      bankroll (when anything was settled) and the old bankroll with every gain first. */
  lemma HighWaterBounds(l: Ledger, order: seq<nat>, resolutions: Resolutions, now: int, name: string)
    requires Owned(l) && name in l.strategies && EnumeratesOpen(l, order)
    ensures ResolveAll(l, order, resolutions, now).Ok? && name in ResolveAll(l, order, resolutions, now).value.strategies
    ensures var s, s' := l.strategies[name], ResolveAll(l, order, resolutions, now).value.strategies[name];
            && s.hwm <= s'.hwm <= Max(s.hwm, s.bankroll + SumBy(order, GainFor(l.positions, resolutions, name)))
            && (AnyDue(l, order, resolutions, name) ==> s'.bankroll <= s'.hwm)
            && (!AnyDue(l, order, resolutions, name) ==> s' == s)
  {
    ResolveAllEffect(l, order, resolutions, now, name);
  }

  /** Exactly the open positions whose market has a resolution row are settled. */
  lemma ExactlyTheDueAreSettled(l: Ledger, order: seq<nat>, resolutions: Resolutions, now: int, id: nat)
    requires Owned(l) && EnumeratesOpen(l, order) && id < |l.positions|
    ensures ResolveAll(l, order, resolutions, now).Ok?
    ensures var l' := ResolveAll(l, order, resolutions, now).value;
            && |l'.positions| == |l.positions|
            && (l'.positions[id] != l.positions[id] <==> Due(l, id, resolutions))
            && (Due(l, id, resolutions) ==>
                  && l'.positions[id].status.Resolved?
                  && l'.positions[id].realized == Some(PnlAt(l.positions[id], resolutions[l.positions[id].ticker])))
            && !Due(l', id, resolutions)
  {
    ResolveAllEffect(l, order, resolutions, now, l.positions[id].strategy);
    var l' := ResolveAll(l, order, resolutions, now).value;
    assert l'.positions[id] == SettledRow(l, order, resolutions, now, id);
  }

  lemma {:induction false} NothingDueChangesNothing(l: Ledger, order: seq<nat>, resolutions: Resolutions, now: int)
    requires forall i :: 0 <= i < |order| ==> !Due(l, order[i], resolutions)
    ensures ResolveAll(l, order, resolutions, now) == Ok(l)
    decreases |order|
  {
    if |order| == 0 {
    } else {
      NothingDueChangesNothing(l, order[..|order| - 1], resolutions, now);
    }
  }

  /** Running the tick again on the same resolutions changes nothing at all. */
  lemma SecondRunIsANoOp(
    l: Ledger, order: seq<nat>, again: seq<nat>, resolutions: Resolutions, now: int, later: int)
    requires Owned(l) && EnumeratesOpen(l, order)
    requires ResolveAll(l, order, resolutions, now).Ok?
    requires EnumeratesOpen(ResolveAll(l, order, resolutions, now).value, again)
    ensures var l' := ResolveAll(l, order, resolutions, now).value;
            ResolveAll(l', again, resolutions, later) == Ok(l')
  {
    var l' := ResolveAll(l, order, resolutions, now).value;
    ResolveAllKeepsCount(l, order, resolutions, now);
    forall i | 0 <= i < |again| ensures !Due(l', again[i], resolutions) {
      ExactlyTheDueAreSettled(l, order, resolutions, now, again[i]);
    }
    NothingDueChangesNothing(l', again, resolutions, later);
  }

  lemma {:induction false} ResolveAllKeepsCount(l: Ledger, order: seq<nat>, resolutions: Resolutions, now: int)
    requires ResolveAll(l, order, resolutions, now).Ok?
    ensures |ResolveAll(l, order, resolutions, now).value.positions| == |l.positions|
    decreases |order|
  {
    if |order| == 0 {
    } else {
      ResolveAllKeepsCount(l, order[..|order| - 1], resolutions, now);
    }
  }

  // ---------------------------------------------------------------- soundness

  lemma {:induction false} ResolveAllKeepsSound(l: Ledger, order: seq<nat>, resolutions: Resolutions, now: int)
    requires Sound(l) && forall t :: t in resolutions ==> ValidResolution(resolutions[t])
    ensures ResolveAll(l, order, resolutions, now).Ok? && Sound(ResolveAll(l, order, resolutions, now).value)
    decreases |order|
  {
    if |order| == 0 {
    } else {
      var front, id := order[..|order| - 1], order[|order| - 1];
      ResolveAllKeepsSound(l, front, resolutions, now);
      var m := ResolveAll(l, front, resolutions, now).value;
      if id < |m.positions| && m.positions[id].ticker in resolutions {
        ResolveKeepsSound(m, id, resolutions[m.positions[id].ticker], now);
      }
    }
  }

  lemma SoundIsOwned(l: Ledger)
    requires Sound(l)
    ensures Owned(l)
  {
    forall i | 0 <= i < |l.positions| ensures l.positions[i].strategy in l.strategies {
      assert PositionSound(l.strategies.Keys, l.cash, i, l.positions[i]);
    }
  }
}
