/** Marking open positions to market, and what rounding does to payouts and marks
    (core/ledger/queries.py, core/ledger/writer.py). */
module Marks {
  import opened Rounding
  import opened Domain
  import opened LedgerSpec
  import Reals
  import Sizing

  function MarkPrice(side: Side, mid: real): real { if side.Yes? then mid else 1.0 - mid }

  function UnrealizedPnl(side: Side, openPrice: real, qty: int, mid: real): int {
    HalfUp(Notional(qty, MarkPrice(side, mid) - openPrice))
  }

  /** Notional is linear in the price. */
  lemma NotionalDifference(qty: int, a: real, b: real)
    ensures Notional(qty, a - b) == Notional(qty, a) - Notional(qty, b)
  {
  }

  lemma NotionalOfOne(qty: int)
    ensures Notional(qty, 1.0) == (100 * qty) as real
  {
  }

  lemma NotionalWithin(qty: int, v: real)
    requires qty >= 0 && 0.0 <= v <= 1.0
    ensures 0.0 <= Notional(qty, v) <= (100 * qty) as real
  {
    if qty > 0 {
      Reals.Scale(0.0, v * 100.0, qty as real);
      Reals.Scale(v * 100.0, 100.0, qty as real);
    }
  }

  /** YES and NO contracts of one market settle, for equal quantities, to 100 cents a pair;
      one cent more exactly when both halves of an uneven settlement sit on a half cent. */
  lemma PayoutsOfAPair(qty: nat, cost: int, cost': int, res: Resolution)
    requires !res.outcome.Void? && 0.0 <= res.settlement <= 1.0
    ensures Payout(Yes, qty, cost, res) + Payout(No, qty, cost', res)
         == 100 * qty + if Notional(qty, res.settlement) - Notional(qty, res.settlement).Floor as real == 0.5 then 1 else 0
  {
    NotionalDifference(qty, 1.0, res.settlement);
    NotionalOfOne(qty);
    NotionalWithin(qty, res.settlement);
    HalfUpSplit(100 * qty, Notional(qty, res.settlement));
  }

  /** A YES at p and a NO at 1 - p on the same market: their marks cancel exactly. */
  lemma OppositeMarksCancel(price: real, qty: int, mid: real)
    ensures UnrealizedPnl(Yes, price, qty, mid) + UnrealizedPnl(No, 1.0 - price, qty, mid) == 0
  {
    NotionalDifference(qty, mid, price);
    NotionalDifference(qty, price, mid);
    assert 1.0 - mid - (1.0 - price) == price - mid;
    HalfUpOdd(Notional(qty, mid - price));
  }

  /** Marking at the settlement price predicts the realized result to within a cent, and
      exactly when both the settlement and the entry are worth whole cents. */
  lemma MarkPredictsSettlement(p: Position, res: Resolution)
    requires p.qty > 0 && p.price >= 0.0 && p.costBasis == ExpectedCost(p.qty, p.price)
    requires !res.outcome.Void? && 0.0 <= res.settlement <= 1.0
    ensures -1 <= UnrealizedPnl(p.side, p.price, p.qty, res.settlement) - PnlAt(p, res) <= 1
    ensures Whole(Notional(p.qty, MarkPrice(p.side, res.settlement))) && Whole(Notional(p.qty, p.price)) ==>
              UnrealizedPnl(p.side, p.price, p.qty, res.settlement) == PnlAt(p, res)
  {
    var settle := MarkPrice(p.side, res.settlement);
    NotionalWithin(p.qty, settle);
    EntryWorth(p.qty, p.price);
    NotionalDifference(p.qty, settle, p.price);
    HalfUpDifference(Notional(p.qty, settle), Notional(p.qty, p.price));
  }

  lemma EntryWorth(qty: int, price: real)
    requires qty > 0 && price >= 0.0
    ensures Notional(qty, price) >= 0.0
  {
    if price > 0.0 { Sizing.NotionalPositive(qty, price); }
  }
}
