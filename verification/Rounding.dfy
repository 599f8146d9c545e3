/** The two rounding modes the ledger mixes: sizing rounds cost down
    (core/risk/sizing.py), the writer rounds half up (core/ledger/writer.py). */
module Rounding {

  /** ROUND_HALF_UP: halves go away from zero. */
  function HalfUp(x: real): int {
    if x >= 0.0 then (x + 0.5).Floor else -((-x + 0.5).Floor)
  }

  /** ROUND_DOWN, and Python's `int(...)`: toward zero. */
  function Down(x: real): int {
    if x >= 0.0 then x.Floor else -((-x).Floor)
  }

  /** The value of `qty` contracts at `price` dollars, in cents. */
  function Notional(qty: int, price: real): real {
    qty as real * (price * 100.0)
  }

  predicate Whole(x: real) { x == x.Floor as real }

  lemma IntegersAreWhole(x: real, n: int)
    requires x == n as real
    ensures Whole(x) && x.Floor == n
  {
  }

  /** Rounding is to a nearest cent, with halves away from zero. */
  lemma HalfUpIsNearest(x: real)
    ensures x >= 0.0 ==> HalfUp(x) as real - 0.5 <= x < HalfUp(x) as real + 0.5
    ensures x <= 0.0 ==> HalfUp(x) as real - 0.5 < x <= HalfUp(x) as real + 0.5
  {
    if x > 0.0 {
      var f := (x + 0.5).Floor;
      assert f as real <= x + 0.5 < f as real + 1.0;
    } else {
      var f := (-x + 0.5).Floor;
      assert f as real <= -x + 0.5 < f as real + 1.0;
      assert HalfUp(x) == if x == 0.0 then f else -f;
    }
  }

  /** ... and that cent is unique, so an integer that is nearest is the rounding. */
  lemma HalfUpUnique(x: real, n: int)
    requires x >= 0.0
    requires n as real - 0.5 <= x < n as real + 0.5
    ensures HalfUp(x) == n
  {
    HalfUpIsNearest(x);
    var d := n - HalfUp(x);
    assert -1.0 < d as real < 1.0;
  }

  lemma HalfUpOdd(x: real)
    ensures HalfUp(-x) == -HalfUp(x)
  {
  }

  /** Down drops the fraction, of either sign. */
  lemma DownDropsFraction(x: real)
    ensures x >= 0.0 ==> Down(x) as real <= x < Down(x) as real + 1.0
    ensures Down(-x) == -Down(x)
  {
  }

  /** The two modes agree exactly below the half cent. */
  lemma DownMeetsHalfUp(x: real)
    requires x >= 0.0
    ensures Down(x) == HalfUp(x) <==> x - x.Floor as real < 0.5
  {
    if x - x.Floor as real < 0.5 {
      HalfUpUnique(x, x.Floor);
    } else {
      HalfUpUnique(x, x.Floor + 1);
    }
  }

  /** Splitting a whole number of cents in two and rounding each part half up pays out
      one cent too many exactly when both parts sit on a half cent. */
  lemma HalfUpSplit(total: int, x: real)
    requires 0.0 <= x <= total as real
    ensures HalfUp(x) + HalfUp(total as real - x) == total + if x - x.Floor as real == 0.5 then 1 else 0
  {
    var whole := x.Floor;
    var part := x - whole as real;
    if part < 0.5 {
      HalfUpUnique(x, whole);
      HalfUpUnique(total as real - x, total - whole);
    } else {
      HalfUpUnique(x, whole + 1);
      HalfUpUnique(total as real - x, if part == 0.5 then total - whole else total - whole - 1);
    }
  }

  /** Rounding a difference differs from the difference of roundings by at most one cent,
      and not at all when both are whole. */
  lemma HalfUpDifference(x: real, y: real)
    requires x >= 0.0 && y >= 0.0
    ensures -1 <= HalfUp(x - y) - (HalfUp(x) - HalfUp(y)) <= 1
    ensures Whole(x) && Whole(y) ==> HalfUp(x - y) == HalfUp(x) - HalfUp(y)
  {
    HalfUpIsNearest(x);
    HalfUpIsNearest(y);
    HalfUpIsNearest(x - y);
    var slip := HalfUp(x - y) - (HalfUp(x) - HalfUp(y));
    assert -1.5 <= slip as real <= 1.5;
    if Whole(x) && Whole(y) {
      HalfUpUnique(x, x.Floor);
      HalfUpUnique(y, y.Floor);
      if x >= y {
        HalfUpUnique(x - y, x.Floor - y.Floor);
      } else {
        HalfUpOdd(y - x);
        HalfUpUnique(y - x, y.Floor - x.Floor);
      }
    }
  }
}
