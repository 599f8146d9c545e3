/** Products and quotients of reals, one step at a time. */
module Reals {

  lemma Scale(a: real, b: real, k: real)
    requires a <= b && k > 0.0
    ensures a * k <= b * k
  {
    if a < b { ScaleStrict(a, b, k); }
  }

  lemma ScaleStrict(a: real, b: real, k: real)
    requires a < b && k > 0.0
    ensures a * k < b * k
  {
  }

  /** Multiplying a quotient's bounds back. */
  lemma Bracket(x: real, unit: real, low: real, high: real)
    requires unit > 0.0 && low <= x / unit < high
    ensures low * unit <= x < high * unit
  {
    assert (x / unit) * unit == x;
    Scale(low, x / unit, unit);
    ScaleStrict(x / unit, high, unit);
  }

  lemma Distribute(x: real, y: real)
    ensures (x + 1.0) * y == x * y + y
  {
  }

  lemma {:induction false} ProductOfIntegers(a: nat, b: int) returns (n: int)
    ensures a as real * b as real == n as real
    decreases a
  {
    if a == 0 {
      n := 0;
    } else {
      var m := ProductOfIntegers(a - 1, b);
      n := m + b;
      Distribute((a - 1) as real, b as real);
      assert n as real == m as real + b as real;
    }
  }
}
