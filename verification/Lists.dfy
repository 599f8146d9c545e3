/** Sums, selections and filters over table rows: the vocabulary in which the other
    modules state what a ledger or a store contains. Everything recurses from the end,
    because every table here grows by appending. */
module Lists {

  datatype Option<+T> = None | Some(value: T)

  datatype Result<+T, +E> = Ok(value: T) | Err(error: E)

  function Max(a: int, b: int): int { if a < b then b else a }

  /** The sum of `f` over the rows of `xs`. */
  function SumBy<T>(xs: seq<T>, f: T -> int): int {
    if |xs| == 0 then 0 else SumBy(xs[..|xs| - 1], f) + f(xs[|xs| - 1])
  }

  /** The same over reals, for means. */
  function SumReal<T>(xs: seq<T>, f: T -> real): real {
    if |xs| == 0 then 0.0 else SumReal(xs[..|xs| - 1], f) + f(xs[|xs| - 1])
  }

  /** The rows of `xs` that `f` maps to something, mapped, in order. */
  function Collect<T, U>(xs: seq<T>, f: T -> Option<U>): seq<U> {
    if |xs| == 0 then []
    else
      var front := Collect(xs[..|xs| - 1], f);
      match f(xs[|xs| - 1])
      case None => front
      case Some(u) => front + [u]
  }

  function Filter<T>(xs: seq<T>, p: T -> bool): seq<T> {
    if |xs| == 0 then []
    else
      var front := Filter(xs[..|xs| - 1], p);
      if p(xs[|xs| - 1]) then front + [xs[|xs| - 1]] else front
  }

  function MapSeq<T, U>(xs: seq<T>, f: T -> U): (ys: seq<U>)
    ensures |ys| == |xs|
    ensures forall i :: 0 <= i < |xs| ==> ys[i] == f(xs[i])
  {
    if |xs| == 0 then [] else MapSeq(xs[..|xs| - 1], f) + [f(xs[|xs| - 1])]
  }

  function FlatMap<T, U>(xs: seq<T>, f: T -> seq<U>): seq<U> {
    if |xs| == 0 then [] else FlatMap(xs[..|xs| - 1], f) + f(xs[|xs| - 1])
  }

  predicate Distinct<T(==)>(xs: seq<T>) {
    forall i, j :: 0 <= i < j < |xs| ==> xs[i] != xs[j]
  }

  // ---------------------------------------------------------------- appending

  lemma SumByAppend<T>(xs: seq<T>, x: T, f: T -> int)
    ensures SumBy(xs + [x], f) == SumBy(xs, f) + f(x)
  {
    assert (xs + [x])[..|xs|] == xs;
  }

  lemma SumRealAppend<T>(xs: seq<T>, x: T, f: T -> real)
    ensures SumReal(xs + [x], f) == SumReal(xs, f) + f(x)
  {
    assert (xs + [x])[..|xs|] == xs;
  }

  lemma CollectAppend<T, U>(xs: seq<T>, x: T, f: T -> Option<U>)
    ensures Collect(xs + [x], f) == if f(x).Some? then Collect(xs, f) + [f(x).value] else Collect(xs, f)
  {
    assert (xs + [x])[..|xs|] == xs;
  }

  lemma FilterAppend<T>(xs: seq<T>, x: T, p: T -> bool)
    ensures Filter(xs + [x], p) == if p(x) then Filter(xs, p) + [x] else Filter(xs, p)
  {
    assert (xs + [x])[..|xs|] == xs;
  }

  lemma FlatMapAppend<T, U>(xs: seq<T>, x: T, f: T -> seq<U>)
    ensures FlatMap(xs + [x], f) == FlatMap(xs, f) + f(x)
  {
    assert (xs + [x])[..|xs|] == xs;
  }

  lemma MapAppend<T, U>(xs: seq<T>, x: T, f: T -> U)
    ensures MapSeq(xs + [x], f) == MapSeq(xs, f) + [f(x)]
  {
    assert (xs + [x])[..|xs|] == xs;
  }

  lemma {:induction false} SumByConcat<T>(xs: seq<T>, ys: seq<T>, f: T -> int)
    ensures SumBy(xs + ys, f) == SumBy(xs, f) + SumBy(ys, f)
    decreases |ys|
  {
    if |ys| == 0 {
      assert xs + ys == xs;
    } else {
      var last := |ys| - 1;
      assert xs + ys == (xs + ys[..last]) + [ys[last]];
      SumByConcat(xs, ys[..last], f);
      SumByAppend(xs + ys[..last], ys[last], f);
    }
  }

  lemma {:induction false} SumRealConcat<T>(xs: seq<T>, ys: seq<T>, f: T -> real)
    ensures SumReal(xs + ys, f) == SumReal(xs, f) + SumReal(ys, f)
    decreases |ys|
  {
    if |ys| == 0 {
      assert xs + ys == xs;
    } else {
      var last := |ys| - 1;
      assert xs + ys == (xs + ys[..last]) + [ys[last]];
      SumRealConcat(xs, ys[..last], f);
      SumRealAppend(xs + ys[..last], ys[last], f);
    }
  }

  // ---------------------------------------------------------------- updating one row

  lemma {:induction false} SumByUpdate<T>(xs: seq<T>, i: nat, x: T, f: T -> int)
    requires i < |xs|
    ensures SumBy(xs[i := x], f) == SumBy(xs, f) - f(xs[i]) + f(x)
    decreases |xs|
  {
    var last := |xs| - 1;
    if i == last {
      assert xs[i := x][..last] == xs[..last];
    } else {
      assert xs[i := x][..last] == xs[..last][i := x];
      SumByUpdate(xs[..last], i, x, f);
    }
  }

  lemma {:induction false} SumByNonNegative<T>(xs: seq<T>, f: T -> int)
    requires forall k :: 0 <= k < |xs| ==> f(xs[k]) >= 0
    ensures SumBy(xs, f) >= 0
    decreases |xs|
  {
    if |xs| == 0 {
    } else {
      SumByNonNegative(xs[..|xs| - 1], f);
    }
  }

  lemma {:induction false} SumByZero<T>(xs: seq<T>, f: T -> int)
    requires forall k :: 0 <= k < |xs| ==> f(xs[k]) == 0
    ensures SumBy(xs, f) == 0
    decreases |xs|
  {
    if |xs| == 0 {
    } else {
      SumByZero(xs[..|xs| - 1], f);
    }
  }

  // ---------------------------------------------------------------- row order does not matter

  lemma RemoveAt<T>(xs: seq<T>, k: nat)
    requires k < |xs|
    ensures multiset(xs[..k] + xs[k + 1..]) == multiset(xs) - multiset{xs[k]}
  {
    var rest := xs[..k] + xs[k + 1..];
    assert xs == (xs[..k] + [xs[k]]) + xs[k + 1..];
    assert multiset(xs) == multiset(rest) + multiset{xs[k]};
  }

  /** Some row of `ys` is the last row of `xs`; removing both leaves equal bags. */
  lemma RemoveLast<T>(xs: seq<T>, ys: seq<T>) returns (k: nat)
    requires |xs| > 0 && multiset(xs) == multiset(ys)
    ensures k < |ys| && ys[k] == xs[|xs| - 1]
    ensures multiset(xs[..|xs| - 1]) == multiset(ys[..k] + ys[k + 1..])
  {
    var last := |xs| - 1;
    assert xs[last] in multiset(ys);
    k :| 0 <= k < |ys| && ys[k] == xs[last];
    RemoveAt(ys, k);
    RemoveAt(xs, last);
    assert xs[..last] + xs[last + 1..] == xs[..last];
  }

  lemma {:induction false} SumByPermutation<T>(xs: seq<T>, ys: seq<T>, f: T -> int)
    requires multiset(xs) == multiset(ys)
    ensures SumBy(xs, f) == SumBy(ys, f)
    decreases |xs|
  {
    if |xs| == 0 {
      assert |multiset(ys)| == 0;
      assert |ys| == 0;
    } else {
      var k := RemoveLast(xs, ys);
      SumByPermutation(xs[..|xs| - 1], ys[..k] + ys[k + 1..], f);
      assert ys == ys[..k] + [ys[k]] + ys[k + 1..];
      SumByConcat(ys[..k] + [ys[k]], ys[k + 1..], f);
      SumByConcat(ys[..k], ys[k + 1..], f);
      SumByAppend(ys[..k], ys[k], f);
    }
  }

  lemma {:induction false} SumRealPermutation<T>(xs: seq<T>, ys: seq<T>, f: T -> real)
    requires multiset(xs) == multiset(ys)
    ensures SumReal(xs, f) == SumReal(ys, f)
    decreases |xs|
  {
    if |xs| == 0 {
      assert |multiset(ys)| == 0;
      assert |ys| == 0;
    } else {
      var k := RemoveLast(xs, ys);
      SumRealPermutation(xs[..|xs| - 1], ys[..k] + ys[k + 1..], f);
      assert ys == ys[..k] + [ys[k]] + ys[k + 1..];
      SumRealConcat(ys[..k] + [ys[k]], ys[k + 1..], f);
      SumRealConcat(ys[..k], ys[k + 1..], f);
      SumRealAppend(ys[..k], ys[k], f);
    }
  }

  lemma {:induction false} FilterConcat<T>(xs: seq<T>, ys: seq<T>, p: T -> bool)
    ensures Filter(xs + ys, p) == Filter(xs, p) + Filter(ys, p)
    decreases |ys|
  {
    if |ys| == 0 {
      assert xs + ys == xs;
    } else {
      var last := |ys| - 1;
      assert xs + ys == (xs + ys[..last]) + [ys[last]];
      FilterConcat(xs, ys[..last], p);
      FilterAppend(xs + ys[..last], ys[last], p);
    }
  }

  lemma {:induction false} FilterPermutation<T>(xs: seq<T>, ys: seq<T>, p: T -> bool)
    requires multiset(xs) == multiset(ys)
    ensures multiset(Filter(xs, p)) == multiset(Filter(ys, p))
    decreases |xs|
  {
    if |xs| == 0 {
      assert |multiset(ys)| == 0;
      assert |ys| == 0;
    } else {
      var k := RemoveLast(xs, ys);
      FilterPermutation(xs[..|xs| - 1], ys[..k] + ys[k + 1..], p);
      assert ys == ys[..k] + [ys[k]] + ys[k + 1..];
      FilterConcat(ys[..k] + [ys[k]], ys[k + 1..], p);
      FilterConcat(ys[..k], ys[k + 1..], p);
      FilterAppend(ys[..k], ys[k], p);
    }
  }

  /** Filtering by `q` first does not matter to a filter that implies it. */
  lemma {:induction false} FilterWithin<T>(xs: seq<T>, p: T -> bool, q: T -> bool)
    requires forall i :: 0 <= i < |xs| ==> p(xs[i]) ==> q(xs[i])
    ensures Filter(Filter(xs, q), p) == Filter(xs, p)
    decreases |xs|
  {
    if |xs| == 0 {
    } else {
      var front, last := xs[..|xs| - 1], xs[|xs| - 1];
      FilterWithin(front, p, q);
      if q(last) { FilterAppend(Filter(front, q), last, p); }
    }
  }

  lemma {:induction false} FilterMember<T>(xs: seq<T>, p: T -> bool, x: T)
    ensures x in Filter(xs, p) <==> x in xs && p(x)
    decreases |xs|
  {
    if |xs| == 0 {
    } else {
      FilterMember(xs[..|xs| - 1], p, x);
      assert xs == xs[..|xs| - 1] + [xs[|xs| - 1]];
    }
  }

  lemma FilterOfOne<T>(x: T, p: T -> bool)
    ensures Filter([x], p) == if p(x) then [x] else []
  {
    assert [x][..0] == [];
  }

  lemma FilterOfTwo<T>(x: T, y: T, p: T -> bool)
    ensures Filter([x, y], p) == (if p(x) then [x] else []) + (if p(y) then [y] else [])
  {
    assert [x, y][..1] == [x];
    FilterOfOne(x, p);
  }

  lemma SumOfOne<T>(x: T, f: T -> real)
    ensures SumReal([x], f) == f(x)
  {
    assert [x][..0] == [];
  }

  lemma SumOfTwo<T>(x: T, y: T, f: T -> real)
    ensures SumReal([x, y], f) == f(x) + f(y)
  {
    assert [x, y][..1] == [x];
    SumOfOne(x, f);
  }

  lemma CollectOne<T, U>(x: T, f: T -> Option<U>)
    ensures Collect([x], f) == if f(x).Some? then [f(x).value] else []
  {
    assert [x][..0] == [];
  }

  lemma {:induction false} CollectMember<T, U>(xs: seq<T>, f: T -> Option<U>, y: U)
    requires y in Collect(xs, f)
    ensures exists x :: x in xs && f(x) == Some(y)
    decreases |xs|
  {
    var front, last := xs[..|xs| - 1], xs[|xs| - 1];
    if f(last) == Some(y) {
      assert last in xs;
    } else {
      CollectMember(front, f, y);
      var x :| x in front && f(x) == Some(y);
      assert x in xs;
    }
  }

  lemma {:induction false} CollectConcat<T, U>(xs: seq<T>, ys: seq<T>, f: T -> Option<U>)
    ensures Collect(xs + ys, f) == Collect(xs, f) + Collect(ys, f)
    decreases |ys|
  {
    if |ys| == 0 {
      assert xs + ys == xs;
    } else {
      var last := |ys| - 1;
      assert xs + ys == (xs + ys[..last]) + [ys[last]];
      CollectConcat(xs, ys[..last], f);
      CollectAppend(xs + ys[..last], ys[last], f);
    }
  }

  lemma {:induction false} CollectSame<T, U>(xs: seq<T>, f: T -> Option<U>, g: T -> Option<U>)
    requires forall x :: x in xs ==> f(x) == g(x)
    ensures Collect(xs, f) == Collect(xs, g)
    decreases |xs|
  {
    if |xs| == 0 {
    } else {
      CollectSame(xs[..|xs| - 1], f, g);
    }
  }

  /** One partial function after another. */
  function Then<T, U, V>(f: T -> Option<U>, g: U -> Option<V>): T -> Option<V> {
    x => if f(x).None? then None else g(f(x).value)
  }

  lemma {:induction false} CollectTwice<T, U, V>(xs: seq<T>, f: T -> Option<U>, g: U -> Option<V>)
    ensures Collect(Collect(xs, f), g) == Collect(xs, Then(f, g))
    decreases |xs|
  {
    if |xs| == 0 {
    } else {
      var front, last := xs[..|xs| - 1], xs[|xs| - 1];
      CollectTwice(front, f, g);
      if f(last).Some? { CollectAppend(Collect(front, f), f(last).value, g); }
    }
  }

  lemma {:induction false} CollectHolds<T, U>(xs: seq<T>, f: T -> Option<U>, x: T)
    requires x in xs && f(x).Some?
    ensures f(x).value in Collect(xs, f)
    decreases |xs|
  {
    var front, last := xs[..|xs| - 1], xs[|xs| - 1];
    assert xs == front + [last];
    if x != last { CollectHolds(front, f, x); }
  }

  lemma {:induction false} FilterSame<T>(xs: seq<T>, p: T -> bool, q: T -> bool)
    requires forall x :: x in xs ==> p(x) == q(x)
    ensures Filter(xs, p) == Filter(xs, q)
    decreases |xs|
  {
    if |xs| == 0 {
    } else {
      assert xs[|xs| - 1] in xs;
      FilterSame(xs[..|xs| - 1], p, q);
    }
  }

  lemma {:induction false} SumBySame<T>(xs: seq<T>, f: T -> int, g: T -> int)
    requires forall x :: x in xs ==> f(x) == g(x)
    ensures SumBy(xs, f) == SumBy(xs, g)
    decreases |xs|
  {
    if |xs| == 0 {
    } else {
      assert xs[|xs| - 1] in xs;
      SumBySame(xs[..|xs| - 1], f, g);
    }
  }

  // ---------------------------------------------------------------- rows without duplicates

  lemma {:induction false} FilterDistinct<T>(xs: seq<T>, p: T -> bool)
    requires Distinct(xs)
    ensures Distinct(Filter(xs, p))
    decreases |xs|
  {
    if |xs| == 0 {
    } else {
      var front, last := xs[..|xs| - 1], xs[|xs| - 1];
      FilterDistinct(front, p);
      assert last !in front;
      FilterMember(front, p, last);
    }
  }

  lemma {:induction false} DistinctCount<T>(xs: seq<T>, x: T)
    requires Distinct(xs)
    ensures multiset(xs)[x] == if x in xs then 1 else 0
    decreases |xs|
  {
    if |xs| == 0 {
    } else {
      DistinctCount(xs[..|xs| - 1], x);
      assert xs == xs[..|xs| - 1] + [xs[|xs| - 1]];
    }
  }

  /** Two duplicate-free lists of the same members are permutations of each other. */
  lemma SameMembersSameBag<T>(xs: seq<T>, ys: seq<T>)
    requires Distinct(xs) && Distinct(ys) && forall x :: x in xs <==> x in ys
    ensures multiset(xs) == multiset(ys)
  {
    forall x: T ensures multiset(xs)[x] == multiset(ys)[x] {
      DistinctCount(xs, x);
      DistinctCount(ys, x);
    }
  }
}
