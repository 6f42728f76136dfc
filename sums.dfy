/** Totals over sequences: the declarative counterparts of the engine's
    `+=` loops. Both fold from the left, so that a loop over a prefix
    `xs[..i]` extends the total by exactly the element `xs[i]`. */
module Sums {

  import opened JsValues

  /** The sum of `f(x)` over the elements `x` of `xs`. */
  function SumBy<T>(xs: seq<T>, f: T -> real): real
  {
    if |xs| == 0 then 0.0 else SumBy(xs[..|xs| - 1], f) + f(xs[|xs| - 1])
  }

  /** The sum of `amount(x)` over the elements `x` of `xs` that fall on a day
      in `[lo, hi]`; elements without a day add nothing. */
  function SumOnDays<T>(xs: seq<T>, day: T -> Option<int>, amount: T -> real, lo: int, hi: int): real
  {
    if |xs| == 0 then 0.0
    else SumOnDays(xs[..|xs| - 1], day, amount, lo, hi) + OnDays(xs[|xs| - 1], day, amount, lo, hi)
  }

  /** What one element adds to `SumOnDays`. */
  function OnDays<T>(x: T, day: T -> Option<int>, amount: T -> real, lo: int, hi: int): real
  {
    if day(x).Some? && lo <= day(x).value <= hi then amount(x) else 0.0
  }

  /** Extending a prefix by one element adds that element's value. */
  lemma SumByStep<T>(xs: seq<T>, f: T -> real, n: nat)
    requires n < |xs|
    ensures SumBy(xs[..n + 1], f) == SumBy(xs[..n], f) + f(xs[n])
  {
    assert xs[..n + 1][..n] == xs[..n];
  }

  /** A single event adds its amount when its day is in range. */
  lemma SumOnDaysSingle<T>(x: T, day: T -> Option<int>, amount: T -> real, lo: int, hi: int)
    ensures SumOnDays([x], day, amount, lo, hi) == OnDays(x, day, amount, lo, hi)
  {
    assert [x][..0] == [];
  }

  /** A total over `[lo, hi]` is the total over `[lo, hi - 1]` plus the
      total of the single day `hi`. */
  lemma {:induction false} SumOnDaysSplit<T>(xs: seq<T>, day: T -> Option<int>, amount: T -> real, lo: int, hi: int)
    requires lo <= hi
    ensures SumOnDays(xs, day, amount, lo, hi)
         == SumOnDays(xs, day, amount, lo, hi - 1) + SumOnDays(xs, day, amount, hi, hi)
  {
    if |xs| > 0 {
      SumOnDaysSplit(xs[..|xs| - 1], day, amount, lo, hi);
    }
  }

  /** Events delivered in two batches (the fetch pages through its source)
      add up to the same totals as one combined list. */
  lemma {:induction false} SumOnDaysConcat<T>(xs: seq<T>, ys: seq<T>, day: T -> Option<int>, amount: T -> real, lo: int, hi: int)
    ensures SumOnDays(xs + ys, day, amount, lo, hi)
         == SumOnDays(xs, day, amount, lo, hi) + SumOnDays(ys, day, amount, lo, hi)
  {
    if |ys| == 0 {
      assert xs + ys == xs;
    } else {
      var ys' := ys[..|ys| - 1];
      assert (xs + ys)[..|xs + ys| - 1] == xs + ys';
      SumOnDaysConcat(xs, ys', day, amount, lo, hi);
    }
  }

  /** Non-negative amounts have a non-negative total. */
  lemma {:induction false} SumOnDaysNonNegative<T>(xs: seq<T>, day: T -> Option<int>, amount: T -> real, lo: int, hi: int)
    requires forall k :: 0 <= k < |xs| ==> amount(xs[k]) >= 0.0
    ensures SumOnDays(xs, day, amount, lo, hi) >= 0.0
  {
    if |xs| > 0 {
      SumOnDaysNonNegative(xs[..|xs| - 1], day, amount, lo, hi);
    }
  }
}
