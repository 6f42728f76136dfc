/** The summary reduction over the finished ledger, and what its totals come
    to in terms of the events. */
module Totals {

  import opened JsValues
  import opened Sums
  import opened Ledger

  /** Range totals; `net` is the last day's net PnL, not a sum. */
  datatype Summary = Summary(
    totalRealized: real,
    totalUnrealized: real,
    totalFees: real,
    totalFunding: real,
    net: real)

  /** The summary loop: the four component totals, then the net PnL of the
      last bucket (0 for an empty ledger). */
  method Summarize(daily: array<Bucket>) returns (summary: Summary)
    ensures summary.totalRealized == SumBy(daily[..], RealizedField)
    ensures summary.totalUnrealized == SumBy(daily[..], UnrealizedField)
    ensures summary.totalFees == SumBy(daily[..], FeesField)
    ensures summary.totalFunding == SumBy(daily[..], FundingField)
    ensures summary.net == if daily.Length > 0 then daily[daily.Length - 1].net else 0.0
    ensures daily.Length == 0 ==> summary == Summary(0.0, 0.0, 0.0, 0.0, 0.0)
  {
    summary := Summary(0.0, 0.0, 0.0, 0.0, 0.0);
    for i := 0 to daily.Length
      invariant summary.totalRealized == SumBy(daily[..i], RealizedField)
      invariant summary.totalUnrealized == SumBy(daily[..i], UnrealizedField)
      invariant summary.totalFees == SumBy(daily[..i], FeesField)
      invariant summary.totalFunding == SumBy(daily[..i], FundingField)
      invariant summary.net == 0.0
    {
      SumByStep(daily[..], RealizedField, i);
      SumByStep(daily[..], UnrealizedField, i);
      SumByStep(daily[..], FeesField, i);
      SumByStep(daily[..], FundingField, i);
      summary := summary.(
        totalRealized := summary.totalRealized + daily[i].realized,
        totalUnrealized := summary.totalUnrealized + daily[i].unrealized,
        totalFees := summary.totalFees + daily[i].fees,
        totalFunding := summary.totalFunding + daily[i].funding);
    }
    assert daily[..daily.Length] == daily[..];
    if daily.Length > 0 {
      var endDateIndex := daily.Length - 1;
      summary := summary.(net := daily[endDateIndex].net);
    }
  }

  /** An empty day range holds no events. */
  lemma {:induction false} SumOnDaysEmptyRange<T>(xs: seq<T>, day: T -> Option<int>, amount: T -> real, lo: int, hi: int)
    requires hi < lo
    ensures SumOnDays(xs, day, amount, lo, hi) == 0.0
  {
    if |xs| > 0 {
      SumOnDaysEmptyRange(xs[..|xs| - 1], day, amount, lo, hi);
    }
  }

  /** When each bucket `k` holds the events of day `start + k`, the ledger's
      total is the total of the events dated anywhere in the range: every
      in-range event counts exactly once, every other event not at all. */
  lemma {:induction false} LedgerTotal<T>(
    daily: seq<Bucket>, field: Bucket -> real,
    xs: seq<T>, day: T -> Option<int>, amount: T -> real, start: int)
    requires forall k :: 0 <= k < |daily| ==> field(daily[k]) == SumOnDays(xs, day, amount, start + k, start + k)
    ensures SumBy(daily, field) == SumOnDays(xs, day, amount, start, start + |daily| - 1)
  {
    var n := |daily|;
    if n == 0 {
      SumOnDaysEmptyRange(xs, day, amount, start, start - 1);
    } else {
      LedgerTotal(daily[..n - 1], field, xs, day, amount, start);
      SumOnDaysSplit(xs, day, amount, start, start + n - 1);
    }
  }

  /** When only the bucket dated `today` may hold a value `v`, the ledger's
      total is `v` if today lies in the ledger and 0 otherwise. */
  lemma {:induction false} OneDayTotal(daily: seq<Bucket>, field: Bucket -> real, start: int, today: int, v: real)
    requires forall k :: 0 <= k < |daily| ==> field(daily[k]) == if start + k == today then v else 0.0
    ensures SumBy(daily, field) == if start <= today < start + |daily| then v else 0.0
  {
    var n := |daily|;
    if n > 0 {
      OneDayTotal(daily[..n - 1], field, start, today, v);
    }
  }
}
