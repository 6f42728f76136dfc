/** `calculateDailyPnL`: the daily profit-and-loss ledger of a wallet over
    an inclusive range of UTC days, with reconstructed end-of-day equity
    and a range summary. */
module PnlCalculator {

  import opened JsValues
  import opened Sums
  import opened Events
  import opened Ledger
  import opened Equity
  import opened Totals

  datatype Report = Report(daily: seq<Bucket>, summary: Summary)

  /** The bucket of day `d` as the fill, funding, unrealized and net passes
      leave it, stated directly in terms of the events. */
  function DayBucket(w: WalletData, d: int, today: int): (b: Bucket)
    ensures b.date == d
    ensures b.net == b.realized + b.unrealized - b.fees + b.funding
    ensures b.fees >= 0.0
    ensures d != today || PositionsOf(w).None? ==> b.unrealized == 0.0
    ensures b.equity == 0.0
  {
    FeesNonNegative(TradesOf(w), d, d);
    var b := Bucket(
      d,
      SumOnDays(TradesOf(w), FillDay, ClosedPnl, d, d),
      if d == today && PositionsOf(w).Some? then SumBy(PositionsOf(w).value, UnrealizedOf) else 0.0,
      SumOnDays(TradesOf(w), FillDay, FeeAmount, d, d),
      SumOnDays(FundingOf(w), FundingDay, FundingValue, d, d),
      0.0,
      0.0);
    b.(net := NetOf(b))
  }

  /** The ledger before equity: one `DayBucket` per day of `[start, end]`. */
  function DayBuckets(w: WalletData, start: int, end: int, today: int): (s: seq<Bucket>)
    ensures |s| == DayCount(start, end)
    ensures forall k :: 0 <= k < |s| ==> s[k] == DayBucket(w, start + k, today)
  {
    seq(DayCount(start, end), k => DayBucket(w, start + k, today))
  }

  /** The engine. `today` is the current UTC day, which the engine reads from
      the clock. Missing wallet data raises; an event time that a Date cannot
      hold raises; everything else missing or malformed counts as 0. */
  method CalculateDailyPnL(walletData: Option<WalletData>, startDay: int, endDay: int, today: int)
    returns (r: Result<Report>)
    ensures walletData.None? ==> r == Failure(MissingWalletData)
    ensures walletData.Some? ==>
      (r.Failure? <==> AnyBadStamp(TradesOf(walletData.value), FillStamp)
                       || AnyBadStamp(FundingOf(walletData.value), FundingStamp))
    ensures walletData.Some? && r.Failure? ==> r.error == InvalidTimeValue
    // one bucket per day, ascending and contiguous
    ensures r.Success? ==> |r.value.daily| == DayCount(startDay, endDay)
    ensures r.Success? ==> forall k :: 0 <= k < |r.value.daily| ==> r.value.daily[k].date == startDay + k
    // each bucket's contents, with equity from the reconstruction
    ensures r.Success? ==>
      var L := DayBuckets(walletData.value, startDay, endDay, today);
      forall k :: 0 <= k < |r.value.daily| ==>
        r.value.daily[k] == L[k].(equity := EquityAt(L, AccountValue(walletData.value), today, k))
    // the summary, in terms of the events
    ensures r.Success? ==> SummaryOfEvents(r.value.summary, r.value.daily, walletData.value, startDay, endDay, today)
  {
    if walletData.None? {
      return Failure(MissingWalletData);
    }
    var w := walletData.value;
    var built := BuildLedger(w, startDay, endDay, today);
    if built.Failure? {
      return Failure(built.error);
    }
    var dailyArray := built.value;
    var daily, summary := Finish(dailyArray, AccountValue(w), today);
    SummaryMatchesEvents(summary, daily, w, startDay, endDay, today);
    return Success(Report(daily, summary));
  }

  /** The passes over `dailyArray`: the sort by date, the equity walk when
      there is at least one day, and the summary. */
  method Finish(dailyArray: array<Bucket>, currentAccountValue: Option<real>, today: int)
    returns (daily: seq<Bucket>, summary: Summary)
    requires StrictlyAscending(dailyArray[..])
    modifies dailyArray
    ensures daily == dailyArray[..]
    ensures |daily| == dailyArray.Length
    ensures forall k :: 0 <= k < |daily| ==>
      daily[k] == old(dailyArray[k]).(equity := EquityAt(old(dailyArray[..]), currentAccountValue, today, k))
    ensures summary.totalRealized == SumBy(daily, RealizedField)
    ensures summary.totalUnrealized == SumBy(daily, UnrealizedField)
    ensures summary.totalFees == SumBy(daily, FeesField)
    ensures summary.totalFunding == SumBy(daily, FundingField)
    ensures summary.net == if |daily| > 0 then daily[|daily| - 1].net else 0.0
  {
    ghost var L := dailyArray[..];
    SortByDate(dailyArray);
    assert dailyArray[..] == L;
    if dailyArray.Length > 0 {
      ReconstructEquity(dailyArray, currentAccountValue, today);
    }
    daily := dailyArray[..];
    summary := Summarize(dailyArray);
  }

  /** The summary's totals are the totals of the events dated in the range,
      the unrealized total counts only when today is in the range, and the
      net PnL is the last day's. */
  ghost predicate SummaryOfEvents(s: Summary, daily: seq<Bucket>, w: WalletData, start: int, end: int, today: int)
  {
    && s.totalRealized == SumOnDays(TradesOf(w), FillDay, ClosedPnl, start, end)
    && s.totalFees == SumOnDays(TradesOf(w), FillDay, FeeAmount, start, end)
    && s.totalFunding == SumOnDays(FundingOf(w), FundingDay, FundingValue, start, end)
    && s.totalUnrealized == (if start <= today <= end && PositionsOf(w).Some?
                             then SumBy(PositionsOf(w).value, UnrealizedOf) else 0.0)
    && s.net == (if start <= end && end - start < |daily| then daily[end - start].net else 0.0)
  }

  /** From the per-day contents of the ledger to the summary's totals. */
  lemma SummaryMatchesEvents(s: Summary, daily: seq<Bucket>, w: WalletData, start: int, end: int, today: int)
    requires |daily| == DayCount(start, end)
    requires forall k :: 0 <= k < |daily| ==>
      var b := DayBucket(w, start + k, today);
      && daily[k].realized == b.realized && daily[k].unrealized == b.unrealized
      && daily[k].fees == b.fees && daily[k].funding == b.funding
    requires s.totalRealized == SumBy(daily, RealizedField)
    requires s.totalUnrealized == SumBy(daily, UnrealizedField)
    requires s.totalFees == SumBy(daily, FeesField)
    requires s.totalFunding == SumBy(daily, FundingField)
    requires s.net == if |daily| > 0 then daily[|daily| - 1].net else 0.0
    ensures SummaryOfEvents(s, daily, w, start, end, today)
  {
    LedgerTotal(daily, RealizedField, TradesOf(w), FillDay, ClosedPnl, start);
    LedgerTotal(daily, FeesField, TradesOf(w), FillDay, FeeAmount, start);
    LedgerTotal(daily, FundingField, FundingOf(w), FundingDay, FundingValue, start);
    OneDayTotal(daily, UnrealizedField, start, today,
                if PositionsOf(w).Some? then SumBy(PositionsOf(w).value, UnrealizedOf) else 0.0);
    if end < start {
      SumOnDaysEmptyRange(TradesOf(w), FillDay, ClosedPnl, start, end);
      SumOnDaysEmptyRange(TradesOf(w), FillDay, FeeAmount, start, end);
      SumOnDaysEmptyRange(FundingOf(w), FundingDay, FundingValue, start, end);
    }
  }

  /** The net pass and the copy into `dailyArray`, on a table that holds
      every day's bucket but its net PnL. */
  method NetAndOrder(table: map<int, Bucket>, order: seq<int>, w: WalletData, startDay: int, endDay: int, today: int)
    returns (dailyArray: array<Bucket>)
    requires |order| == DayCount(startDay, endDay)
    requires forall k :: 0 <= k < |order| ==> order[k] == startDay + k
    requires forall d :: d in table <==> startDay <= d <= endDay
    requires forall d :: d in table ==> table[d] == DayBucket(w, d, today).(net := 0.0)
    ensures fresh(dailyArray) && dailyArray[..] == DayBuckets(w, startDay, endDay, today)
  {
    OrderCoversRange(order, startDay, endDay);
    var netted := ComputeNet(table, order);
    NettedAreDayBuckets(table, netted, w, today);
    dailyArray := ToArray(netted, order);
    InDayOrder(dailyArray[..], netted, order, w, startDay, endDay, today);
  }

  lemma OrderCoversRange(order: seq<int>, startDay: int, endDay: int)
    requires |order| == DayCount(startDay, endDay)
    requires forall k :: 0 <= k < |order| ==> order[k] == startDay + k
    ensures forall d :: startDay <= d <= endDay ==> d in order
  {
    forall d | startDay <= d <= endDay
      ensures d in order
    {
      assert order[d - startDay] == d;
    }
  }

  lemma NettedAreDayBuckets(table: map<int, Bucket>, netted: map<int, Bucket>, w: WalletData, today: int)
    requires forall d :: d in table ==> table[d] == DayBucket(w, d, today).(net := 0.0)
    requires netted.Keys == table.Keys
    requires forall d :: d in table ==> netted[d] == table[d].(net := NetOf(table[d]))
    ensures forall d :: d in netted ==> netted[d] == DayBucket(w, d, today)
  {
  }

  lemma InDayOrder(s: seq<Bucket>, netted: map<int, Bucket>, order: seq<int>, w: WalletData, startDay: int, endDay: int, today: int)
    requires |s| == |order| == DayCount(startDay, endDay)
    requires forall k :: 0 <= k < |order| ==> order[k] == startDay + k && order[k] in netted
    requires forall k :: 0 <= k < |order| ==> s[k] == netted[order[k]]
    requires forall d :: d in netted ==> netted[d] == DayBucket(w, d, today)
    ensures s == DayBuckets(w, startDay, endDay, today)
  {
    ghost var L := DayBuckets(w, startDay, endDay, today);
    forall k | 0 <= k < |s|
      ensures s[k] == L[k]
    {
      assert order[k] == startDay + k;
    }
  }

  /** The table passes: blank buckets for the range, the fill and funding
      passes, today's unrealized PnL and the net pass, then `dailyArray` in
      the table's insertion order. */
  method BuildLedger(w: WalletData, startDay: int, endDay: int, today: int) returns (r: Result<array<Bucket>>)
    ensures r.Failure? <==> AnyBadStamp(TradesOf(w), FillStamp) || AnyBadStamp(FundingOf(w), FundingStamp)
    ensures r.Failure? ==> r.error == InvalidTimeValue
    ensures r.Success? ==> fresh(r.value) && r.value[..] == DayBuckets(w, startDay, endDay, today)
  {
    var rows, order := BuildBuckets(startDay, endDay);
    var filled := AddFills(rows, TradesOf(w));
    if filled.Failure? {
      return Failure(filled.error);
    }
    var funded := AddFunding(filled.value, FundingOf(w));
    if funded.Failure? {
      return Failure(funded.error);
    }
    var injected := InjectUnrealized(funded.value, today, PositionsOf(w));
    forall d | d in injected
      ensures injected[d] == DayBucket(w, d, today).(net := 0.0)
    {
    }
    var dailyArray := NetAndOrder(injected, order, w, startDay, endDay, today);
    return Success(dailyArray);
  }
}
