/** Callers of the engine on small concrete wallets: what its contract lets
    a caller conclude, day by day. Day 19723 is 2024-01-01. */
module Scenarios {

  import opened JsValues
  import opened Sums
  import opened Events
  import opened Ledger
  import opened Equity
  import opened Totals
  import opened PnlCalculator

  const Jan1: int := 19723

  /** Midday of a day, in epoch milliseconds. */
  function Noon(day: int): int
  {
    day * MsPerDay + MsPerDay / 2
  }

  lemma NoonIsOnItsDay(day: int)
    ensures DayOf(Noon(day)) == day
  {
  }

  function NoFields(time: int): FundingEvent
  {
    FundingEvent(Some(time), Undefined, None, Undefined, Undefined, Undefined, Undefined, Undefined)
  }

  /** "150.5" reads as 150.5: the digits 1505 scaled down by one place. */
  lemma Reads150Point5()
    ensures ParseFloat(Text("150.5")) == Some(150.5)
  {
    assert ParseFloat(Text("150.5")) == Some(Mantissa("1505", 1)) by {
      assert "150" + "." + "5" == "150.5" && "150" + "5" == "1505";
      assert AllDigits("150") && AllDigits("5");
      DecimalMantissa("150", "5");
    }
    Spells1505();
  }

  lemma Spells1505()
    ensures DigitsValue("1505") == 1505
  {
    assert "1505"[..3] == "150";
    assert "150"[..2] == "15";
    assert "15"[..1] == "1";
    assert "1"[..0] == "";
  }

  /** "2.25" reads as 2.25: the digits 225 scaled down by two places. */
  lemma Reads2Point25()
    ensures ParseFloat(Text("2.25")) == Some(2.25)
  {
    assert ParseFloat(Text("2.25")) == Some(Mantissa("225", 2)) by {
      assert "2" + "." + "25" == "2.25" && "2" + "25" == "225";
      assert AllDigits("2") && AllDigits("25");
      DecimalMantissa("2", "25");
    }
    Spells225();
  }

  lemma Spells225()
    ensures DigitsValue("225") == 225
  {
    assert "225"[..2] == "22";
    assert "22"[..1] == "2";
    assert "2"[..0] == "";
  }

  lemma Spells500()
    ensures DigitsValue("500") == 500
  {
    assert "500"[..2] == "50";
    assert "50"[..1] == "5";
    assert "5"[..0] == "";
  }

  /** Every day of an empty wallet is a blank bucket, and with no account
      value its equity stays 0. */
  lemma EmptyLedger(w: WalletData, today: int)
    requires w == WalletData(Some(UserState(None, None)), Some([]), Some([]))
    ensures var L := DayBuckets(w, Jan1, Jan1 + 2, today);
      forall k :: 0 <= k < 3 ==> L[k].(equity := EquityAt(L, AccountValue(w), today, k)) == Blank(Jan1 + k)
  {
    var L := DayBuckets(w, Jan1, Jan1 + 2, today);
    assert L[0] == Blank(Jan1) && L[1] == Blank(Jan1 + 1) && L[2] == Blank(Jan1 + 2);
    NetPrefixStep(L, 0);
    NetPrefixStep(L, 1);
    NetPrefixStep(L, 2);
    CumulativeFromZero(L, AccountValue(w), today, 0);
    CumulativeFromZero(L, AccountValue(w), today, 1);
    CumulativeFromZero(L, AccountValue(w), today, 2);
  }

  /** An empty wallet over three days gives three blank buckets
      (no account value, so equity stays 0) and an all-zero summary. */
  method EmptyWallet()
  {
    var w := WalletData(Some(UserState(None, None)), Some([]), Some([]));
    var today := Jan1 + 100;
    var r := CalculateDailyPnL(Some(w), Jan1, Jan1 + 2, today);
    assert r.Success?;
    EmptyLedger(w, today);
    var daily := r.value.daily;
    assert |daily| == 3;
    assert daily[0] == Blank(Jan1) && daily[1] == Blank(Jan1 + 1) && daily[2] == Blank(Jan1 + 2);
    var summary := r.value.summary;
    assert summary.totalRealized == 0.0 && summary.totalUnrealized == 0.0;
    assert summary.totalFees == 0.0 && summary.totalFunding == 0.0;
    assert summary.net == 0.0;
  }

  /** The buckets of the one-fill wallet. */
  lemma OneFillBuckets(fill: Fill, w: WalletData, today: int)
    requires fill == Fill(Some(Noon(Jan1 + 1)), Text("150.5"), Text("2.25"), Undefined)
    requires w == WalletData(None, Some([Some(fill)]), None)
    ensures DayBucket(w, Jan1 + 1, today).realized == 150.5
    ensures DayBucket(w, Jan1 + 1, today).fees == 2.25
    ensures DayBucket(w, Jan1, today).realized == 0.0 && DayBucket(w, Jan1 + 2, today).realized == 0.0
    ensures DayBucket(w, Jan1, today).fees == 0.0 && DayBucket(w, Jan1 + 2, today).fees == 0.0
  {
    NoonIsOnItsDay(Jan1 + 1);
    Reads150Point5();
    Reads2Point25();
    SumOnDaysSingle(Some(fill), FillDay, ClosedPnl, Jan1 + 1, Jan1 + 1);
    SumOnDaysSingle(Some(fill), FillDay, FeeAmount, Jan1 + 1, Jan1 + 1);
    SumOnDaysSingle(Some(fill), FillDay, ClosedPnl, Jan1, Jan1);
    SumOnDaysSingle(Some(fill), FillDay, FeeAmount, Jan1, Jan1);
    SumOnDaysSingle(Some(fill), FillDay, ClosedPnl, Jan1 + 2, Jan1 + 2);
    SumOnDaysSingle(Some(fill), FillDay, FeeAmount, Jan1 + 2, Jan1 + 2);
  }

  /** One fill on the second day with closed PnL "150.5" and
      fee "2.25" lands on that day only. */
  method OneFill()
  {
    var fill := Fill(Some(Noon(Jan1 + 1)), Text("150.5"), Text("2.25"), Undefined);
    var w := WalletData(None, Some([Some(fill)]), None);
    var today := Jan1 + 100;
    var r := CalculateDailyPnL(Some(w), Jan1, Jan1 + 2, today);
    assert !BadStamp(FillStamp(TradesOf(w)[0]));
    assert r.Success?;
    OneFillBuckets(fill, w, today);
    var daily := r.value.daily;
    assert daily[1].realized == 150.5 && daily[1].fees == 2.25;
    assert daily[0].realized == 0.0 && daily[2].realized == 0.0;
    assert daily[0].fees == 0.0 && daily[2].fees == 0.0;
  }

  /** The buckets of a wallet whose only event is a fill with closed PnL
      `pnl` on day `d`; the anchored and back-solved wallets below use it. */
  lemma SingleFillNets(fill: Fill, w: WalletData, d: int, pnl: real, today: int)
    requires fill == Fill(Some(Noon(d)), Number(Some(pnl)), Undefined, Undefined)
    requires w.trades == Some([Some(fill)]) && w.funding.None?
    requires w.userState.Some? && w.userState.value.assetPositions.None?
    ensures DayBucket(w, d, today).net == pnl
    ensures DayBucket(w, d - 1, today).net == 0.0 && DayBucket(w, d + 1, today).net == 0.0
  {
    NoonIsOnItsDay(d);
    SumOnDaysSingle(Some(fill), FillDay, ClosedPnl, d, d);
    SumOnDaysSingle(Some(fill), FillDay, FeeAmount, d, d);
    SumOnDaysSingle(Some(fill), FillDay, ClosedPnl, d - 1, d - 1);
    SumOnDaysSingle(Some(fill), FillDay, FeeAmount, d - 1, d - 1);
    SumOnDaysSingle(Some(fill), FillDay, ClosedPnl, d + 1, d + 1);
    SumOnDaysSingle(Some(fill), FillDay, FeeAmount, d + 1, d + 1);
  }

  /** Anchored on today: a positive account value of 1000 and a range ending today,
      where today's net PnL is 50: today's equity is 1000 and the day
      before's is 950. */
  method AnchoredToday()
  {
    var today := Jan1 + 1;
    var fill := Fill(Some(Noon(today)), Number(Some(50.0)), Undefined, Undefined);
    var account := Some(MarginSummary(Number(Some(1000.0))));
    var w := WalletData(Some(UserState(None, account)), Some([Some(fill)]), None);
    var r := CalculateDailyPnL(Some(w), Jan1, today, today);
    assert !BadStamp(FillStamp(TradesOf(w)[0]));
    assert r.Success?;
    SingleFillNets(fill, w, today, 50.0, today);
    var L := DayBuckets(w, Jan1, today, today);
    assert L[1].net == 50.0 && L[1].date == today;
    assert TodayIndex(L, today) == Some(1);
    AnchoredOnToday(L, AccountValue(w), today);
    EquityContinuity(L, AccountValue(w), today, 0);
    var daily := r.value.daily;
    assert daily[1].equity == 1000.0;
    assert daily[0].equity == 950.0;
  }

  /** The equity walk of the back-solved wallet, on any two-day ledger with those nets. */
  lemma BackSolvedWalk(L: seq<Bucket>, today: int)
    requires |L| == 2 && L[0].net == 200.0 && L[1].net == 0.0
    requires TodayIndex(L, today).None?
    ensures EquityAt(L, Some(500.0), today, 0) == 500.0
    ensures EquityAt(L, Some(500.0), today, 1) == 500.0
  {
    NetPrefixStep(L, 0);
    NetPrefixStep(L, 1);
    assert EquityBase(L, Some(500.0), today) == 300.0;
  }

  lemma AccountOf500(w: WalletData)
    requires w.userState == Some(UserState(None, Some(MarginSummary(Text("500")))))
    ensures AccountValue(w) == Some(500.0)
  {
    DigitsParse("500");
    Spells500();
  }

  /** The ledger of the back-solved wallet and its equity walk. */
  lemma BackSolvedLedger(fill: Fill, w: WalletData, today: int)
    requires fill == Fill(Some(Noon(Jan1)), Number(Some(200.0)), Undefined, Undefined)
    requires w == WalletData(Some(UserState(None, Some(MarginSummary(Text("500"))))), Some([Some(fill)]), None)
    requires today > Jan1 + 1
    ensures var L := DayBuckets(w, Jan1, Jan1 + 1, today);
      EquityAt(L, AccountValue(w), today, 0) == 500.0 && EquityAt(L, AccountValue(w), today, 1) == 500.0
  {
    SingleFillNets(fill, w, Jan1, 200.0, today);
    AccountOf500(w);
    var L := DayBuckets(w, Jan1, Jan1 + 1, today);
    assert TodayIndex(L, today) == None;
    BackSolvedWalk(L, today);
  }

  /** Back-solved: a range wholly in the past, an account value of "500" and a
      total net PnL of 200 on the first day: the walk starts from 300, and
      both days end at 500. */
  method BackSolved()
  {
    var fill := Fill(Some(Noon(Jan1)), Number(Some(200.0)), Undefined, Undefined);
    var account := Some(MarginSummary(Text("500")));
    var w := WalletData(Some(UserState(None, account)), Some([Some(fill)]), None);
    var today := Jan1 + 100;
    var r := CalculateDailyPnL(Some(w), Jan1, Jan1 + 1, today);
    assert !BadStamp(FillStamp(TradesOf(w)[0]));
    assert r.Success?;
    BackSolvedLedger(fill, w, today);
    assert r.value.daily[0].equity == 500.0;
    assert r.value.daily[1].equity == 500.0;
  }

  /** Only `fundingFee`: a funding event whose only amount field is `fundingFee`
      is still counted. */
  method FundingFeeOnly()
  {
    var e := NoFields(Noon(Jan1)).(fundingFee := Number(Some(-1.5)));
    var w := WalletData(None, None, Some([Some(e)]));
    var r := CalculateDailyPnL(Some(w), Jan1, Jan1, Jan1 + 100);
    assert !BadStamp(FundingStamp(FundingOf(w)[0]));
    assert r.Success?;
    NoonIsOnItsDay(Jan1);
    FundingFallback(e);
    assert FundingAmount(e) == Some(-1.5);
    SumOnDaysSingle(Some(e), FundingDay, FundingValue, Jan1, Jan1);
    assert r.value.daily[0].funding == -1.5;
  }

  /** Missing wallet data raises; a fill time a Date cannot hold raises. */
  method Errors()
  {
    var r := CalculateDailyPnL(None, Jan1, Jan1, Jan1);
    assert r == Failure(MissingWalletData);
    var bad := Fill(Some(MaxTimeMs + 1), Undefined, Undefined, Undefined);
    var w := WalletData(None, Some([Some(bad)]), None);
    r := CalculateDailyPnL(Some(w), Jan1, Jan1, Jan1);
    assert BadStamp(FillStamp(TradesOf(w)[0]));
    assert r == Failure(InvalidTimeValue);
  }
}
