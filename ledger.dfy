/** The `dailyPnL` table: one bucket per UTC day of the requested range,
    keyed by day, filled in by successive passes over the events. The table
    is a map from day to bucket together with the order in which its keys
    were inserted (the order `for ... in` visits them). */
module Ledger {

  import opened JsValues
  import opened Sums
  import opened Events

  /** One day of the ledger; amounts in USD. `net` is derived from the four
      components, `equity` is the reconstructed end-of-day account value. */
  datatype Bucket = Bucket(
    date: int,
    realized: real,
    unrealized: real,
    fees: real,
    funding: real,
    net: real,
    equity: real)

  /** A bucket as the range loop creates it: every amount 0. */
  function Blank(d: int): Bucket
  {
    Bucket(d, 0.0, 0.0, 0.0, 0.0, 0.0, 0.0)
  }

  /** `realized + unrealized - fees + funding`. */
  function NetOf(b: Bucket): real
  {
    b.realized + b.unrealized - b.fees + b.funding
  }

  // Bucket fields as function values, for `SumBy`.
  function RealizedField(b: Bucket): real { b.realized }
  function UnrealizedField(b: Bucket): real { b.unrealized }
  function FeesField(b: Bucket): real { b.fees }
  function FundingField(b: Bucket): real { b.funding }
  function NetField(b: Bucket): real { b.net }

  /** The number of days in the inclusive range `[start, end]`. */
  function DayCount(start: int, end: int): nat
  {
    if start <= end then end - start + 1 else 0
  }

  /** The errors the engine raises. */
  datatype Error =
    | MissingWalletData   // "Wallet data is required"
    | InvalidTimeValue    // the RangeError of `toISOString` on a time a Date cannot hold

  datatype Result<+T> = Success(value: T) | Failure(error: Error)

  /** Some event in `xs` carries a time that a JavaScript `Date` cannot hold. */
  predicate AnyBadStamp<T>(xs: seq<T>, stamp: T -> Option<int>)
  {
    exists k :: 0 <= k < |xs| && BadStamp(stamp(xs[k]))
  }

  /** The range loop: one blank bucket per day from `start` through `end`,
      inserted in ascending order; none when `start > end`. */
  method BuildBuckets(start: int, end: int) returns (rows: map<int, Bucket>, order: seq<int>)
    ensures |order| == DayCount(start, end)
    ensures forall k :: 0 <= k < |order| ==> order[k] == start + k
    ensures forall d :: d in rows <==> start <= d <= end
    ensures forall d :: d in rows ==> rows[d] == Blank(d)
  {
    rows, order := map[], [];
    var dt := start;
    while dt <= end
      invariant start <= dt && (dt <= end + 1 || dt == start)
      invariant |order| == dt - start
      invariant forall k :: 0 <= k < |order| ==> order[k] == start + k
      invariant forall d :: d in rows <==> start <= d < dt
      invariant forall d :: d in rows ==> rows[d] == Blank(d)
      decreases end - dt
    {
      rows := rows[dt := Blank(dt)];
      order := order + [dt];
      dt := dt + 1;
    }
  }

  /** The fill pass. Every fill with a truthy time lands on its UTC day; when
      that day has a bucket, its closed PnL goes to `realized` and its
      absolute fee and builder fee go to `fees`. A time a Date cannot hold
      raises. */
  method AddFills(rows: map<int, Bucket>, fills: seq<Option<Fill>>) returns (r: Result<map<int, Bucket>>)
    ensures r.Failure? <==> AnyBadStamp(fills, FillStamp)
    ensures r.Failure? ==> r.error == InvalidTimeValue
    ensures r.Success? ==> r.value.Keys == rows.Keys
    ensures r.Success? ==> forall d :: d in rows ==>
      r.value[d] == rows[d].(realized := rows[d].realized + SumOnDays(fills, FillDay, ClosedPnl, d, d),
                             fees := rows[d].fees + SumOnDays(fills, FillDay, FeeAmount, d, d))
  {
    var acc := rows;
    var i := 0;
    while i < |fills|
      invariant 0 <= i <= |fills|
      invariant !AnyBadStamp(fills[..i], FillStamp)
      invariant acc.Keys == rows.Keys
      invariant forall d :: d in rows ==>
        acc[d] == rows[d].(realized := rows[d].realized + SumOnDays(fills[..i], FillDay, ClosedPnl, d, d),
                           fees := rows[d].fees + SumOnDays(fills[..i], FillDay, FeeAmount, d, d))
    {
      var trade := fills[i];
      if trade.Some? && trade.value.time.Some? && trade.value.time.value != 0 {
        var time := trade.value.time.value;
        if !(-MaxTimeMs <= time <= MaxTimeMs) {
          assert BadStamp(FillStamp(fills[i]));
          return Failure(InvalidTimeValue);
        }
        var tradeDate := time / MsPerDay;
        if tradeDate in acc {
          acc := AddFill(acc, trade.value, tradeDate);
        }
      }
      assert fills[..i + 1][..i] == fills[..i];
      i := i + 1;
    }
    assert fills[..i] == fills;
    return Success(acc);
  }

  /** The funding pass. Every funding event with a truthy time lands on its
      UTC day; when that day has a bucket and the event's amount (see
      `FundingAmount`) is a number, it is added to `funding`. A time a Date
      cannot hold raises. */
  method AddFunding(rows: map<int, Bucket>, events: seq<Option<FundingEvent>>) returns (r: Result<map<int, Bucket>>)
    ensures r.Failure? <==> AnyBadStamp(events, FundingStamp)
    ensures r.Failure? ==> r.error == InvalidTimeValue
    ensures r.Success? ==> r.value.Keys == rows.Keys
    ensures r.Success? ==> forall d :: d in rows ==>
      r.value[d] == rows[d].(funding := rows[d].funding + SumOnDays(events, FundingDay, FundingValue, d, d))
  {
    var acc := rows;
    var i := 0;
    while i < |events|
      invariant 0 <= i <= |events|
      invariant !AnyBadStamp(events[..i], FundingStamp)
      invariant acc.Keys == rows.Keys
      invariant forall d :: d in rows ==>
        acc[d] == rows[d].(funding := rows[d].funding + SumOnDays(events[..i], FundingDay, FundingValue, d, d))
    {
      var fund := events[i];
      if fund.Some? && fund.value.time.Some? && fund.value.time.value != 0 {
        var time := fund.value.time.value;
        if !(-MaxTimeMs <= time <= MaxTimeMs) {
          assert BadStamp(FundingStamp(events[i]));
          return Failure(InvalidTimeValue);
        }
        var fundDate := time / MsPerDay;
        if fundDate in acc {
          acc := AddFundingEvent(acc, fund.value, fundDate);
        }
      }
      assert events[..i + 1][..i] == events[..i];
      i := i + 1;
    }
    assert events[..i] == events;
    return Success(acc);
  }

  /** One fill's additions to the bucket of its day: the closed PnL (unless
      NaN) to `realized`, the absolute fee (unless NaN) and the absolute
      builder fee (unless NaN or 0) to `fees`. */
  method AddFill(acc: map<int, Bucket>, trade: Fill, tradeDate: int) returns (next: map<int, Bucket>)
    requires tradeDate in acc
    ensures next == acc[tradeDate := acc[tradeDate].(
      realized := acc[tradeDate].realized + ClosedPnl(Some(trade)),
      fees := acc[tradeDate].fees + FeeAmount(Some(trade)))]
  {
    var bucket := acc[tradeDate];
    var closedPnl := ParseFloat(Or(trade.closedPnl, Zero));
    if closedPnl.Some? {
      bucket := bucket.(realized := bucket.realized + closedPnl.value);
    }
    var fee := ParseFloat(Or(trade.fee, Zero));
    if fee.Some? {
      bucket := bucket.(fees := bucket.fees + Abs(fee.value));
    }
    var builderFee := ParseFloat(Or(trade.builderFee, Zero));
    if builderFee.Some? && builderFee.value != 0.0 {
      bucket := bucket.(fees := bucket.fees + Abs(builderFee.value));
    }
    next := acc[tradeDate := bucket];
  }

  /** One funding event's addition to the bucket of its day: the first
      present amount field, when it is a number. */
  method AddFundingEvent(acc: map<int, Bucket>, e: FundingEvent, fundDate: int) returns (next: map<int, Bucket>)
    requires fundDate in acc
    ensures next == acc[fundDate := acc[fundDate].(funding := acc[fundDate].funding + FundingValue(Some(e)))]
  {
    var fundingAmount;
    if e.usdc != Undefined {
      fundingAmount := ParseFloat(e.usdc);
    } else if e.delta.Some? && e.delta.value.usdc != Undefined {
      fundingAmount := ParseFloat(e.delta.value.usdc);
    } else if e.delta.Some? && e.delta.value.funding != Undefined {
      fundingAmount := ParseFloat(e.delta.value.funding);
    } else {
      fundingAmount := ParseFloat(Or(e.funding, Or(e.fundingPayment, Or(e.amount, Or(e.fundingAmount, Or(e.fundingFee, Zero))))));
    }
    next := acc;
    if fundingAmount.Some? {
      next := next[fundDate := next[fundDate].(funding := next[fundDate].funding + fundingAmount.value)];
    }
  }

  /** The position loop: the total unrealized PnL of the open positions,
      skipping missing entries and NaN amounts. */
  method SumUnrealized(positions: seq<Option<AssetPosition>>) returns (total: real)
    ensures total == SumBy(positions, UnrealizedOf)
  {
    total := 0.0;
    for i := 0 to |positions|
      invariant total == SumBy(positions[..i], UnrealizedOf)
    {
      SumByStep(positions, UnrealizedOf, i);
      var assetPosition := positions[i];
      if assetPosition.Some? && assetPosition.value.position.Some? {
        var unrealizedPnl := ParseFloat(Or(assetPosition.value.position.value.unrealizedPnl, Zero));
        if unrealizedPnl.Some? {
          total := total + unrealizedPnl.value;
        }
      }
    }
    assert positions[..|positions|] == positions;
  }

  /** Unrealized PnL is known only now: when today has a bucket and the
      snapshot lists positions, today's `unrealized` is set to their total;
      every other bucket is left as it was. */
  method InjectUnrealized(rows: map<int, Bucket>, today: int, positions: Option<seq<Option<AssetPosition>>>)
    returns (out: map<int, Bucket>)
    ensures out.Keys == rows.Keys
    ensures forall d :: d in rows ==>
      out[d] == if d == today && positions.Some?
                then rows[d].(unrealized := SumBy(positions.value, UnrealizedOf))
                else rows[d]
  {
    out := rows;
    if today in rows && positions.Some? {
      var totalUnrealized := SumUnrealized(positions.value);
      out := out[today := out[today].(unrealized := totalUnrealized)];
    }
  }

  /** The net pass over every key of the table, in insertion order. */
  method ComputeNet(rows: map<int, Bucket>, order: seq<int>) returns (out: map<int, Bucket>)
    requires forall d :: d in rows <==> d in order
    ensures out.Keys == rows.Keys
    ensures forall d :: d in rows ==> out[d] == rows[d].(net := NetOf(rows[d]))
    ensures forall d :: d in out ==> out[d].net == out[d].realized + out[d].unrealized - out[d].fees + out[d].funding
  {
    out := rows;
    for i := 0 to |order|
      invariant out.Keys == rows.Keys
      invariant forall d :: d in rows ==>
        out[d] == if d in order[..i] then rows[d].(net := NetOf(rows[d])) else rows[d]
    {
      var date := order[i];
      assert order[..i + 1] == order[..i] + [date];
      out := out[date := out[date].(net := NetOf(out[date]))];
    }
    assert order[..|order|] == order;
  }

  /** `dailyArray`: the buckets in the table's insertion order. */
  method ToArray(rows: map<int, Bucket>, order: seq<int>) returns (a: array<Bucket>)
    requires forall k :: 0 <= k < |order| ==> order[k] in rows
    ensures fresh(a)
    ensures a.Length == |order|
    ensures forall k :: 0 <= k < |order| ==> a[k] == rows[order[k]]
  {
    a := new Bucket[|order|];
    for i := 0 to |order|
      invariant forall k :: 0 <= k < i ==> a[k] == rows[order[k]]
    {
      a[i] := rows[order[i]];
    }
  }
}
