/** The engine's inputs: the wallet data the fetch layer assembles from the
    exchange (account snapshot, trade fills, funding events), and how the
    engine reads each event's day and amounts. */
module Events {

  import opened JsValues
  import opened Sums

  /** Milliseconds in a UTC calendar day. */
  const MsPerDay: int := 86_400_000

  /** The largest distance from the epoch, in milliseconds, that a JavaScript
      `Date` can hold; `toISOString` throws a RangeError beyond it. */
  const MaxTimeMs: int := 8_640_000_000_000_000

  /** A trade fill. `time` is epoch milliseconds (`None` when absent or null). */
  datatype Fill = Fill(time: Option<int>, closedPnl: Value, fee: Value, builderFee: Value)

  /** The nested `delta` object of a funding event. */
  datatype Delta = Delta(usdc: Value, funding: Value)

  /** A funding event, with every field name the engine looks at. */
  datatype FundingEvent = FundingEvent(
    time: Option<int>,
    usdc: Value,
    delta: Option<Delta>,
    funding: Value,
    fundingPayment: Value,
    amount: Value,
    fundingAmount: Value,
    fundingFee: Value)

  datatype Position = Position(unrealizedPnl: Value)

  /** An entry of `assetPositions`; `position` is `None` when absent or null. */
  datatype AssetPosition = AssetPosition(position: Option<Position>)

  datatype MarginSummary = MarginSummary(accountValue: Value)

  /** The account snapshot. */
  datatype UserState = UserState(
    assetPositions: Option<seq<Option<AssetPosition>>>,
    marginSummary: Option<MarginSummary>)

  /** What the fetch layer hands the engine. A `None` entry in a list is a
      null or undefined element. */
  datatype WalletData = WalletData(
    userState: Option<UserState>,
    trades: Option<seq<Option<Fill>>>,
    funding: Option<seq<Option<FundingEvent>>>)

  // ---------------------------------------------------------------------
  // Defaults for missing sections: `x || []`, `x || {}`.

  function TradesOf(w: WalletData): seq<Option<Fill>>
  {
    if w.trades.Some? then w.trades.value else []
  }

  function FundingOf(w: WalletData): seq<Option<FundingEvent>>
  {
    if w.funding.Some? then w.funding.value else []
  }

  function PositionsOf(w: WalletData): Option<seq<Option<AssetPosition>>>
  {
    if w.userState.Some? then w.userState.value.assetPositions else None
  }

  /** `parseFloat(marginSummary.accountValue || 0)`, with a missing snapshot
      or margin summary reading as an empty object. */
  function AccountValue(w: WalletData): (r: Option<real>)
    ensures w.userState.None? ==> r == Some(0.0)
    ensures w.userState.Some? && w.userState.value.marginSummary.None? ==> r == Some(0.0)
  {
    var accountValue :=
      if w.userState.Some? && w.userState.value.marginSummary.Some?
      then w.userState.value.marginSummary.value.accountValue
      else Undefined;
    ParseFloat(Or(accountValue, Zero))
  }

  // ---------------------------------------------------------------------
  // Time stamps and days.

  /** An event's time when the engine uses it: the event is present and its
      time is truthy (neither missing nor 0). */
  function Stamp(present: bool, time: Option<int>): Option<int>
  {
    if present && time.Some? && time.value != 0 then time else None
  }

  function FillStamp(f: Option<Fill>): Option<int>
  {
    Stamp(f.Some?, if f.Some? then f.value.time else None)
  }

  function FundingStamp(e: Option<FundingEvent>): Option<int>
  {
    Stamp(e.Some?, if e.Some? then e.value.time else None)
  }

  /** The UTC calendar day (days since the epoch) of a time in milliseconds;
      Dafny's division by a positive divisor rounds down, as the calendar does
      for times before the epoch. */
  function DayOf(ms: int): (d: int)
    ensures d * MsPerDay <= ms < (d + 1) * MsPerDay
  {
    ms / MsPerDay
  }

  /** A stamp that a JavaScript `Date` cannot hold. */
  predicate BadStamp(stamp: Option<int>)
  {
    stamp.Some? && !(-MaxTimeMs <= stamp.value <= MaxTimeMs)
  }

  function StampDay(stamp: Option<int>): Option<int>
  {
    if stamp.Some? then Some(DayOf(stamp.value)) else None
  }

  function FillDay(f: Option<Fill>): Option<int>
  {
    StampDay(FillStamp(f))
  }

  function FundingDay(e: Option<FundingEvent>): Option<int>
  {
    StampDay(FundingStamp(e))
  }

  // ---------------------------------------------------------------------
  // Amounts.

  /** What a fill adds to its day's realized PnL. */
  function ClosedPnl(f: Option<Fill>): real
  {
    if f.Some? then Addend(f.value.closedPnl) else 0.0
  }

  /** What a fill adds to its day's fees: the absolute trading fee plus the
      absolute builder fee. */
  function FeeAmount(f: Option<Fill>): (r: real)
    ensures r >= 0.0
  {
    if f.Some? then Abs(Addend(f.value.fee)) + Abs(Addend(f.value.builderFee)) else 0.0
  }

  /** The signed funding amount of an event, by field priority: `usdc`, then
      `delta.usdc`, then `delta.funding` (each used as soon as it is present,
      even when it then parses to NaN), then the first truthy one of
      `funding`, `fundingPayment`, `amount`, `fundingAmount`, `fundingFee`. */
  function FundingAmount(e: FundingEvent): Option<real>
  {
    if e.usdc != Undefined then ParseFloat(e.usdc)
    else if e.delta.Some? && e.delta.value.usdc != Undefined then ParseFloat(e.delta.value.usdc)
    else if e.delta.Some? && e.delta.value.funding != Undefined then ParseFloat(e.delta.value.funding)
    else ParseFloat(Or(e.funding, Or(e.fundingPayment, Or(e.amount, Or(e.fundingAmount, Or(e.fundingFee, Zero))))))
  }

  /** What a funding event adds to its day's funding: NaN adds nothing. */
  function FundingValue(e: Option<FundingEvent>): real
  {
    if e.Some? && FundingAmount(e.value).Some? then FundingAmount(e.value).value else 0.0
  }

  /** What one entry of `assetPositions` adds to the unrealized total. */
  function UnrealizedOf(p: Option<AssetPosition>): real
  {
    if p.Some? && p.value.position.Some? then Addend(p.value.position.value.unrealizedPnl) else 0.0
  }

  // ---------------------------------------------------------------------
  // Properties of the readings.

  /** The first truthy value of a list, or 0 when none is: the reference
      reading of a chain `a || b || ... || 0`. */
  function FirstTruthy(vs: seq<Value>): (r: Value)
    ensures Truthy(r) || r == Zero
    ensures (exists k :: 0 <= k < |vs| && Truthy(vs[k])) ==> r in vs && Truthy(r)
    ensures (forall k :: 0 <= k < |vs| ==> !Truthy(vs[k])) ==> r == Zero
    ensures forall k :: 0 <= k < |vs| && Truthy(vs[k]) && (forall j :: 0 <= j < k ==> !Truthy(vs[j])) ==> r == vs[k]
  {
    if |vs| == 0 then Zero
    else if Truthy(vs[0]) then vs[0]
    else FirstTruthy(vs[1..])
  }

  /** When neither `usdc` nor a `delta` amount is present, the amount is the
      first truthy field of the fallback list, and 0 when there is none. */
  lemma {:induction false} FundingFallback(e: FundingEvent)
    requires e.usdc == Undefined
    requires e.delta.None? || (e.delta.value.usdc == Undefined && e.delta.value.funding == Undefined)
    ensures FundingAmount(e)
         == ParseFloat(FirstTruthy([e.funding, e.fundingPayment, e.amount, e.fundingAmount, e.fundingFee]))
  {
    var vs := [e.funding, e.fundingPayment, e.amount, e.fundingAmount, e.fundingFee];
    assert FirstTruthy(vs[4..]) == Or(e.fundingFee, Zero) by {
      assert vs[4..][1..] == [];
    }
    assert FirstTruthy(vs[3..]) == Or(e.fundingAmount, FirstTruthy(vs[4..])) by {
      assert vs[3..][1..] == vs[4..];
    }
    assert FirstTruthy(vs[2..]) == Or(e.amount, FirstTruthy(vs[3..])) by {
      assert vs[2..][1..] == vs[3..];
    }
    assert FirstTruthy(vs[1..]) == Or(e.fundingPayment, FirstTruthy(vs[2..])) by {
      assert vs[1..][1..] == vs[2..];
    }
    assert FirstTruthy(vs) == Or(e.funding, FirstTruthy(vs[1..]));
  }

  /** The fees of any list of fills, on any days, are never negative. */
  lemma FeesNonNegative(fills: seq<Option<Fill>>, lo: int, hi: int)
    ensures SumOnDays(fills, FillDay, FeeAmount, lo, hi) >= 0.0
  {
    SumOnDaysNonNegative(fills, FillDay, FeeAmount, lo, hi);
  }
}
