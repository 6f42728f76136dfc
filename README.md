# Daily PnL engine of the HyperLiquid wallet dashboard, in Dafny

`calculateDailyPnL` (utils/pnlCalculator.js) turns one wallet's data — an
account snapshot, its trade fills and its funding events — into a daily
profit-and-loss ledger over an inclusive range of UTC days, with an
end-of-day equity for every day and a summary of the range. This project
models that engine pass by pass and proves what each pass computes and
what the ledger and summary then mean in terms of the events.

Each pass is modelled in the form the engine uses:

- The `dailyPnL` table is keyed by date and updated in place. It becomes a
  `map<int, Bucket>` from day number to bucket, plus the sequence of keys
  in insertion order, which is the order `for ... in` visits them. The
  range loop, the fill loop, the funding loop, the unrealized-PnL step and
  the net loop are methods with loops that take the table and return the
  updated one.
- `dailyArray` is an `array<Bucket>`. The nested exchange sort and the
  equity walks work on it in place.
- The specification is written as functions on values:
  - `SumOnDays` is the total of an amount over the events dated in a day
    range.
  - `DayBucket` is the bucket each day should end up with.
  - `EquityAt` is the reconstructed equity of a day in each of the three
    cases.

  The table passes, the equity walks and the engine state their results
  through these functions. The sort is specified by order and
  permutation, and its steps by the exchange each one makes.

Loose JavaScript values are modelled in the `JsValues` module:

- `Value` covers undefined, null, booleans, numbers with NaN, and strings.
- JavaScript truthiness and `||` are modelled as they are.
- `parseFloat` is a decimal parser. Its `None` result stands for NaN.
  `Mantissa(digits, j)` is the integer the digits spell, scaled down by
  `j` decimal places.

Days are whole numbers of days since 1970-01-01 (day 19723 is
2024-01-01), so an event's `toISOString().split('T')[0]` is the floor of
its millisecond time divided by 86 400 000. Money is `real`.

`today` is a parameter, because the engine reads it from the clock
(utils/pnlCalculator.js:75).

The engine throws in two cases. Both are modelled as `Failure`:

- missing wallet data;
- an event time outside ±8.64e15 ms, where `toISOString` throws a
  RangeError.

Modules:

- `JsValues`: truthiness, `||`, `parseFloat`.
- `Sums`: left-folded totals.
- `Events`: the input shapes and how each event's day and amounts are read.
- `Ledger`: the table passes.
- `Equity`: the sort and the equity reconstruction.
- `Totals`: the summary.
- `PnlCalculator`: the engine itself.
- `Scenarios`: small concrete wallets, each checked against the engine's
  contract.

Two details of the code shape the model:

- A funding event's amount (utils/pnlCalculator.js:59-66): `usdc`, then
  `delta.usdc`, then `delta.funding` is taken as soon as it is not
  `undefined`. It is taken even when it parses to NaN, and then the event
  adds nothing. Only when none of the three is set are `funding`,
  `fundingPayment`, `amount`, `fundingAmount` and `fundingFee` chained
  with `||`, so the first truthy one is parsed.
- Event times (utils/pnlCalculator.js:31, 55): `toISOString` throws a
  RangeError for a time outside ±8.64e15 ms. The engine does not catch
  it, so the whole call fails.

## Model

| member | source | states |
|---|---|---|
| JsValues.Addend | utils/pnlCalculator.js:34-37 | parseFloat of the value (of 0 when it is falsy) with NaN skipped: a falsy value or NaN adds 0; otherwise the parsed number is added |
| JsValues.Abs | utils/pnlCalculator.js:41 | `Math.abs`: non-negative, and equal to the input or its negation |
| JsValues.DigitsParse | utils/pnlCalculator.js:100 | a string made only of decimal digits parses as the integer it spells |
| JsValues.DecimalMantissa | utils/pnlCalculator.js:34 | a decimal string `ds.fs` parses as the digits of `ds` and `fs` together, scaled down by the number of fraction digits |
| JsValues.DecimalParse | utils/pnlCalculator.js:34 | a decimal string `ds.fs` parses as the integer its digits spell divided by ten to the number of fraction digits |
| JsValues.NegativeParse | utils/pnlCalculator.js:34 | a minus sign before a number negates what `parseFloat` reads, and NaN stays NaN |
| JsValues.ScaledDown | utils/pnlCalculator.js:34 | scaling down by `j` places divides by ten to the power `j` |
| Sums.SumOnDaysConcat | utils/pnlCalculator.js:27-49 | events delivered in two batches give the same day totals as the combined list |
| Events.AccountValue | utils/pnlCalculator.js:99-100 | a missing snapshot or margin summary reads as an account value of 0 |
| Events.DayOf | utils/pnlCalculator.js:31 | the day of a time is the UTC day that contains it: `d*86400000 <= t < (d+1)*86400000` |
| Events.FeeAmount | utils/pnlCalculator.js:39-47 | what a fill adds to fees (absolute fee plus absolute builder fee) is never negative |
| Events.FirstTruthy | utils/pnlCalculator.js:66 | the value an or-chain ending in 0 selects is the first truthy element; when no element is truthy it is 0 |
| Events.FundingFallback | utils/pnlCalculator.js:65-67 | with neither `usdc` nor a `delta` amount present, the funding amount is `parseFloat` of the first truthy fallback field, or of 0 |
| Events.FeesNonNegative | utils/pnlCalculator.js:39-47 | the fee total of any fills over any day range is non-negative |
| Ledger.BuildBuckets | utils/pnlCalculator.js:14-25 | exactly one blank bucket per day of `[start, end]`, inserted in ascending order; none when start > end |
| Ledger.AddFills | utils/pnlCalculator.js:27-49 | fails exactly when some present fill has a time a Date cannot hold; otherwise each day's realized PnL and fees grow by the total over the fills dated that day, and no day is added or removed |
| Ledger.AddFill | utils/pnlCalculator.js:33-48 | one fill adds its closed PnL to its day's realized PnL and its absolute fees to that day's fees; nothing else changes |
| Ledger.AddFunding | utils/pnlCalculator.js:51-73 | fails exactly when some present funding event has a time a Date cannot hold; otherwise each day's funding grows by the total over the events dated that day |
| Ledger.AddFundingEvent | utils/pnlCalculator.js:57-72 | one event adds its funding amount (by field priority; NaN adds nothing) to its day; nothing else changes |
| Ledger.SumUnrealized | utils/pnlCalculator.js:78-87 | the loop total is the sum over the positions, skipping missing entries and NaN amounts |
| Ledger.InjectUnrealized | utils/pnlCalculator.js:77-89 | only today's bucket changes, and only when positions are listed: its unrealized PnL becomes their total |
| Ledger.ComputeNet | utils/pnlCalculator.js:91-97 | every bucket's net becomes realized + unrealized − fees + funding; its other fields are unchanged |
| Ledger.ToArray | utils/pnlCalculator.js:102-105 | the array holds the buckets in the table's insertion order |
| Equity.SortByDate | utils/pnlCalculator.js:107-115 | the result is sorted by date and is a permutation of the input; an input already strictly ascending is left unchanged |
| Equity.ExchangePass | utils/pnlCalculator.js:108-114 | one pass of the inner loop puts the earliest remaining date at position `i`, leaves positions before `i` untouched, keeps the array a permutation, and changes nothing in a strictly ascending input |
| Equity.ExchangeStep | utils/pnlCalculator.js:109-113 | an out-of-order pair `i`, `j` is exchanged and nothing else changes; an in-order pair leaves the array as it is; the sorted prefix is kept |
| Equity.Swap | utils/pnlCalculator.js:110-112 | exchanges two buckets and nothing else |
| Equity.TodayIndex | utils/pnlCalculator.js:119-125 | the index found is dated today and no earlier bucket is; no index means no bucket is dated today |
| Equity.FindToday | utils/pnlCalculator.js:119-125 | the scan with `break` returns exactly `TodayIndex` |
| Equity.EquityContinuity | utils/pnlCalculator.js:127-158 | in all three cases, each day's equity is the previous day's equity plus that day's net PnL |
| Equity.AnchoredOnToday | utils/pnlCalculator.js:127-128 | with a positive account value and a bucket for today, today's equity is the account value |
| Equity.BackSolvedFromAccount | utils/pnlCalculator.js:137-152 | without a bucket for today: if account − total net is positive, the last day's equity is the account value; otherwise the first day's equity is the account value plus its net |
| Equity.CumulativeFromZero | utils/pnlCalculator.js:153-158 | without a positive account value, equity is the running total of net PnL from 0 |
| Equity.ReconstructEquity | utils/pnlCalculator.js:117-164 | every bucket gets `EquityAt` for its position and keeps all its other fields |
| Equity.TotalNet | utils/pnlCalculator.js:138-141 | the total net PnL of the range |
| Equity.WalkFromAnchor | utils/pnlCalculator.js:127-136 | the anchored case: day k gets account − net through today + net through day k |
| Equity.WalkBackward | utils/pnlCalculator.js:130-132 | the days before today are walked back by subtracting the following day's net; later days are untouched |
| Equity.WalkForward | utils/pnlCalculator.js:134-136 | the days after today are walked forward by adding their own net; earlier days are untouched |
| Equity.AccumulateFrom | utils/pnlCalculator.js:148-158 | each day's equity is the start value plus the net through that day; the other fields are unchanged |
| Totals.Summarize | utils/pnlCalculator.js:168-186 | the four totals are sums over the ledger; net PnL is the last day's net, not a sum; an empty ledger gives all zeros |
| Totals.LedgerTotal | utils/pnlCalculator.js:176-181 | when each bucket holds its own day's events, the ledger total is the total of every event dated in the range, each counted once |
| Totals.OneDayTotal | utils/pnlCalculator.js:178 | when only today's bucket may carry unrealized PnL, the total is that value if today is in the range, and 0 otherwise |
| Totals.SumOnDaysEmptyRange | utils/pnlCalculator.js:14 | an empty day range holds no events |
| PnlCalculator.DayBucket | utils/pnlCalculator.js:14-97 | each day's bucket satisfies the net identity, has non-negative fees and zero equity, and has non-zero unrealized PnL only on today |
| PnlCalculator.DayBuckets | utils/pnlCalculator.js:14-25 | one bucket per day of the range, in day order |
| PnlCalculator.BuildLedger | utils/pnlCalculator.js:10-105 | fails exactly on a bad event time; otherwise `dailyArray` is a fresh array holding `DayBuckets` |
| PnlCalculator.NetAndOrder | utils/pnlCalculator.js:91-105 | after the net pass and the copy in insertion order, `dailyArray` holds exactly `DayBuckets` |
| PnlCalculator.Finish | utils/pnlCalculator.js:107-186 | sorting leaves the ledger as built; each day gets its reconstructed equity; the returned ledger is the array's final contents; the summary sums the finished ledger |
| PnlCalculator.SummaryMatchesEvents | utils/pnlCalculator.js:168-186 | the summary totals are the totals of the events dated in the range; unrealized counts only when today is in the range |
| PnlCalculator.CalculateDailyPnL | utils/pnlCalculator.js:1-195 | missing wallet data raises; a bad event time raises (exactly then); otherwise one bucket per day in ascending order, each holding its day's events with reconstructed equity, plus a summary of the range's events |
| Scenarios.EmptyLedger | utils/pnlCalculator.js:14-25 | an empty wallet over three days gives three blank days, each with zero equity |
| Scenarios.Reads150Point5 | utils/pnlCalculator.js:34 | the string "150.5" parses as 150.5 |
| Scenarios.Reads2Point25 | utils/pnlCalculator.js:39 | the string "2.25" parses as 2.25 |
| Scenarios.OneFillBuckets | utils/pnlCalculator.js:27-49 | a fill with closed PnL "150.5" and fee "2.25" adds 150.5 to its day's realized PnL and 2.25 to its fees; the days before and after get 0 of each |
| Scenarios.SingleFillNets | utils/pnlCalculator.js:91-97 | a single fill's net PnL appears on its day and not on the neighbouring days |
| Scenarios.BackSolvedWalk | utils/pnlCalculator.js:137-152 | an account of 500 and a total net of 200 give a start of 300 and equity of 500 on both days |

## Left out

- Rounding to cents is not modelled. The engine rounds equity during the
  walk and again at the end, and rounds the summary totals
  (`toFixed(2)`, utils/pnlCalculator.js:150, 157, 162, 188-192). The model
  keeps exact reals, so every equity and total it states is the unrounded
  value.
- Floating-point arithmetic is not modelled: sums are exact, so the
  order of additions does not matter in the model.
- JsValues.ParseFloat: does not read `"Infinity"` or `"-Infinity"`.
  Those parse to NaN in the model (no amount).
- Dates are modelled as day numbers, not "YYYY-MM-DD" strings:
  - ISO keys with years outside 0000-9999 are not modelled.
  - The sort compares day numbers rather than date strings; the two agree
    for 4-digit years.
  - An invalid start or end date is not modelled. The route validates
    both before the call.
- Event times are integers of milliseconds. String or fractional `time`
  values are not modelled.
- Amount fields holding objects or arrays are not modelled: `Value` has
  no such variant. JavaScript would convert them with `toString` before
  parsing.
- The wall clock is a parameter (`today`). The model does not read the
  clock.
- Aliasing is modelled by copying. In the engine, `dailyPnL` and
  `dailyArray` share the same bucket objects; the model copies buckets
  from the table into the array, which is safe because the table is not
  used after that point.
- The HTTP route (routes/api/hyperliquid.js), the exchange fetch layer
  (utils/hyperliquid.js), the AI summary, the token routes and the React
  UI are not part of this model. This includes the route's 365-day range
  check.
