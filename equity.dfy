/** `dailyArray`: the defensive exchange sort by date and the reconstruction
    of end-of-day equity from the one account value the snapshot knows. */
module Equity {

  import opened JsValues
  import opened Sums
  import opened Ledger

  /** Dates never decrease. */
  predicate Ascending(s: seq<Bucket>)
  {
    forall p, q :: 0 <= p < q < |s| ==> s[p].date <= s[q].date
  }

  /** Dates strictly increase, as the range loop inserts them. */
  predicate StrictlyAscending(s: seq<Bucket>)
  {
    forall p, q :: 0 <= p < q < |s| ==> s[p].date < s[q].date
  }

  /** The nested exchange sort: for each position `i`, every later bucket
      with an earlier date is swapped into `i`. The result is ascending and a
      permutation of the input, and an input that is already strictly
      ascending (the only input the engine builds) is left as it is. */
  method SortByDate(a: array<Bucket>)
    modifies a
    ensures Ascending(a[..])
    ensures multiset(a[..]) == multiset(old(a[..]))
    ensures StrictlyAscending(old(a[..])) ==> a[..] == old(a[..])
  {
    var i := 0;
    while i < a.Length
      invariant 0 <= i <= a.Length
      invariant SortedBelow(a[..], i)
      invariant multiset(a[..]) == multiset(old(a[..]))
      invariant StrictlyAscending(old(a[..])) ==> a[..] == old(a[..])
    {
      ExchangePass(a, i);
      i := i + 1;
    }
  }

  /** The first `i` buckets are in order and none is later than a bucket
      from `i` on. */
  predicate SortedBelow(s: seq<Bucket>, i: nat)
    requires i <= |s|
  {
    && (forall p, q :: 0 <= p < q < i ==> s[p].date <= s[q].date)
    && (forall p, q :: 0 <= p < i <= q < |s| ==> s[p].date <= s[q].date)
  }

  /** One pass of the inner loop: brings the earliest date of `a[i..]` to
      position `i` by swaps. */
  method ExchangePass(a: array<Bucket>, i: nat)
    requires i < a.Length
    requires SortedBelow(a[..], i)
    modifies a
    ensures SortedBelow(a[..], i + 1)
    ensures a[..i] == old(a[..i])
    ensures multiset(a[..]) == multiset(old(a[..]))
    ensures StrictlyAscending(old(a[..])) ==> a[..] == old(a[..])
  {
    var j := i + 1;
    while j < a.Length
      invariant i + 1 <= j <= a.Length
      invariant a[..i] == old(a[..i])
      invariant SortedBelow(a[..], i)
      invariant forall q :: i < q < j ==> a[i].date <= a[q].date
      invariant multiset(a[..]) == multiset(old(a[..]))
      invariant StrictlyAscending(old(a[..])) ==> a[..] == old(a[..])
    {
      if a[i].date > a[j].date {
        OutOfOrderIsNotStrict(old(a[..]), a[..], i, j);
      }
      ExchangeStep(a, i, j);
      j := j + 1;
    }
  }

  /** One step of the inner loop: swaps `a[j]` into position `i` when its
      date is earlier. */
  method ExchangeStep(a: array<Bucket>, i: nat, j: nat)
    requires i < j < a.Length
    requires SortedBelow(a[..], i)
    requires forall q :: i < q < j ==> a[i].date <= a[q].date
    modifies a
    ensures SortedBelow(a[..], i)
    ensures a[..i] == old(a[..i])
    ensures forall q :: i < q <= j ==> a[i].date <= a[q].date
    ensures multiset(a[..]) == multiset(old(a[..]))
    ensures old(a[i].date) > old(a[j].date) ==> a[..] == old(a[..])[i := old(a[j])][j := old(a[i])]
    ensures old(a[i].date) <= old(a[j].date) ==> a[..] == old(a[..])
  {
    if a[i].date > a[j].date {
      SwapKeepsSortedBelow(a[..], i, j);
      Swap(a, i, j);
    }
  }

  lemma SwapKeepsSortedBelow(s: seq<Bucket>, i: nat, j: nat)
    requires i < j < |s|
    requires SortedBelow(s, i)
    ensures SortedBelow(s[i := s[j]][j := s[i]], i)
  {
  }

  /** A pair out of order shows that the ledger it came from was not
      strictly ascending. */
  lemma OutOfOrderIsNotStrict(original: seq<Bucket>, s: seq<Bucket>, i: nat, j: nat)
    requires i < j < |s|
    requires StrictlyAscending(original) ==> s == original
    requires s[i].date > s[j].date
    ensures !StrictlyAscending(original)
  {
  }

  /** Exchanges two buckets of `a`. */
  method Swap(a: array<Bucket>, i: nat, j: nat)
    requires i < j < a.Length
    modifies a
    ensures a[..] == old(a[..])[i := old(a[j])][j := old(a[i])]
    ensures multiset(a[..]) == multiset(old(a[..]))
  {
    a[i], a[j] := a[j], a[i];
  }

  /** The position of the first bucket dated `today`, if there is one. */
  function TodayIndex(s: seq<Bucket>, today: int): (r: Option<nat>)
    ensures r.Some? ==> r.value < |s| && s[r.value].date == today
    ensures r.Some? ==> forall k :: 0 <= k < r.value ==> s[k].date != today
    ensures r.None? ==> forall k :: 0 <= k < |s| ==> s[k].date != today
  {
    if |s| == 0 then None
    else if s[0].date == today then Some(0)
    else match TodayIndex(s[1..], today)
      case None => None
      case Some(k) => Some(k + 1)
  }

  /** The search for today's bucket: a forward scan that stops at the first hit. */
  method FindToday(a: array<Bucket>, today: int) returns (todayIndex: Option<nat>)
    ensures todayIndex == TodayIndex(a[..], today)
  {
    todayIndex := None;
    var i := 0;
    while i < a.Length
      invariant 0 <= i <= a.Length
      invariant forall k :: 0 <= k < i ==> a[k].date != today
    {
      if a[i].date == today {
        todayIndex := Some(i);
        break;
      }
      i := i + 1;
    }
  }

  /** The sum of the first `n` daily net PnLs. */
  function NetPrefix(s: seq<Bucket>, n: nat): real
    requires n <= |s|
  {
    SumBy(s[..n], NetField)
  }

  /** The equity the walk starts from, before the first day's net PnL, by case:
      - a positive account value and a bucket for today: the value that puts
        today's equity at the account value;
      - a positive account value and no bucket for today: the account value
        minus the range's total net PnL, or the account value itself when that
        difference is not positive;
      - otherwise (zero, negative or NaN account value): 0. */
  function EquityBase(s: seq<Bucket>, account: Option<real>, today: int): real
  {
    if account.Some? && account.value > 0.0 then
      match TodayIndex(s, today)
      case Some(t) => account.value - NetPrefix(s, t + 1)
      case None =>
        var backSolved := account.value - NetPrefix(s, |s|);
        if backSolved <= 0.0 then account.value else backSolved
    else 0.0
  }

  /** The reconstructed end-of-day equity of day `k`. */
  function EquityAt(s: seq<Bucket>, account: Option<real>, today: int, k: nat): real
    requires k < |s|
  {
    EquityBase(s, account, today) + NetPrefix(s, k + 1)
  }

  lemma NetPrefixStep(s: seq<Bucket>, n: nat)
    requires n < |s|
    ensures NetPrefix(s, n + 1) == NetPrefix(s, n) + s[n].net
  {
    SumByStep(s, NetField, n);
  }

  /** Every adjacent pair of days differs by the later day's net PnL, in all
      three cases. */
  lemma EquityContinuity(s: seq<Bucket>, account: Option<real>, today: int, k: nat)
    requires k + 1 < |s|
    ensures EquityAt(s, account, today, k + 1) == EquityAt(s, account, today, k) + s[k + 1].net
  {
    NetPrefixStep(s, k + 1);
  }

  /** With a positive account value and a bucket for today, today's equity is
      the account value. */
  lemma AnchoredOnToday(s: seq<Bucket>, account: Option<real>, today: int)
    requires account.Some? && account.value > 0.0
    requires TodayIndex(s, today).Some?
    ensures EquityAt(s, account, today, TodayIndex(s, today).value) == account.value
  {
  }

  /** With a positive account value, no bucket for today and a positive
      back-solved start, the last day's equity is the account value; when the
      back-solved start is not positive, the first day starts from the account
      value instead. */
  lemma BackSolvedFromAccount(s: seq<Bucket>, account: Option<real>, today: int)
    requires |s| > 0
    requires account.Some? && account.value > 0.0
    requires TodayIndex(s, today).None?
    ensures account.value - NetPrefix(s, |s|) > 0.0 ==> EquityAt(s, account, today, |s| - 1) == account.value
    ensures account.value - NetPrefix(s, |s|) <= 0.0 ==> EquityAt(s, account, today, 0) == account.value + s[0].net
  {
    NetPrefixStep(s, 0);
  }

  /** Without a positive account value, equity is the running total of net
      PnL from 0. */
  lemma CumulativeFromZero(s: seq<Bucket>, account: Option<real>, today: int, k: nat)
    requires k < |s|
    requires account.None? || account.value <= 0.0
    ensures EquityAt(s, account, today, k) == NetPrefix(s, k + 1)
  {
  }

  /** The equity walks on `dailyArray` (which must be non-empty). Every
      bucket gets `EquityAt` of its position and keeps all its other fields. */
  method ReconstructEquity(a: array<Bucket>, account: Option<real>, today: int)
    requires a.Length > 0
    modifies a
    ensures forall k :: 0 <= k < a.Length ==> a[k] == old(a[k]).(equity := EquityAt(old(a[..]), account, today, k))
  {
    if account.Some? && account.value > 0.0 {
      var currentAccountValue := account.value;
      var todayIndex := FindToday(a, today);
      if todayIndex.Some? {
        WalkFromAnchor(a, todayIndex.value, currentAccountValue);
      } else {
        var totalNetPnL := TotalNet(a);
        var runningEquity := currentAccountValue - totalNetPnL;
        if runningEquity <= 0.0 {
          runningEquity := currentAccountValue;
        }
        AccumulateFrom(a, runningEquity);
      }
    } else {
      AccumulateFrom(a, 0.0);
    }
  }

  /** The total net PnL of the range. */
  method TotalNet(a: array<Bucket>) returns (totalNetPnL: real)
    ensures totalNetPnL == NetPrefix(a[..], a.Length)
  {
    totalNetPnL := 0.0;
    for i := 0 to a.Length
      invariant totalNetPnL == NetPrefix(a[..], i)
    {
      NetPrefixStep(a[..], i);
      totalNetPnL := totalNetPnL + a[i].net;
    }
  }

  /** The anchored case: day `t` gets the account value, then the walks
      fill in the days before and after it. */
  method WalkFromAnchor(a: array<Bucket>, t: nat, accountValue: real)
    requires t < a.Length
    modifies a
    ensures forall k :: 0 <= k < a.Length ==>
      a[k] == old(a[k]).(equity := accountValue - NetPrefix(old(a[..]), t + 1) + NetPrefix(old(a[..]), k + 1))
  {
    ghost var s := a[..];
    a[t] := a[t].(equity := accountValue);
    ghost var s1 := a[..];
    SameNetsSamePrefixes(s, s1);
    WalkBackward(a, t);
    ghost var s2 := a[..];
    SameNetsSamePrefixes(s, s2);
    WalkForward(a, t);
    forall k | 0 <= k < a.Length
      ensures a[k] == s[k].(equity := accountValue - NetPrefix(s, t + 1) + NetPrefix(s, k + 1))
    {
      if k <= t {
        assert a[k] == s2[k];
      } else {
        assert s2[k] == s[k];
      }
    }
  }

  /** Two ledgers with the same daily nets have the same prefix sums. */
  lemma SameNetsSamePrefixes(s: seq<Bucket>, s': seq<Bucket>)
    requires |s| == |s'|
    requires forall k :: 0 <= k < |s| ==> s[k].net == s'[k].net
    ensures forall n :: 0 <= n <= |s| ==> NetPrefix(s, n) == NetPrefix(s', n)
  {
    forall n | 0 <= n <= |s| ensures NetPrefix(s, n) == NetPrefix(s', n) {
      NetPrefixSameNets(s, s', n);
    }
  }

  lemma {:induction false} NetPrefixSameNets(s: seq<Bucket>, s': seq<Bucket>, n: nat)
    requires |s| == |s'| && n <= |s|
    requires forall k :: 0 <= k < |s| ==> s[k].net == s'[k].net
    ensures NetPrefix(s, n) == NetPrefix(s', n)
  {
    if n > 0 {
      NetPrefixSameNets(s, s', n - 1);
      NetPrefixStep(s, n - 1);
      NetPrefixStep(s', n - 1);
    }
  }

  /** The backward walk from day `t`: each earlier day's equity is the next
      day's equity minus the next day's net PnL. */
  method WalkBackward(a: array<Bucket>, t: nat)
    requires t < a.Length
    modifies a
    ensures forall k :: 0 <= k <= t ==>
      a[k] == old(a[k]).(equity := old(a[t].equity) - NetPrefix(old(a[..]), t + 1) + NetPrefix(old(a[..]), k + 1))
    ensures forall k :: t < k < a.Length ==> a[k] == old(a[k])
  {
    ghost var s := a[..];
    ghost var base := a[t].equity - NetPrefix(s, t + 1);
    var i := t;
    while i > 0
      invariant 0 <= i <= t
      invariant forall k :: 0 <= k < a.Length && !(i <= k <= t) ==> a[k] == s[k]
      invariant forall k :: i <= k <= t ==> a[k] == s[k].(equity := base + NetPrefix(s, k + 1))
    {
      NetPrefixStep(s, i);
      var equity := a[i].equity - a[i].net;
      a[i - 1] := a[i - 1].(equity := equity);
      i := i - 1;
    }
  }

  /** The forward walk from day `t`: each later day's equity is the previous
      day's equity plus its own net PnL. */
  method WalkForward(a: array<Bucket>, t: nat)
    requires t < a.Length
    modifies a
    ensures forall k :: 0 <= k <= t ==> a[k] == old(a[k])
    ensures forall k :: t < k < a.Length ==>
      a[k] == old(a[k]).(equity := old(a[t].equity) - NetPrefix(old(a[..]), t + 1) + NetPrefix(old(a[..]), k + 1))
  {
    ghost var s := a[..];
    ghost var base := a[t].equity - NetPrefix(s, t + 1);
    var i := t + 1;
    while i < a.Length
      invariant t + 1 <= i <= a.Length
      invariant forall k :: 0 <= k <= t ==> a[k] == s[k]
      invariant forall k :: t < k < i ==> a[k] == s[k].(equity := base + NetPrefix(s, k + 1))
      invariant forall k :: i <= k < a.Length ==> a[k] == s[k]
    {
      NetPrefixStep(s, i);
      var equity := a[i - 1].equity + a[i].net;
      assert equity == base + NetPrefix(s, i + 1);
      a[i] := a[i].(equity := equity);
      i := i + 1;
    }
  }

  /** The running walk shared by the two cases without an anchor day:
      `running += net; equity := running`, from the given start. */
  method AccumulateFrom(a: array<Bucket>, start: real)
    modifies a
    ensures forall k :: 0 <= k < a.Length ==> a[k] == old(a[k]).(equity := start + NetPrefix(old(a[..]), k + 1))
  {
    ghost var s := a[..];
    var runningEquity := start;
    for i := 0 to a.Length
      invariant runningEquity == start + NetPrefix(s, i)
      invariant forall k :: 0 <= k < i ==> a[k] == s[k].(equity := start + NetPrefix(s, k + 1))
      invariant forall k :: i <= k < a.Length ==> a[k] == s[k]
    {
      NetPrefixStep(s, i);
      runningEquity := runningEquity + a[i].net;
      a[i] := a[i].(equity := runningEquity);
    }
  }
}
