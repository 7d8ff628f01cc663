/** The statistics of the admin dashboard, `src/pages/AdminDashboard.js`:
    the admin check, the four headline figures, and the six monthly buckets
    of quotation requests behind the bar chart. Dates are abstracted to
    (year, month) pairs; the fetched lists are inputs. */
module AdminDashboard {
  import opened Common

  const COMPLETED := "completed"
  const MONTHS_SHOWN := 6

  /** A calendar month; `month` counts from 0 as `Date.getMonth()` does. */
  datatype YearMonth = YearMonth(year: int, month: int)

  /** Month number on a single scale, so that consecutive months differ by 1. */
  function MonthIndex(ym: YearMonth): int {
    ym.year * 12 + ym.month
  }

  /** `new Date(y, m - back, 1)` read back as a (year, month): JavaScript
      normalises a month outside 0..11 into the neighbouring years, which is
      floor division by 12. */
  function MonthsBefore(now: YearMonth, back: int): (r: YearMonth)
    ensures 0 <= r.month < 12
    ensures MonthIndex(r) == MonthIndex(now) - back
  {
    var i := MonthIndex(now) - back;
    YearMonth(i / 12, i % 12)
  }

  /** A quotation request as the dashboard reads it: its `status` (possibly
      missing) and the (year, month) of `_createdAt` in local time, missing
      when the timestamp does not parse. */
  datatype RequestRow = RequestRow(status: Option<string>, createdAt: Option<YearMonth>)

  /** A payment request as the dashboard reads it: its `amount`, possibly
      missing. */
  datatype PaymentRow = PaymentRow(amount: Option<real>)

  /** One bar of the chart (the month label is presentation and not kept). */
  datatype Bucket = Bucket(key: YearMonth, count: nat)

  /** `isAdmin`: loaded, signed in, and the primary email is the admin's. */
  function IsAdmin(isLoaded: bool, isSignedIn: bool, user: Option<User>, adminEmail: string): (r: bool)
    ensures r <==> isLoaded && isSignedIn && UserEmail(user) == Some(adminEmail)
  {
    if !isLoaded || !isSignedIn then false
    else match UserEmail(user)
      case Some(e) => e == adminEmail
      case None => false
  }

  // ---------------------------------------------------------------------------
  // Headline figures

  predicate IsPending(r: RequestRow) {
    r.status != Some(COMPLETED)
  }

  /** `requests.filter((item) => item.status !== 'completed').length`. */
  function PendingRequests(requests: seq<RequestRow>): (n: nat)
    ensures n <= |requests|
  {
    if requests == [] then 0
    else (if IsPending(requests[0]) then 1 else 0) + PendingRequests(requests[1..])
  }

  function CompletedRequests(requests: seq<RequestRow>): nat {
    if requests == [] then 0
    else (if requests[0].status == Some(COMPLETED) then 1 else 0) + CompletedRequests(requests[1..])
  }

  /** Every request is either pending or completed, so the pending count is
      the total minus the completed ones; a request without a status counts
      as pending. */
  lemma {:induction false} PendingComplementsCompleted(requests: seq<RequestRow>)
    ensures PendingRequests(requests) + CompletedRequests(requests) == |requests|
  {
    if requests != [] {
      PendingComplementsCompleted(requests[1..]);
    }
  }

  function AmountOrZero(p: PaymentRow): real {
    match p.amount
    case Some(a) => a
    case None => 0.0
  }

  /** `payments.reduce((sum, item) => sum + (item.amount || 0), 0)`. */
  function TotalRevenue(payments: seq<PaymentRow>): real {
    if payments == [] then 0.0 else AmountOrZero(payments[0]) + TotalRevenue(payments[1..])
  }

  /** Revenue adds up over concatenated lists. */
  lemma {:induction false} RevenueAppend(a: seq<PaymentRow>, b: seq<PaymentRow>)
    ensures TotalRevenue(a + b) == TotalRevenue(a) + TotalRevenue(b)
  {
    if a != [] {
      assert (a + b)[1..] == a[1..] + b;
      RevenueAppend(a[1..], b);
    } else {
      assert a + b == b;
    }
  }

  /** One more payment adds its amount, and a payment without an amount
      adds nothing. */
  lemma RevenueAppendOne(a: seq<PaymentRow>, p: PaymentRow)
    ensures p.amount.Some? ==> TotalRevenue(a + [p]) == TotalRevenue(a) + p.amount.value
    ensures p.amount.None? ==> TotalRevenue(a + [p]) == TotalRevenue(a)
  {
    RevenueAppend(a, [p]);
    assert [p][1..] == [];
  }

  lemma {:induction false} RevenueNonNegative(payments: seq<PaymentRow>)
    requires forall p :: p in payments && p.amount.Some? ==> p.amount.value >= 0.0
    ensures TotalRevenue(payments) >= 0.0
  {
    if payments != [] {
      assert forall p :: p in payments[1..] ==> p in payments;
      assert payments[0] in payments;
      RevenueNonNegative(payments[1..]);
    }
  }

  /** The four figures of `stats`, in order: requests, pending, payments,
      revenue. */
  datatype Stats = Stats(totalRequests: nat, pendingRequests: nat, totalPayments: nat, totalRevenue: real)

  function ComputeStats(requests: seq<RequestRow>, payments: seq<PaymentRow>): (s: Stats)
    ensures s.totalRequests == |requests| && s.totalPayments == |payments|
    ensures s.pendingRequests <= s.totalRequests
    ensures s.pendingRequests == |requests| - CompletedRequests(requests)
  {
    PendingComplementsCompleted(requests);
    Stats(|requests|, PendingRequests(requests), |payments|, TotalRevenue(payments))
  }

  // ---------------------------------------------------------------------------
  // Monthly buckets

  /** How many requests were created in month `key`. */
  function CountIn(requests: seq<RequestRow>, key: YearMonth): nat {
    if requests == [] then 0
    else (if requests[0].createdAt == Some(key) then 1 else 0) + CountIn(requests[1..], key)
  }

  lemma {:induction false} CountInAppend(requests: seq<RequestRow>, r: RequestRow, key: YearMonth)
    ensures CountIn(requests + [r], key) == CountIn(requests, key) + (if r.createdAt == Some(key) then 1 else 0)
  {
    if requests != [] {
      assert (requests + [r])[1..] == requests[1..] + [r];
      CountInAppend(requests[1..], r, key);
    }
  }

  /** The keys of the six buckets: the five months before `now` and `now`
      itself, oldest first. */
  function BucketKey(now: YearMonth, k: int): YearMonth {
    MonthsBefore(now, MONTHS_SHOWN - 1 - k)
  }

  /** What the chart shows: bucket `k` is month `now - (5 - k)`, counting
      the requests created in it. */
  ghost predicate IsMonthlyTally(buckets: seq<Bucket>, now: YearMonth, requests: seq<RequestRow>) {
    && |buckets| == MONTHS_SHOWN
    && forall k :: 0 <= k < |buckets| ==>
         buckets[k].key == BucketKey(now, k) && buckets[k].count == CountIn(requests, buckets[k].key)
  }

  /** `buckets.find((entry) => entry.key === key)`: the first bucket with the
      key, or `|buckets|` when none has it. */
  function FindBucket(buckets: seq<Bucket>, key: YearMonth): (k: nat)
    ensures k <= |buckets|
    ensures k < |buckets| ==> buckets[k].key == key
    ensures forall j :: 0 <= j < k ==> buckets[j].key != key
  {
    if buckets == [] then 0
    else if buckets[0].key == key then 0
    else 1 + FindBucket(buckets[1..], key)
  }

  lemma {:induction false} BucketKeysDistinct(now: YearMonth, i: int, j: int)
    requires i != j
    ensures BucketKey(now, i) != BucketKey(now, j)
  {
    assert MonthIndex(BucketKey(now, i)) != MonthIndex(BucketKey(now, j));
  }

  /** `monthlyRequests`: six zeroed buckets for the months up to `now`, then
      one increment per request in the bucket whose key matches its month (if
      any). */
  method MonthlyRequests(now: YearMonth, requests: seq<RequestRow>) returns (buckets: seq<Bucket>)
    ensures IsMonthlyTally(buckets, now, requests)
  {
    buckets := [];
    var i := MONTHS_SHOWN - 1;
    while i >= 0
      invariant -1 <= i < MONTHS_SHOWN
      invariant |buckets| == MONTHS_SHOWN - 1 - i
      invariant forall k :: 0 <= k < |buckets| ==> buckets[k] == Bucket(BucketKey(now, k), 0)
    {
      buckets := buckets + [Bucket(MonthsBefore(now, i), 0)];
      i := i - 1;
    }
    var n := 0;
    while n < |requests|
      invariant 0 <= n <= |requests|
      invariant |buckets| == MONTHS_SHOWN
      invariant forall k :: 0 <= k < |buckets| ==>
        buckets[k].key == BucketKey(now, k) && buckets[k].count == CountIn(requests[..n], buckets[k].key)
    {
      var r := requests[n];
      assert requests[..n + 1] == requests[..n] + [r];
      forall key {
        CountInAppend(requests[..n], r, key);
      }
      if r.createdAt.Some? {
        var k := FindBucket(buckets, r.createdAt.value);
        if k < |buckets| {
          forall j | 0 <= j < |buckets| && j != k ensures buckets[j].key != r.createdAt.value {
            BucketKeysDistinct(now, j, k);
          }
          buckets := buckets[k := Bucket(buckets[k].key, buckets[k].count + 1)];
        }
      }
      n := n + 1;
    }
    assert requests[..n] == requests;
  }

  /** The sum of the bucket counts. */
  function CountSum(buckets: seq<Bucket>): nat {
    if buckets == [] then 0 else buckets[0].count + CountSum(buckets[1..])
  }

  /** How many of `keys` equal `key`. */
  function Occurrences(keys: seq<YearMonth>, key: YearMonth): nat {
    if keys == [] then 0 else (if keys[0] == key then 1 else 0) + Occurrences(keys[1..], key)
  }

  /** Summing `CountIn` over a list of distinct keys counts each request at
      most once. */
  function SumCounts(requests: seq<RequestRow>, keys: seq<YearMonth>): nat {
    if keys == [] then 0 else CountIn(requests, keys[0]) + SumCounts(requests, keys[1..])
  }

  lemma {:induction false} SumCountsCons(r: RequestRow, rest: seq<RequestRow>, keys: seq<YearMonth>)
    ensures SumCounts([r] + rest, keys)
      == SumCounts(rest, keys) + (if r.createdAt.Some? then Occurrences(keys, r.createdAt.value) else 0)
  {
    if keys != [] {
      assert ([r] + rest)[1..] == rest;
      SumCountsCons(r, rest, keys[1..]);
    }
  }

  lemma {:induction false} OccurrencesDistinct(keys: seq<YearMonth>, key: YearMonth)
    requires forall i, j :: 0 <= i < j < |keys| ==> keys[i] != keys[j]
    ensures Occurrences(keys, key) <= 1
  {
    if keys != [] {
      OccurrencesDistinct(keys[1..], key);
      if keys[0] == key {
        OccurrencesAbsent(keys[1..], key);
      }
    }
  }

  lemma {:induction false} OccurrencesAbsent(keys: seq<YearMonth>, key: YearMonth)
    requires key !in keys
    ensures Occurrences(keys, key) == 0
  {
    if keys != [] {
      OccurrencesAbsent(keys[1..], key);
    }
  }

  lemma {:induction false} SumCountsBound(requests: seq<RequestRow>, keys: seq<YearMonth>)
    requires forall i, j :: 0 <= i < j < |keys| ==> keys[i] != keys[j]
    ensures SumCounts(requests, keys) <= |requests|
  {
    if requests != [] {
      var r := requests[0];
      var rest := requests[1..];
      assert requests == [r] + rest;
      SumCountsCons(r, rest, keys);
      SumCountsBound(rest, keys);
      if r.createdAt.Some? {
        OccurrencesDistinct(keys, r.createdAt.value);
      }
    } else {
      SumCountsEmpty(keys);
    }
  }

  lemma {:induction false} SumCountsEmpty(keys: seq<YearMonth>)
    ensures SumCounts([], keys) == 0
  {
    if keys != [] {
      SumCountsEmpty(keys[1..]);
    }
  }

  function Keys(buckets: seq<Bucket>): (r: seq<YearMonth>)
    ensures |r| == |buckets| && forall k :: 0 <= k < |r| ==> r[k] == buckets[k].key
  {
    if buckets == [] then [] else [buckets[0].key] + Keys(buckets[1..])
  }

  lemma {:induction false} CountSumIsSumCounts(buckets: seq<Bucket>, requests: seq<RequestRow>)
    requires forall k :: 0 <= k < |buckets| ==> buckets[k].count == CountIn(requests, buckets[k].key)
    ensures CountSum(buckets) == SumCounts(requests, Keys(buckets))
  {
    if buckets != [] {
      CountSumIsSumCounts(buckets[1..], requests);
      assert Keys(buckets)[1..] == Keys(buckets[1..]);
    }
  }

  /** The chart's buckets are six consecutive months ending at `now`, and
      together they count no more requests than there are. */
  lemma {:induction false} MonthlyTallyFacts(buckets: seq<Bucket>, now: YearMonth, requests: seq<RequestRow>)
    requires IsMonthlyTally(buckets, now, requests)
    ensures buckets[|buckets| - 1].key == MonthsBefore(now, 0)
    ensures forall k :: 0 <= k < |buckets| - 1 ==> MonthIndex(buckets[k + 1].key) == MonthIndex(buckets[k].key) + 1
    ensures CountSum(buckets) <= |requests|
  {
    var keys := Keys(buckets);
    forall i, j | 0 <= i < j < |keys| ensures keys[i] != keys[j] {
      BucketKeysDistinct(now, i, j);
    }
    CountSumIsSumCounts(buckets, requests);
    SumCountsBound(requests, keys);
  }

  /** `Math.max(...counts, 1)`. */
  function MaxCount(buckets: seq<Bucket>): (m: nat)
    ensures m >= 1
    ensures forall k :: 0 <= k < |buckets| ==> buckets[k].count <= m
    ensures m == 1 || exists k :: 0 <= k < |buckets| && buckets[k].count == m
  {
    if buckets == [] then 1
    else
      var rest := MaxCount(buckets[1..]);
      assert forall k :: 1 <= k < |buckets| ==> buckets[k] == buckets[1..][k - 1];
      if buckets[0].count > rest then buckets[0].count else rest
  }
}
