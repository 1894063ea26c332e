/** The dashboard's totals and trend buckets over a reporting range. */
module Dashboard {
  import opened LocalTables
  import opened Calendar

  /** The columns of a transaction row that the dashboard reads. */
  datatype SaleRow = SaleRow(
    deleted: bool, success: bool, confirmedRevision: Option<int>, revision: int, occurredAt: int, total: int)

  datatype Mode = ByDate(date: Date) | ByMonth(month: Month)

  predicate Valid(mode: Mode) {
    match mode
    case ByDate(date) => ValidDate(date)
    case ByMonth(month) => ValidMonth(month.year, month.month)
  }

  function RangeOf(mode: Mode): Range {
    match mode
    case ByDate(date) => DayRange(date)
    case ByMonth(month) => MonthRange(month)
  }

  /** The WHERE clause shared by the totals and the trend. */
  predicate Counted(sale: SaleRow, range: Range) {
    !sale.deleted && sale.success && sale.confirmedRevision == Some(sale.revision) && Contains(range, sale.occurredAt)
  }

  function Gross(sales: seq<SaleRow>, range: Range): int {
    if sales == [] then 0 else (if Counted(sales[0], range) then sales[0].total else 0) + Gross(sales[1..], range)
  }

  /** strftime('%s', …): whole seconds. */
  function Seconds(ms: int): int { ms / 1000 }

  /** SQL integer division truncates toward zero. */
  function SqlDivide(a: int, b: int): int
    requires b > 0
  {
    if a >= 0 then a / b else -((-a) / b)
  }

  function BucketSeconds(mode: Mode): int { if mode.ByDate? then 3600 else 86400 }

  /** 24, or Math.round of the range in days. */
  function BucketCount(mode: Mode): int {
    var range := RangeOf(mode);
    if mode.ByDate? then 24 else (2 * (range.to - range.from) + MS_PER_DAY) / (2 * MS_PER_DAY)
  }

  function BucketOf(sale: SaleRow, mode: Mode): int {
    SqlDivide(Seconds(sale.occurredAt) - Seconds(RangeOf(mode).from), BucketSeconds(mode))
  }

  function BucketSum(sales: seq<SaleRow>, mode: Mode, bucket: int): int {
    if sales == [] then 0
    else (if Counted(sales[0], RangeOf(mode)) && BucketOf(sales[0], mode) == bucket then sales[0].total else 0)
         + BucketSum(sales[1..], mode, bucket)
  }

  datatype TrendRow = TrendRow(bucket: int, amount: int)

  predicate HasBucket(sales: seq<SaleRow>, mode: Mode, bucket: int) {
    exists i :: 0 <= i < |sales| && Counted(sales[i], RangeOf(mode)) && BucketOf(sales[i], mode) == bucket
  }

  /** GROUP BY bucket: one row for each bucket that has sales, with their sum. */
  ghost predicate IsTrend(trend: seq<TrendRow>, sales: seq<SaleRow>, mode: Mode) {
    && (forall i, j :: 0 <= i < j < |trend| ==> trend[i].bucket != trend[j].bucket)
    && (forall i :: 0 <= i < |trend| ==> trend[i].amount == BucketSum(sales, mode, trend[i].bucket))
    && (forall bucket: int :: HasBucket(sales, mode, bucket) <==>
       exists i :: 0 <= i < |trend| && trend[i].bucket == bucket)
  }

  // ----- the range in seconds -----

  lemma DayIsWhole(date: Date)
    ensures var range := DayRange(date);
      range.from == 1000 * Seconds(range.from) && range.to - range.from == MS_PER_DAY
  {
    DayRangeIsDay(date, 0);
    WholeSeconds(DayNumber(date));
  }

  lemma MonthIsWhole(month: Month)
    requires ValidMonth(month.year, month.month)
    ensures var range := MonthRange(month);
      range.from == 1000 * Seconds(range.from)
        && range.to - range.from == MS_PER_DAY * DaysInMonth(month.year, month.month)
  {
    MonthDays(month);
    WholeSeconds(DayNumber(Date(month.year, month.month, 1)));
  }

  /** A range starts on a whole second and lasts a whole number of buckets. */
  lemma RangeIsWhole(mode: Mode)
    requires Valid(mode)
    ensures var range := RangeOf(mode);
      && range.from == 1000 * Seconds(range.from)
      && range.to == range.from + 1000 * BucketSeconds(mode) * BucketCount(mode)
      && BucketCount(mode) == if mode.ByDate? then 24 else DaysInMonth(mode.month.year, mode.month.month)
  {
    match mode
    case ByDate(date) => DayIsWhole(date);
    case ByMonth(month) =>
      MonthIsWhole(month);
      RoundsToDays(DaysInMonth(month.year, month.month));
  }

  lemma WholeSeconds(day: int)
    ensures day * MS_PER_DAY - OFFSET_MS == 1000 * Seconds(day * MS_PER_DAY - OFFSET_MS)
  {
    assert day * MS_PER_DAY - OFFSET_MS == 1000 * (86_400 * day - 25_200);
  }

  lemma RoundsToDays(days: int)
    ensures (2 * (days * MS_PER_DAY) + MS_PER_DAY) / (2 * MS_PER_DAY) == days
  {
    assert 2 * (days * MS_PER_DAY) + MS_PER_DAY == (2 * MS_PER_DAY) * days + MS_PER_DAY;
  }

  /** Bucket k holds exactly the sales of the k-th hour or day of the range, so every counted sale
      has a valid bucket. */
  lemma BucketIsPart(sale: SaleRow, mode: Mode, k: int)
    requires Valid(mode) && Contains(RangeOf(mode), sale.occurredAt)
    ensures 0 <= BucketOf(sale, mode) < BucketCount(mode)
    ensures var start, length := RangeOf(mode).from, 1000 * BucketSeconds(mode);
      BucketOf(sale, mode) == k <==> start + length * k <= sale.occurredAt < start + length * k + length
  {
    var start, at := RangeOf(mode).from, sale.occurredAt;
    var seconds := BucketSeconds(mode);
    RangeIsWhole(mode);
    var passed := Seconds(at) - Seconds(start);
    assert 1000 * Seconds(at) <= at < 1000 * Seconds(at) + 1000;
    assert passed >= 0;
    SecondsDecide(at - start, passed, seconds, k);
    SecondsDecide(at - start, passed, seconds, passed / seconds);
    CountBound(at - start, seconds, passed / seconds, BucketCount(mode));
  }

  lemma SecondsDecide(ms: int, passed: int, seconds: int, k: int)
    requires 1000 * passed <= ms < 1000 * passed + 1000 && passed >= 0 && (seconds == 3600 || seconds == 86400)
    ensures passed / seconds == k <==> 1000 * seconds * k <= ms < 1000 * seconds * k + 1000 * seconds
  {
    assert passed == seconds * (passed / seconds) + passed % seconds;
    if seconds == 3600 {
      assert passed / 3600 == k <==> 3600 * k <= passed < 3600 * k + 3600;
    } else {
      assert passed / 86400 == k <==> 86400 * k <= passed < 86400 * k + 86400;
    }
  }

  lemma CountBound(ms: int, seconds: int, bucket: int, count: int)
    requires (seconds == 3600 || seconds == 86400) && 0 <= ms < 1000 * seconds * count
    requires 1000 * seconds * bucket <= ms < 1000 * seconds * bucket + 1000 * seconds
    ensures 0 <= bucket < count
  {
  }

  lemma DayWithinMonth(at: int, month: Month) returns (k: int)
    requires ValidMonth(month.year, month.month) && Contains(MonthRange(month), at)
    ensures CurrentJakartaDate(at) == Some(Date(month.year, month.month, k + 1))
    ensures MonthRange(month).from + MS_PER_DAY * k <= at < MonthRange(month).from + MS_PER_DAY * k + MS_PER_DAY
  {
    k := JakartaDay(at) - DayNumber(Date(month.year, month.month, 1));
    MonthsTile(at, month);
    SameMonth(at, month, Date(month.year, month.month, 1), k + 1);
    DaysTile(at, Date(month.year, month.month, k + 1));
    DayRangeIsDay(Date(month.year, month.month, k + 1), at);
    DayStarts(month, k);
  }

  /** In a month's trend the bucket is the Jakarta day of the month. */
  lemma MonthBucketIsDay(sale: SaleRow, month: Month)
    requires ValidMonth(month.year, month.month) && Contains(MonthRange(month), sale.occurredAt)
    ensures CurrentJakartaDate(sale.occurredAt)
      == Some(Date(month.year, month.month, BucketOf(sale, ByMonth(month)) + 1))
  {
    var k := DayWithinMonth(sale.occurredAt, month);
    BucketIsPart(sale, ByMonth(month), k);
  }

  lemma DayStarts(month: Month, k: int)
    ensures DayRange(Date(month.year, month.month, k + 1)).from == MonthRange(month).from + MS_PER_DAY * k
  {
    DayOfMonth(Date(month.year, month.month, k + 1), Date(month.year, month.month, 1));
  }

  // ----- conservation -----

  /** The buckets below n together. */
  function SumBelow(sales: seq<SaleRow>, mode: Mode, n: nat): int {
    if n == 0 then 0 else SumBelow(sales, mode, n - 1) + BucketSum(sales, mode, n - 1)
  }

  lemma {:induction false} SumBelowSplits(sales: seq<SaleRow>, mode: Mode, n: nat)
    requires Valid(mode)
    ensures SumBelow(sales, mode, n) == if sales == [] then 0 else
      (if Counted(sales[0], RangeOf(mode)) && BucketOf(sales[0], mode) < n then sales[0].total else 0)
        + SumBelow(sales[1..], mode, n)
    decreases n
  {
    if n > 0 { SumBelowSplits(sales, mode, n - 1); }
    if sales != [] && Counted(sales[0], RangeOf(mode)) { BucketIsPart(sales[0], mode, 0); }
  }

  lemma {:induction false} BucketsConserveGross(sales: seq<SaleRow>, mode: Mode)
    requires Valid(mode)
    ensures BucketCount(mode) >= 0 && SumBelow(sales, mode, BucketCount(mode)) == Gross(sales, RangeOf(mode))
  {
    RangeIsWhole(mode);
    SumBelowSplits(sales, mode, BucketCount(mode));
    if sales != [] {
      if Counted(sales[0], RangeOf(mode)) { BucketIsPart(sales[0], mode, 0); }
      BucketsConserveGross(sales[1..], mode);
    }
  }

  lemma {:induction false} EmptyBucket(sales: seq<SaleRow>, mode: Mode, bucket: int)
    requires !HasBucket(sales, mode, bucket)
    ensures BucketSum(sales, mode, bucket) == 0
  {
    if sales != [] {
      assert forall i :: 0 <= i < |sales[1..]| ==> sales[1..][i] == sales[i + 1];
      EmptyBucket(sales[1..], mode, bucket);
    }
  }

  function Sum(amounts: seq<int>): int {
    if amounts == [] then 0 else Sum(amounts[..|amounts| - 1]) + amounts[|amounts| - 1]
  }

  lemma {:induction false} SumOfBuckets(amounts: seq<int>, sales: seq<SaleRow>, mode: Mode)
    requires forall k :: 0 <= k < |amounts| ==> amounts[k] == BucketSum(sales, mode, k)
    ensures Sum(amounts) == SumBelow(sales, mode, |amounts|)
  {
    if amounts != [] { SumOfBuckets(amounts[..|amounts| - 1], sales, mode); }
  }

  /** The bucket loop: every bucket gets the sum of its sales, and the buckets sum to the gross. */
  method FillBuckets(trend: seq<TrendRow>, mode: Mode, ghost sales: seq<SaleRow>) returns (buckets: array<int>)
    requires Valid(mode) && IsTrend(trend, sales, mode)
    ensures fresh(buckets) && buckets.Length == BucketCount(mode)
    ensures forall k :: 0 <= k < buckets.Length ==> buckets[k] == BucketSum(sales, mode, k)
    ensures Sum(buckets[..]) == Gross(sales, RangeOf(mode))
  {
    RangeIsWhole(mode);
    buckets := new int[BucketCount(mode)](_ => 0);
    for n := 0 to |trend|
      invariant forall i :: 0 <= i < n && 0 <= trend[i].bucket < buckets.Length ==>
        buckets[trend[i].bucket] == trend[i].amount
      invariant forall k :: 0 <= k < buckets.Length && (forall i :: 0 <= i < n ==> trend[i].bucket != k) ==>
        buckets[k] == 0
    {
      var row := trend[n];
      if 0 <= row.bucket < buckets.Length { buckets[row.bucket] := row.amount; }
    }
    forall k | 0 <= k < buckets.Length ensures buckets[k] == BucketSum(sales, mode, k) {
      if HasBucket(sales, mode, k) {
        var i :| 0 <= i < |trend| && trend[i].bucket == k;
      } else {
        EmptyBucket(sales, mode, k);
      }
    }
    SumOfBuckets(buckets[..], sales, mode);
    BucketsConserveGross(sales, mode);
  }


  /** What one sale adds to the gross: its total exactly if it is live, paid for its current revision
      and lies in the range, whose end is exclusive. */
  lemma GrossAdds(sale: SaleRow, sales: seq<SaleRow>, range: Range)
    ensures Gross([], range) == 0
    ensures Gross([sale] + sales, range) == Gross(sales, range)
      + if !sale.deleted && sale.success && sale.confirmedRevision == Some(sale.revision)
           && range.from <= sale.occurredAt && sale.occurredAt < range.to then sale.total else 0
  {
    assert ([sale] + sales)[1..] == sales;
  }
}
