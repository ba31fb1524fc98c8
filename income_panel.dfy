/** The income screen (src/components/IncomePanel.tsx): visit revenue by
    calendar month. The current month and the month a visit date falls in are
    inputs: `monthOf` reads a visit's date in local time and gives `None` for a
    date that does not parse (such a visit falls in no month). */
module IncomePanel {
  import opened Base
  import opened Seqs
  import opened Records

  /** A month number as the date library counts them: 0 is January. */
  type Month = m: int | 0 <= m < 12

  datatype YearMonth = YearMonth(year: int, month: Month)

  /** Months counted from January of year 0. */
  function MonthIndex(ym: YearMonth): int
  {
    ym.year * 12 + ym.month
  }

  /** The month a month count names (the inverse of `MonthIndex`). */
  function FromMonthIndex(n: int): (ym: YearMonth)
    ensures MonthIndex(ym) == n
  {
    YearMonth(n / 12, n % 12)
  }

  /** Two months with the same count are the same month. */
  lemma MonthIndexInjective(a: YearMonth, b: YearMonth)
    ensures MonthIndex(a) == MonthIndex(b) ==> a == b
  {
    if MonthIndex(a) == MonthIndex(b) {
      assert (a.year - b.year) * 12 == b.month - a.month;
    }
  }

  /** "Last month": December of the year before after January, else the month before. */
  function PreviousMonth(ym: YearMonth): (p: YearMonth)
    ensures MonthIndex(p) == MonthIndex(ym) - 1
  {
    if ym.month == 0 then YearMonth(ym.year - 1, 11) else YearMonth(ym.year, ym.month - 1)
  }

  /** The month of `new Date(year, month - k, 1)`: a month number below zero
      rolls back into earlier years. */
  function MonthsBack(now: YearMonth, k: int): (ym: YearMonth)
    ensures MonthIndex(ym) == MonthIndex(now) - k
  {
    FromMonthIndex(now.year * 12 + now.month - k)
  }

  /** One month back is "last month", and January's previous month is December. */
  lemma PreviousMonthWraps(now: YearMonth)
    ensures MonthsBack(now, 1) == PreviousMonth(now)
    ensures now.month == 0 ==> PreviousMonth(now) == YearMonth(now.year - 1, 11)
    ensures now.month > 0 ==> PreviousMonth(now).year == now.year
  {
    MonthIndexInjective(MonthsBack(now, 1), PreviousMonth(now));
  }

  function InMonth(monthOf: string -> Option<YearMonth>, ym: YearMonth): Visit -> bool
  {
    (v: Visit) => monthOf(v.date) == Some(ym)
  }

  /** The visits dated in a month. */
  function MonthVisits(visits: seq<Visit>, monthOf: string -> Option<YearMonth>, ym: YearMonth): (r: seq<Visit>)
    ensures forall i :: 0 <= i < |r| ==> r[i] in visits && monthOf(r[i].date) == Some(ym)
  {
    Filter(visits, InMonth(monthOf, ym))
  }

  /** A visit is among a month's visits exactly when it is dated in that month. */
  lemma MonthVisitsExact(visits: seq<Visit>, monthOf: string -> Option<YearMonth>, ym: YearMonth, v: Visit)
    ensures v in MonthVisits(visits, monthOf, ym) <==> v in visits && monthOf(v.date) == Some(ym)
  {
    if v in visits && monthOf(v.date) == Some(ym) {
      FilterKeeps(visits, InMonth(monthOf, ym), v);
    }
  }

  /** The revenue of a month (`thisMonthTotal`, `lastMonthTotal`, a bucket's `total`). */
  function MonthTotal(visits: seq<Visit>, monthOf: string -> Option<YearMonth>, ym: YearMonth): int
  {
    Revenue(MonthVisits(visits, monthOf, ym))
  }

  /** `allTimeTotal`. */
  function AllTimeTotal(visits: seq<Visit>): int
  {
    Revenue(visits)
  }

  /** With no negative cost, a month's revenue lies between zero and the all-time total. */
  lemma MonthTotalAtMostAllTime(visits: seq<Visit>, monthOf: string -> Option<YearMonth>, ym: YearMonth)
    requires forall v :: v in visits ==> v.totalCost >= 0
    ensures 0 <= MonthTotal(visits, monthOf, ym) <= AllTimeTotal(visits)
  {
    SumFilterAtMost(visits, InMonth(monthOf, ym), VisitCost);
    SumNonNegative(MonthVisits(visits, monthOf, ym), VisitCost);
  }

  /** `monthlyChange`, in percent: relative to a positive last month; otherwise
      100 when this month earned something and 0 when it did not. */
  function MonthlyChange(thisTotal: int, lastTotal: int): (c: real)
    ensures lastTotal > 0 ==> c * (lastTotal as real) == ((thisTotal - lastTotal) as real) * 100.0
    ensures lastTotal > 0 ==> (c > 0.0 <==> thisTotal > lastTotal) && (c == 0.0 <==> thisTotal == lastTotal)
    ensures lastTotal > 0 && thisTotal >= 0 ==> c >= -100.0
    ensures lastTotal <= 0 ==> (c == 100.0 <==> thisTotal > 0) && (c == 0.0 <==> thisTotal <= 0)
  {
    if lastTotal > 0 then
      var d := (thisTotal - lastTotal) as real;
      var l := lastTotal as real;
      assert d / l * 100.0 * l == d * 100.0;
      d / l * 100.0
    else if thisTotal > 0 then 100.0
    else 0.0
  }

  /** One bar of the six-month chart (its label comes from the locale and is not modelled). */
  datatype MonthBucket = MonthBucket(month: YearMonth, total: int, count: nat)

  function BucketOf(visits: seq<Visit>, monthOf: string -> Option<YearMonth>, ym: YearMonth): MonthBucket
  {
    MonthBucket(ym, MonthTotal(visits, monthOf, ym), |MonthVisits(visits, monthOf, ym)|)
  }

  /** `last6Months`: buckets for 0 to 5 months back, then reversed. */
  function Last6Months(visits: seq<Visit>, monthOf: string -> Option<YearMonth>, now: YearMonth): seq<MonthBucket>
  {
    Reverse(seq(6, i => BucketOf(visits, monthOf, MonthsBack(now, i))))
  }

  /** The window is six consecutive months, oldest first, ending at the current
      month; each bucket counts and sums exactly its month's visits. */
  lemma Last6MonthsWindow(visits: seq<Visit>, monthOf: string -> Option<YearMonth>, now: YearMonth)
    ensures var r := Last6Months(visits, monthOf, now);
      && |r| == 6 && r[5].month == now
      && (forall j :: 0 <= j < 5 ==> MonthIndex(r[j + 1].month) == MonthIndex(r[j].month) + 1)
      && (forall j :: 0 <= j < 6 ==> r[j].month == MonthsBack(now, 5 - j))
      && (forall j :: 0 <= j < 6 ==>
            r[j].total == MonthTotal(visits, monthOf, r[j].month)
            && r[j].count == |MonthVisits(visits, monthOf, r[j].month)|)
  {
    var r := Last6Months(visits, monthOf, now);
    MonthIndexInjective(r[5].month, now);
  }

  /** `maxTotal`: the largest bucket total, and at least 1. */
  function MaxTotal(buckets: seq<MonthBucket>): (m: int)
    ensures m >= 1
    ensures forall i :: 0 <= i < |buckets| ==> buckets[i].total <= m
    ensures m == 1 || exists i :: 0 <= i < |buckets| && buckets[i].total == m
  {
    if buckets == [] then 1
    else
      var rest := MaxTotal(buckets[1..]);
      assert forall i :: 1 <= i < |buckets| ==> buckets[i] == buckets[1..][i - 1];
      if buckets[0].total > rest then buckets[0].total else rest
  }
}
