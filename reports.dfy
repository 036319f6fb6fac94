/** The monthly report page: month filter, totals, best and worst job, and the
    twelve-month selector. */
module Reports {
  import opened Wrappers
  import opened Types
  import opened Seqs
  import opened Text
  import opened Store
  import opened Compute
  import opened Aggregate

  // ---------------------------------------------------------------- month filter

  /** `created_at.slice(0, 7)`: the `YYYY-MM` part of an ISO timestamp. */
  function JobMonth(m: JobWithMargin): string { Prefix(m.job.createdAt, 7) }

  function InMonth(month: string): JobWithMargin -> bool {
    (m: JobWithMargin) => JobMonth(m) == month
  }

  /** `monthJobs`: the records created in the selected month, in their listed order. */
  function MonthJobs(all: seq<JobWithMargin>, month: string): (r: seq<JobWithMargin>)
    ensures forall m :: m in r <==> m in all && JobMonth(m) == month
    ensures |r| <= |all|
  {
    FilterMembers(all, InMonth(month));
    Filter(all, InMonth(month))
  }

  // ---------------------------------------------------------------- totals

  /** A table row's profit: best-known revenue less total cost. */
  function RowProfit(m: JobWithMargin): real { RevenueOf(m) - CostOf(m) }

  datatype Totals = Totals(revenue: real, labor: real, material: real, costs: real, profit: real, avgMargin: real)

  /** The summary cards and the table footer of one month. */
  function MonthTotals(ms: seq<JobWithMargin>): (t: Totals)
    ensures t.revenue == Sum(ms, RevenueOf) && t.costs == Sum(ms, CostOf)
    ensures t.labor == Sum(ms, LaborCostOf) && t.material == Sum(ms, MaterialCostOf)
    ensures t.profit == t.revenue - t.costs
    ensures t.profit == Sum(ms, RowProfit)
    ensures t.avgMargin == MeanMargin(ms)
    ensures |ms| == 0 ==> t == Totals(0.0, 0.0, 0.0, 0.0, 0.0, 0.0)
  {
    SumSub(ms, RevenueOf, CostOf, RowProfit);
    var revenue := Sum(ms, RevenueOf);
    var costs := Sum(ms, CostOf);
    Totals(revenue, Sum(ms, LaborCostOf), Sum(ms, MaterialCostOf), costs, revenue - costs, MeanMargin(ms))
  }

  /** The footer's labor and material columns add up to the total cost. */
  lemma FooterCostsAddUp(ms: seq<JobWithMargin>)
    requires forall m :: m in ms ==> Consistent(m)
    ensures MonthTotals(ms).labor + MonthTotals(ms).material == MonthTotals(ms).costs
  {
    SumAdd(ms, LaborCostOf, MaterialCostOf, CostOf);
  }

  /** A row is shown green (profit at least 0) exactly when its margin is at least 0,
      whenever it has positive revenue. */
  lemma RowProfitSignMatchesMargin(m: JobWithMargin)
    requires Consistent(m) && RevenueOf(m) > 0.0
    ensures RowProfit(m) >= 0.0 <==> m.margin >= 0.0
  {
    MarginBounds(RevenueOf(m), CostOf(m));
  }

  // ---------------------------------------------------------------- sort by margin

  function MarginIs(k: real): JobWithMargin -> bool {
    (m: JobWithMargin) => m.margin == k
  }

  predicate Descending(s: seq<JobWithMargin>) {
    forall i, j :: 0 <= i < j < |s| ==> s[j].margin <= s[i].margin
  }

  /** Insert `x` into a descending list before the first record whose margin is not
      above its own, so that `x` precedes the records it ties with. */
  function InsertByMargin(x: JobWithMargin, s: seq<JobWithMargin>): (r: seq<JobWithMargin>)
    ensures multiset(r) == multiset(s) + multiset{x}
    decreases |s|
  {
    if |s| == 0 then [x]
    else if s[0].margin > x.margin then
      assert s == [s[0]] + s[1..];
      [s[0]] + InsertByMargin(x, s[1..])
    else [x] + s
  }

  function MarginsAtMost(s: seq<JobWithMargin>, b: real): bool {
    forall y :: y in s ==> y.margin <= b
  }

  lemma DescendingCons(a: JobWithMargin, t: seq<JobWithMargin>)
    requires Descending(t) && MarginsAtMost(t, a.margin)
    ensures Descending([a] + t)
  {
    var r := [a] + t;
    forall i, j | 0 <= i < j < |r| ensures r[j].margin <= r[i].margin {
      assert r[j] == t[j - 1];
      if i > 0 {
        assert r[i] == t[i - 1];
      } else {
        assert r[j] in t;
      }
    }
  }

  lemma DescendingTail(s: seq<JobWithMargin>)
    requires Descending(s) && |s| > 0
    ensures Descending(s[1..]) && MarginsAtMost(s[1..], s[0].margin)
  {
    forall y | y in s[1..] ensures y.margin <= s[0].margin {
      var k :| 0 <= k < |s[1..]| && s[1..][k] == y;
      assert s[k + 1] == y;
    }
  }

  lemma InsertKeepsBound(x: JobWithMargin, s: seq<JobWithMargin>, b: real)
    requires MarginsAtMost(s, b) && x.margin <= b
    ensures MarginsAtMost(InsertByMargin(x, s), b)
  {
    var r := InsertByMargin(x, s);
    forall y | y in r ensures y.margin <= b {
      assert y in multiset(r);
      if y != x {
        assert y in multiset(s);
      }
    }
  }

  lemma {:induction false} InsertByMarginDescending(x: JobWithMargin, s: seq<JobWithMargin>)
    requires Descending(s)
    ensures Descending(InsertByMargin(x, s))
    decreases |s|
  {
    if |s| == 0 {
      DescendingCons(x, []);
    } else if s[0].margin > x.margin {
      DescendingTail(s);
      InsertByMarginDescending(x, s[1..]);
      InsertKeepsBound(x, s[1..], s[0].margin);
      DescendingCons(s[0], InsertByMargin(x, s[1..]));
    } else {
      DescendingTail(s);
      assert s == [s[0]] + s[1..];
      assert MarginsAtMost(s, x.margin) by {
        forall y | y in s ensures y.margin <= x.margin {
          if y != s[0] {
            assert y in s[1..];
          }
        }
      }
      DescendingCons(x, s);
    }
  }

  /** `[...monthJobs].sort((a, b) => b.margin - a.margin)`: a stable sort, highest margin
      first, of a copy. */
  function SortByMargin(s: seq<JobWithMargin>): (r: seq<JobWithMargin>)
    ensures multiset(r) == multiset(s)
    ensures Descending(r)
    decreases |s|
  {
    if |s| == 0 then []
    else
      var sorted := SortByMargin(s[1..]);
      InsertByMarginDescending(s[0], sorted);
      assert s == [s[0]] + s[1..];
      InsertByMargin(s[0], sorted)
  }

  lemma FilterCons<T>(x: T, s: seq<T>, p: T -> bool)
    ensures Filter([x] + s, p) == (if p(x) then [x] else []) + Filter(s, p)
  {
    assert ([x] + s)[1..] == s;
  }

  /** Consing an element that cannot be kept together with `x` commutes with keeping `x`
      in front. */
  lemma ConsBesideKept<T>(a: T, x: T, rest: seq<T>, s: seq<T>, p: T -> bool)
    requires !(p(a) && p(x))
    requires Filter(rest, p) == (if p(x) then [x] else []) + Filter(s, p)
    ensures Filter([a] + rest, p) == (if p(x) then [x] else []) + Filter([a] + s, p)
  {
    FilterCons(a, rest, p);
    FilterCons(a, s, p);
    if p(a) {
      assert Filter(rest, p) == Filter(s, p);
    }
  }

  lemma {:induction false} InsertByMarginStable(x: JobWithMargin, s: seq<JobWithMargin>, k: real)
    requires Descending(s)
    ensures Filter(InsertByMargin(x, s), MarginIs(k)) == (if x.margin == k then [x] else []) + Filter(s, MarginIs(k))
    decreases |s|
  {
    if |s| == 0 {
      FilterCons(x, [], MarginIs(k));
    } else if s[0].margin > x.margin {
      DescendingTail(s);
      InsertByMarginStable(x, s[1..], k);
      ConsBesideKept(s[0], x, InsertByMargin(x, s[1..]), s[1..], MarginIs(k));
      assert s == [s[0]] + s[1..];
    } else {
      FilterCons(x, s, MarginIs(k));
    }
  }

  /** The sort is stable: the records sharing any one margin keep their relative order. */
  lemma {:induction false} SortByMarginStable(s: seq<JobWithMargin>, k: real)
    ensures Filter(SortByMargin(s), MarginIs(k)) == Filter(s, MarginIs(k))
    decreases |s|
  {
    if |s| > 0 {
      SortByMarginStable(s[1..], k);
      InsertByMarginStable(s[0], SortByMargin(s[1..]), k);
      FilterCons(s[0], s[1..], MarginIs(k));
      assert s == [s[0]] + s[1..];
    }
  }

  // ---------------------------------------------------------------- best and worst

  /** `sortedByMargin[0]`, undefined for an empty month. */
  function BestJob(ms: seq<JobWithMargin>): (b: Option<JobWithMargin>)
    ensures b.Some? <==> |ms| > 0
  {
    var r := SortByMargin(ms);
    assert |r| == |multiset(r)| == |ms|;
    if |r| == 0 then None else Some(r[0])
  }

  /** `sortedByMargin[sortedByMargin.length - 1]`, undefined for an empty month. */
  function WorstJob(ms: seq<JobWithMargin>): (w: Option<JobWithMargin>)
    ensures w.Some? <==> |ms| > 0
  {
    var r := SortByMargin(ms);
    assert |r| == |multiset(r)| == |ms|;
    if |r| == 0 then None else Some(r[|r| - 1])
  }

  /** The worst card is drawn only when there is a worst job whose id differs from the
      best job's. */
  predicate ShowWorst(ms: seq<JobWithMargin>) {
    WorstJob(ms).Some? && BestJob(ms).Some? && WorstJob(ms).value.job.id != BestJob(ms).value.job.id
  }

  lemma SortedMembers(ms: seq<JobWithMargin>)
    ensures |SortByMargin(ms)| == |ms|
    ensures forall m :: m in SortByMargin(ms) <==> m in ms
  {
    var r := SortByMargin(ms);
    assert |r| == |multiset(r)| == |ms|;
    forall m ensures m in r <==> m in ms {
      assert m in r <==> m in multiset(r);
      assert m in ms <==> m in multiset(ms);
    }
  }

  /** The best job is a month job with the highest margin, and the first such job in the
      listed order. */
  lemma BestIsFirstMaximum(ms: seq<JobWithMargin>)
    requires |ms| > 0
    ensures var b := BestJob(ms).value;
      && b in ms
      && (forall m :: m in ms ==> m.margin <= b.margin)
      && exists i :: 0 <= i < |ms| && ms[i] == b && forall j :: 0 <= j < i ==> ms[j].margin < b.margin
  {
    var r := SortByMargin(ms);
    SortedMembers(ms);
    var b := r[0];
    forall m | m in ms ensures m.margin <= b.margin {
      assert m in r;
      var k :| 0 <= k < |r| && r[k] == m;
    }
    var p := MarginIs(b.margin);
    SortByMarginStable(ms, b.margin);
    assert r == [r[0]] + r[1..];
    FilterCons(r[0], r[1..], p);
    assert Filter(ms, p)[0] == b;
    var i := FilterFirst(ms, p);
    forall j | 0 <= j < i ensures ms[j].margin < b.margin {
      assert ms[j] in ms;
    }
  }

  /** A filter that keeps the last element ends with it. */
  lemma FilterKeepsLast<T>(s: seq<T>, p: T -> bool)
    requires |s| > 0 && p(s[|s| - 1])
    ensures Filter(s, p) != [] && Filter(s, p)[|Filter(s, p)| - 1] == s[|s| - 1]
  {
    var n := |s|;
    assert s == s[..n - 1] + [s[n - 1]];
    FilterAppend(s[..n - 1], [s[n - 1]], p);
    FilterCons(s[n - 1], [], p);
  }

  /** The worst job is a month job with the lowest margin, and the last such job in the
      listed order: ties at the bottom go to the later job. */
  lemma WorstIsLastMinimum(ms: seq<JobWithMargin>)
    requires |ms| > 0
    ensures var w := WorstJob(ms).value;
      && w in ms
      && (forall m :: m in ms ==> w.margin <= m.margin)
      && exists i :: 0 <= i < |ms| && ms[i] == w && forall j :: i < j < |ms| ==> w.margin < ms[j].margin
  {
    var w := SortedLastIsMinimum(ms);
    var p := MarginIs(w.margin);
    SortedLastTies(ms, w);
    var i := FilterLast(ms, p);
    forall j | i < j < |ms| ensures w.margin < ms[j].margin {
      assert ms[j] in ms;
    }
  }

  /** The last job of the sorted list has the lowest margin. */
  lemma SortedLastIsMinimum(ms: seq<JobWithMargin>) returns (w: JobWithMargin)
    requires |ms| > 0
    ensures w == WorstJob(ms).value && w == SortByMargin(ms)[|ms| - 1]
    ensures w in ms && forall m :: m in ms ==> w.margin <= m.margin
  {
    var r := SortByMargin(ms);
    SortedMembers(ms);
    w := r[|r| - 1];
    assert w in r;
    forall m | m in ms ensures w.margin <= m.margin {
      assert m in r;
      var k :| 0 <= k < |r| && r[k] == m;
    }
  }

  /** Among the jobs sharing the lowest margin, the sorted list's last is the source's last. */
  lemma SortedLastTies(ms: seq<JobWithMargin>, w: JobWithMargin)
    requires |ms| > 0 && w == SortByMargin(ms)[|ms| - 1]
    ensures Filter(ms, MarginIs(w.margin)) != []
    ensures Filter(ms, MarginIs(w.margin))[|Filter(ms, MarginIs(w.margin))| - 1] == w
  {
    var r := SortByMargin(ms);
    SortedMembers(ms);
    SortByMarginStable(ms, w.margin);
    FilterKeepsLast(r, MarginIs(w.margin));
  }

  /** A month with a single job shows only the best card. */
  lemma SingleJobShowsOnlyBest(ms: seq<JobWithMargin>)
    requires |ms| == 1
    ensures BestJob(ms).Some? && !ShowWorst(ms)
  {
    SortedMembers(ms);
  }

  predicate IdsDistinct(s: seq<JobWithMargin>) {
    forall i, j :: 0 <= i < j < |s| ==> s[i].job.id != s[j].job.id
  }

  lemma {:induction false} DistinctOccursOnce(s: seq<JobWithMargin>, v: JobWithMargin)
    requires IdsDistinct(s)
    ensures multiset(s)[v] <= 1
    decreases |s|
  {
    if |s| > 0 {
      var front := s[..|s| - 1];
      assert s == front + [s[|s| - 1]];
      assert IdsDistinct(front) by {
        forall i, j | 0 <= i < j < |front| ensures front[i].job.id != front[j].job.id {
          assert front[i] == s[i] && front[j] == s[j];
        }
      }
      DistinctOccursOnce(front, v);
      if v == s[|s| - 1] {
        assert v !in front by {
          forall k | 0 <= k < |front| ensures front[k] != v {
            assert front[k] == s[k];
          }
        }
      }
    }
  }

  /** A value found at two positions occurs at least twice. */
  lemma TwoPositions<T>(s: seq<T>, a: int, c: int)
    requires 0 <= a < c < |s| && s[a] == s[c]
    ensures multiset(s)[s[a]] >= 2
  {
    assert s == s[..c] + s[c..];
    assert s[a] in s[..c];
    assert s[c] in s[c..];
  }

  /** With two or more jobs of distinct ids, both cards are shown. */
  lemma DistinctJobsShowWorst(ms: seq<JobWithMargin>)
    requires |ms| >= 2 && IdsDistinct(ms)
    ensures ShowWorst(ms)
  {
    var r := SortByMargin(ms);
    SortedMembers(ms);
    var n := |r|;
    var b, w := r[0], r[n - 1];
    if b.job.id == w.job.id {
      assert b in r && w in r;
      assert b in ms && w in ms;
      var i :| 0 <= i < |ms| && ms[i] == b;
      var j :| 0 <= j < |ms| && ms[j] == w;
      assert i == j;
      TwoPositions(r, 0, n - 1);
      DistinctOccursOnce(ms, b);
      assert false;
    }
  }

  // ---------------------------------------------------------------- month selector

  /** Months are counted as `year * 12 + monthIndex`, with the month index from 0. Dafny's
      `/` and `%` round towards negative infinity here, as `new Date(y, m, 1)` rolls a
      negative month back into the previous year. */
  function YearOf(key: int): int { key / 12 }

  function MonthNumber(key: int): (m: int)
    ensures 1 <= m <= 12
  {
    key % 12 + 1
  }

  /** The two-digit month, `String(month).padStart(2, '0')` for months 1 to 12
      (see `MonthDigitsPadded`). */
  function MonthDigits(month: int): (d: string)
    requires 1 <= month <= 12
    ensures |d| == 2
  {
    if month < 10 then ['0', DigitChar(month)] else ['1', DigitChar(month - 10)]
  }

  lemma MonthDigitsPadded(month: int)
    requires 1 <= month <= 12
    ensures MonthDigits(month) == PadStart2(NatToString(month))
  {
    if month >= 10 {
      assert NatToString(month) == NatToString(month / 10) + [DigitChar(month % 10)];
      assert month / 10 == 1 && month % 10 == month - 10;
      assert NatToString(1) == [DigitChar(1)];
    }
  }

  function YearText(key: int): string { IntToString(YearOf(key)) }

  function MonthText(key: int): string { MonthDigits(MonthNumber(key)) }

  /** `${d.getFullYear()}-${String(d.getMonth() + 1).padStart(2, '0')}` */
  function MonthValue(key: int): string {
    YearText(key) + "-" + MonthText(key)
  }

  /** A month value ends in its two month digits. */
  lemma MonthValueSuffix(key: int)
    ensures |MonthValue(key)| >= 2 && MonthValue(key)[|MonthValue(key)| - 2..] == MonthDigits(MonthNumber(key))
  {
    var v := MonthValue(key);
    assert v[|v| - 2..] == MonthDigits(MonthNumber(key));
  }

  /** The initial `selectedMonth`, from the current year and month index. */
  function CurrentMonth(year: int, month0: int): string
    requires 0 <= month0 < 12
  {
    IntToString(year) + "-" + MonthDigits(month0 + 1)
  }

  lemma FirstEntryIsCurrentMonth(year: int, month0: int)
    requires 0 <= month0 < 12
    ensures MonthValue(year * 12 + month0) == CurrentMonth(year, month0)
  {
    assert (year * 12 + month0) / 12 == year && (year * 12 + month0) % 12 == month0;
  }

  /** The month before: the previous month number, and December of the previous year
      after January. */
  lemma PreviousMonth(key: int)
    ensures MonthNumber(key) == 1 ==> MonthNumber(key - 1) == 12 && YearOf(key - 1) == YearOf(key) - 1
    ensures MonthNumber(key) > 1 ==> MonthNumber(key - 1) == MonthNumber(key) - 1 && YearOf(key - 1) == YearOf(key)
  {
    var y, m := key / 12, key % 12;
    assert key == y * 12 + m;
    if m == 0 {
      assert key - 1 == (y - 1) * 12 + 11;
    } else {
      assert key - 1 == y * 12 + (m - 1);
    }
  }

  lemma MonthDigitsInjective(a: int, b: int)
    requires 1 <= a <= 12 && 1 <= b <= 12 && MonthDigits(a) == MonthDigits(b)
    ensures a == b
  {
    assert MonthDigits(a)[0] == MonthDigits(b)[0] && MonthDigits(a)[1] == MonthDigits(b)[1];
  }

  lemma MonthNumbersDiffer(key: int, i: int, j: int)
    requires 0 <= i < j < 12
    ensures MonthNumber(key - i) != MonthNumber(key - j)
  {
    var a, b := key - i, key - j;
    var qa, qb := a / 12, b / 12;
    assert a == qa * 12 + a % 12 && b == qb * 12 + b % 12;
  }

  /** Keys less than twelve months apart name different months. */
  lemma DistinctWithinAYear(key: int, i: int, j: int)
    requires 0 <= i < j < 12
    ensures MonthValue(key - i) != MonthValue(key - j)
  {
    MonthNumbersDiffer(key, i, j);
    var va, vb := MonthValue(key - i), MonthValue(key - j);
    MonthValueSuffix(key - i);
    MonthValueSuffix(key - j);
    if va == vb {
      assert va[|va| - 2..] == vb[|vb| - 2..];
      MonthDigitsInjective(MonthNumber(key - i), MonthNumber(key - j));
    }
  }

  /** The month `i` months before the month `key`: `new Date(year, month - i, 1)`. */
  function MonthsBefore(key: int, i: int): string { MonthValue(key - i) }

  lemma TwelveDistinct(key: int)
    ensures forall i, j :: 0 <= i < j < 12 ==> MonthsBefore(key, i) != MonthsBefore(key, j)
  {
    forall i, j | 0 <= i < j < 12 ensures MonthsBefore(key, i) != MonthsBefore(key, j) {
      DistinctWithinAYear(key, i, j);
    }
  }

  /** A selector entry; its display label is not modelled. */
  datatype MonthOption = MonthOption(value: string)

  lemma SelectorStartsAtCurrentMonth(year: int, month0: int, months: seq<MonthOption>)
    requires 0 <= month0 < 12 && |months| == 12
    requires months[0].value == MonthsBefore(year * 12 + month0, 0)
    ensures months[0].value == CurrentMonth(year, month0)
  {
    FirstEntryIsCurrentMonth(year, month0);
    assert year * 12 + month0 - 0 == year * 12 + month0;
  }

  lemma SelectorDistinct(key: int, months: seq<MonthOption>)
    requires |months| == 12
    requires forall i :: 0 <= i < 12 ==> months[i].value == MonthsBefore(key, i)
    ensures forall i, j :: 0 <= i < j < 12 ==> months[i].value != months[j].value
  {
    TwelveDistinct(key);
  }

  /** The selector: the current month and the eleven before it, newest first. */
  method MonthOptions(year: int, month0: int) returns (months: seq<MonthOption>)
    ensures |months| == 12
    ensures forall i :: 0 <= i < 12 ==> months[i].value == MonthsBefore(year * 12 + month0, i)
    ensures 0 <= month0 < 12 ==> months[0].value == CurrentMonth(year, month0)
    ensures forall i, j :: 0 <= i < j < 12 ==> months[i].value != months[j].value
  {
    var key := year * 12 + month0;
    months := [];
    for i := 0 to 12
      invariant |months| == i
      invariant forall k :: 0 <= k < i ==> months[k] == MonthOption(MonthsBefore(key, k))
    {
      months := months + [MonthOption(MonthsBefore(key, i))];
    }
    if 0 <= month0 < 12 {
      SelectorStartsAtCurrentMonth(year, month0, months);
    }
    SelectorDistinct(key, months);
  }

  // ---------------------------------------------------------------- page state

  /** The page's state: the fetched records, the loading flag and the selected month. */
  class ReportsPage {
    var allJobs: seq<JobWithMargin>
    var loading: bool
    var selectedMonth: string

    constructor (year: int, month0: int)
      requires 0 <= month0 < 12
      ensures allJobs == [] && loading && selectedMonth == CurrentMonth(year, month0)
    {
      allJobs := [];
      loading := true;
      selectedMonth := CurrentMonth(year, month0);
    }

    /** `fetchData`: loading is raised, and without a user nothing else happens; with one,
        the records are the caller's newest-first jobs joined with their entries. */
    method FetchData(user: Option<string>, reader: Reader)
      modifies this
      ensures user.None? ==> loading && allJobs == old(allJobs)
      ensures user.Some? ==> !loading && allJobs == JoinFetched(reader(user.value, NewestFirst))
      ensures selectedMonth == old(selectedMonth)
    {
      loading := true;
      if user.None? {
        return;
      }
      allJobs := JoinFetched(reader(user.value, NewestFirst));
      loading := false;
    }

    method SelectMonth(month: string)
      modifies this
      ensures selectedMonth == month && allJobs == old(allJobs) && loading == old(loading)
    {
      selectedMonth := month;
    }

    function Shown(): seq<JobWithMargin>
      reads this
    {
      MonthJobs(allJobs, selectedMonth)
    }
  }

  function JobInMonth(month: string): Job -> bool {
    (j: Job) => Prefix(j.createdAt, 7) == month
  }

  lemma JobsOfCons(m: JobWithMargin, ms: seq<JobWithMargin>)
    ensures JobsOf([m] + ms) == [m.job] + JobsOf(ms)
  {
  }

  /** The month filter on derived records is the month filter on their jobs. */
  lemma {:induction false} JobsOfMonth(ms: seq<JobWithMargin>, month: string)
    ensures JobsOf(MonthJobs(ms, month)) == Filter(JobsOf(ms), JobInMonth(month))
    decreases |ms|
  {
    if |ms| > 0 {
      JobsOfMonth(ms[1..], month);
      MonthJobsHead(ms, month);
      assert JobsOf(ms)[1..] == JobsOf(ms[1..]);
      var rest := MonthJobs(ms[1..], month);
      if InMonth(month)(ms[0]) {
        JobsOfCons(ms[0], rest);
      }
    }
  }

  lemma MonthJobsHead(ms: seq<JobWithMargin>, month: string)
    requires |ms| > 0
    ensures MonthJobs(ms, month) == (if InMonth(month)(ms[0]) then [ms[0]] else []) + MonthJobs(ms[1..], month)
  {
  }

  /** Against the honest store, a month's report holds exactly the caller's jobs created
      in that month, newest first. */
  lemma ReportIsOwnMonth(db: Db, uid: string, month: string)
    ensures var shown := MonthJobs(JoinFetched(OwnerReader(db)(uid, NewestFirst)), month);
      && (forall j :: j in JobsOf(shown) <==> j in db.jobs && j.userId == uid && Prefix(j.createdAt, 7) == month)
      && NewestFirstOrdered(JobsOf(shown))
  {
    ReadIsOwnerScoped(db, uid, NewestFirst);
    var f := OwnerReader(db)(uid, NewestFirst);
    var ms := JoinFetched(f);
    assert JobsOf(ms) == f.jobs.value;
    JobsOfMonth(ms, month);
    FilterMembers(f.jobs.value, JobInMonth(month));
    FilterKeepsOrder(f.jobs.value, JobInMonth(month));
  }

  /** A filter of a newest-first list is newest first. */
  lemma {:induction false} FilterKeepsOrder(js: seq<Job>, p: Job -> bool)
    requires NewestFirstOrdered(js)
    ensures NewestFirstOrdered(Filter(js, p))
    decreases |js|
  {
    if |js| > 0 {
      TailOrdered(js);
      FilterKeepsOrder(js[1..], p);
      var rest := Filter(js[1..], p);
      if p(js[0]) {
        forall y | y in rest ensures LexLe(y.createdAt, js[0].createdAt) {
          HeadIsNewest(js, y);
        }
        ConsOrdered(js[0], rest);
        assert [js[0]] + rest == Filter(js, p);
      } else {
        assert rest == Filter(js, p);
      }
    }
  }

  lemma TailOrdered(js: seq<Job>)
    requires |js| > 0 && NewestFirstOrdered(js)
    ensures NewestFirstOrdered(js[1..])
  {
    forall i, j | 0 <= i < j < |js[1..]| ensures LexLe(js[1..][j].createdAt, js[1..][i].createdAt) {
      assert js[1..][i] == js[i + 1] && js[1..][j] == js[j + 1];
    }
  }

  lemma HeadIsNewest(js: seq<Job>, y: Job)
    requires |js| > 0 && NewestFirstOrdered(js) && y in js[1..]
    ensures LexLe(y.createdAt, js[0].createdAt)
  {
    var k :| 0 <= k < |js[1..]| && js[1..][k] == y;
    assert js[k + 1] == y;
  }
}
