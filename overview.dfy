/** The overview tab: the spending total and the category pie chart computed from the ledger's
    per-category summary, and the spending-over-time series computed from the expense list. */
module Overview {
  import opened Wrappers
  import opened Seqs
  import opened Runtime
  import opened Records
  import opened OrderedMaps

  // ----- Summary cards and pie chart -----

  function AmountOf(t: CategoryTotal): real {
    t.amount
  }

  /** `reduce((acc, [_, amount]) => acc + amount, acc)`: the amounts added from left to right. */
  function FoldAmounts(acc: real, s: seq<CategoryTotal>): real
    decreases |s|
  {
    if s == [] then acc else FoldAmounts(acc + s[0].amount, s[1..])
  }

  /** `totalSpending`: the reduced summary, and 0 while there is no summary. The trailing `|| 0`
      only maps a zero (or NaN) total to 0, which changes nothing for exact amounts. */
  function TotalSpending(summary: Option<seq<CategoryTotal>>): real {
    match summary
    case None => 0.0
    case Some(s) => FoldAmounts(0.0, s)
  }

  lemma {:induction false} FoldIsSum(acc: real, s: seq<CategoryTotal>)
    ensures FoldAmounts(acc, s) == acc + SumBy(s, AmountOf)
    decreases |s|
  {
    if s != [] {
      FoldIsSum(acc + s[0].amount, s[1..]);
    }
  }

  /** The total is the sum of all the summary's amounts, and 0 without a summary. */
  lemma TotalIsSum(summary: Option<seq<CategoryTotal>>)
    ensures summary.None? ==> TotalSpending(summary) == 0.0
    ensures summary.Some? ==> TotalSpending(summary) == SumBy(summary.value, AmountOf)
  {
    if summary.Some? {
      FoldIsSum(0.0, summary.value);
    }
  }

  /** One slice of the pie chart: the category (whose label and colour are fixed tables) and its
      amount. */
  datatype PieSlice = PieSlice(category: Category, value: real)

  function SliceValue(p: PieSlice): real {
    p.value
  }

  predicate IsPositive(t: CategoryTotal) {
    t.amount > 0.0
  }

  /** `map(([category, amount]) => ({ name, value: amount, color }))`. */
  function Slices(s: seq<CategoryTotal>): (r: seq<PieSlice>)
    ensures |r| == |s|
    ensures forall i :: 0 <= i < |s| ==> r[i] == PieSlice(s[i].category, s[i].amount)
  {
    seq(|s|, i requires 0 <= i < |s| => PieSlice(s[i].category, s[i].amount))
  }

  /** `pieChartData`: a slice for each summary entry with a positive amount; none without a summary. */
  function PieChartData(summary: Option<seq<CategoryTotal>>): (r: seq<PieSlice>)
    ensures summary.None? ==> r == []
    ensures summary.Some? ==> |r| <= |summary.value|
  {
    match summary
    case None => []
    case Some(s) => Slices(Filter(s, IsPositive))
  }

  /** The "Active categories" card: how many slices the pie has. */
  function ActiveCategories(summary: Option<seq<CategoryTotal>>): (n: nat)
    ensures summary.None? ==> n == 0
    ensures summary.Some? ==> n <= |summary.value|
    ensures summary.Some? ==> n == |Filter(summary.value, IsPositive)|
  {
    |PieChartData(summary)|
  }

  /** The slices are exactly the entries with a positive amount: every slice comes from such an
      entry, and every such entry has its slice. */
  lemma PieSlicesExact(s: seq<CategoryTotal>, c: Category, v: real)
    ensures PieSlice(c, v) in PieChartData(Some(s)) <==> CategoryTotal(c, v) in s && v > 0.0
  {
    var kept := Filter(s, IsPositive);
    FilterMembers(s, IsPositive);
    if PieSlice(c, v) in Slices(kept) {
      var i :| 0 <= i < |kept| && Slices(kept)[i] == PieSlice(c, v);
      assert kept[i] == CategoryTotal(c, v);
    }
    if CategoryTotal(c, v) in kept {
      var i :| 0 <= i < |kept| && kept[i] == CategoryTotal(c, v);
      assert Slices(kept)[i] == PieSlice(c, v);
    }
  }

  /** The slices keep the summary's order: the slices of a concatenation are the slices of the
      first part followed by those of the second. */
  lemma PieKeepsOrder(a: seq<CategoryTotal>, b: seq<CategoryTotal>)
    ensures PieChartData(Some(a + b)) == PieChartData(Some(a)) + PieChartData(Some(b))
  {
    FilterAppend(a, b, IsPositive);
  }

  lemma {:induction false} SlicesSum(s: seq<CategoryTotal>)
    ensures SumBy(Slices(s), SliceValue) == SumBy(s, AmountOf)
    decreases |s|
  {
    if s != [] {
      SlicesSum(s[1..]);
      assert Slices(s)[1..] == Slices(s[1..]);
    }
  }

  /** The total splits into what the pie shows and what it leaves out (the entries at zero or
      below): the pie covers the whole total exactly when the left-out entries sum to zero. */
  lemma TotalSplitsOverPie(s: seq<CategoryTotal>)
    ensures TotalSpending(Some(s))
      == SumBy(PieChartData(Some(s)), SliceValue) + SumBy(Filter(s, Not(IsPositive)), AmountOf)
  {
    TotalIsSum(Some(s));
    SumByFilterSplit(s, IsPositive, AmountOf);
    SlicesSum(Filter(s, IsPositive));
  }

  // ----- Time window -----

  /** The period selector of the over-time chart. */
  datatype TimeRange = Daily | Weekly | Monthly

  const DayMs: int := 24 * 60 * 60 * 1000

  /** How far back each period reaches: 7 days, 4 weeks, or 12 months of 30 days. */
  function WindowMs(range: TimeRange): (w: int)
    ensures w % DayMs == 0 && 7 * DayMs <= w <= 360 * DayMs
  {
    match range
    case Daily => 7 * DayMs
    case Weekly => 4 * 7 * DayMs
    case Monthly => 12 * 30 * DayMs
  }

  /** The filter of `timeBasedData`: `now - Number(date) / 1_000_000 < window`, on the fractional
      millisecond value of the stored timestamp. */
  predicate InWindow(range: TimeRange, now: int, e: ExpenseRecord) {
    now as real - MillisOf(e.dateNs) < WindowMs(range) as real
  }

  function WindowFilter(range: TimeRange, now: int): ExpenseRecord -> bool {
    e => InWindow(range, now, e)
  }

  /** The records the chart looks at, in the order the ledger returned them. */
  function Recent(expenses: seq<ExpenseRecord>, range: TimeRange, now: int): seq<ExpenseRecord> {
    Filter(expenses, WindowFilter(range, now))
  }

  /** A record is kept exactly when it is in the list and inside the window; the kept records keep
      their relative order. */
  lemma RecentExactly(a: seq<ExpenseRecord>, b: seq<ExpenseRecord>, range: TimeRange, now: int, e: ExpenseRecord)
    ensures e in Recent(a, range, now) <==> e in a && InWindow(range, now, e)
    ensures Recent(a + b, range, now) == Recent(a, range, now) + Recent(b, range, now)
  {
    FilterMembers(a, WindowFilter(range, now));
    FilterAppend(a, b, WindowFilter(range, now));
  }

  /** For a record stored from a millisecond instant `ms` (nanoseconds = ms × 1,000,000), the
      division by 1,000,000 recovers `ms`, so the test is `now - ms < window`: strict, so a record
      exactly one window old is left out, while a record dated after `now` is always kept. */
  lemma IngestedRecordInWindow(range: TimeRange, now: int, ms: int, e: ExpenseRecord)
    requires e.dateNs == MillisToNanos(ms)
    ensures InWindow(range, now, e) <==> now - ms < WindowMs(range)
    ensures ms == now - WindowMs(range) ==> !InWindow(range, now, e)
    ensures ms == now - WindowMs(range) + 1 ==> InWindow(range, now, e)
    ensures ms >= now ==> InWindow(range, now, e)
  {
    NanosRoundTrip(ms);
  }

  // ----- Period keys -----

  /** `getDay()` of a local day counted from 1 January 1970, a Thursday: 0 is Sunday. */
  function Weekday(day: int): (w: int)
    ensures 0 <= w < 7
  {
    (day + 4) % 7
  }

  /** `setDate(getDate() - getDay())`: the Sunday that starts the week of `day`. */
  function WeekStart(day: int): (r: int)
    ensures Weekday(r) == 0 && r <= day && day - r < 7
  {
    day - Weekday(day)
  }

  /** The start of a week is the only Sunday at most six days before a day, so all seven days from
      one Sunday to the next Saturday share it. */
  lemma WeekStartUnique(day: int, sunday: int)
    requires Weekday(sunday) == 0 && sunday <= day < sunday + 7
    ensures WeekStart(day) == sunday
  {
    var w := WeekStart(day);
    assert (w + 4) % 7 == 0 && (sunday + 4) % 7 == 0;
    assert (w - sunday) % 7 == 0 by {
      assert w + 4 == 7 * ((w + 4) / 7);
      assert sunday + 4 == 7 * ((sunday + 4) / 7);
      assert w - sunday == 7 * ((w + 4) / 7 - (sunday + 4) / 7);
    }
  }

  /** The label of the bar a record falls into: its local month and day, "Week of " and the month
      and day of its week's Sunday, or its local month and year. */
  function BucketKey(range: TimeRange, dateNs: int, js: Builtins): string {
    var day := js.localDay(NanosToMillis(dateNs));
    match range
    case Daily => js.monthDay(day)
    case Weekly => "Week of " + js.monthDay(WeekStart(day))
    case Monthly => js.yearMonth(day)
  }

  /** Two records on days of the same Sunday-to-Saturday week share their weekly bar. */
  lemma SameWeekSameBar(dateNs1: int, dateNs2: int, js: Builtins)
    requires var d1, d2 := js.localDay(NanosToMillis(dateNs1)), js.localDay(NanosToMillis(dateNs2));
      WeekStart(d1) <= d2 < WeekStart(d1) + 7
    ensures BucketKey(Weekly, dateNs1, js) == BucketKey(Weekly, dateNs2, js)
  {
    var d1, d2 := js.localDay(NanosToMillis(dateNs1)), js.localDay(NanosToMillis(dateNs2));
    WeekStartUnique(d2, WeekStart(d1));
  }

  /** A record reduced to what the grouping reads: its period label and its amount. */
  datatype Keyed = Keyed(key: string, amount: real)

  function KeyedAmount(k: Keyed): real {
    k.amount
  }

  function KeyedRecords(records: seq<ExpenseRecord>, range: TimeRange, js: Builtins): (r: seq<Keyed>)
    ensures |r| == |records|
    ensures forall i :: 0 <= i < |r| ==> r[i] == Keyed(BucketKey(range, records[i].dateNs, js), records[i].amount)
  {
    seq(|records|, i requires 0 <= i < |records| => Keyed(BucketKey(range, records[i].dateNs, js), records[i].amount))
  }

  // ----- Grouping -----

  /** The labels in the order a scan from the first record meets them for the first time. */
  function FirstSeenKeys(s: seq<Keyed>): (r: seq<string>)
    ensures Distinct(r)
    ensures forall k :: k in r <==> exists i :: 0 <= i < |s| && s[i].key == k
    decreases |s|
  {
    if s == [] then []
    else
      var front := s[..|s| - 1];
      var p := FirstSeenKeys(front);
      if s[|s| - 1].key in p then p else p + [s[|s| - 1].key]
  }

  /** The amount summed under `key`, records taken in order. */
  function KeyTotal(s: seq<Keyed>, key: string): real
    decreases |s|
  {
    if s == [] then 0.0
    else KeyTotal(s[..|s| - 1], key) + (if s[|s| - 1].key == key then s[|s| - 1].amount else 0.0)
  }

  /** The bars for the labels `keys`, each with its total over `s`. */
  function BucketsOf(keys: seq<string>, s: seq<Keyed>): (r: seq<Bucket>)
    ensures |r| == |keys|
    ensures forall i :: 0 <= i < |r| ==> r[i] == Bucket(keys[i], KeyTotal(s, keys[i]))
  {
    seq(|keys|, i requires 0 <= i < |keys| => Bucket(keys[i], KeyTotal(s, keys[i])))
  }

  /** What the `Map` holds after the `forEach`, in iteration order: one bar per label, in the order
      the labels were first met. */
  function Grouped(s: seq<Keyed>): seq<Bucket> {
    BucketsOf(FirstSeenKeys(s), s)
  }

  function HasKey(key: string): Keyed -> bool {
    (k: Keyed) => k.key == key
  }

  /** A bar's total is the sum of the amounts of exactly the records that carry its label. */
  lemma {:induction false} KeyTotalIsFilteredSum(s: seq<Keyed>, key: string)
    ensures KeyTotal(s, key) == SumBy(Filter(s, HasKey(key)), KeyedAmount)
    decreases |s|
  {
    if s != [] {
      var front, last := s[..|s| - 1], s[|s| - 1];
      KeyTotalIsFilteredSum(front, key);
      assert s == front + [last];
      FilterAppend(front, [last], HasKey(key));
      SumByAppend(Filter(front, HasKey(key)), Filter([last], HasKey(key)), KeyedAmount);
    }
  }

  /** A label no record carries has nothing summed under it. */
  lemma {:induction false} KeyTotalUnseen(s: seq<Keyed>, key: string)
    requires key !in FirstSeenKeys(s)
    ensures KeyTotal(s, key) == 0.0
    decreases |s|
  {
    if s != [] {
      var front := s[..|s| - 1];
      KeyTotalUnseen(front, key);
    }
  }

  /** One more record adds its amount to its own label's total only. */
  lemma KeyTotalSnoc(s: seq<Keyed>, e: Keyed, key: string)
    ensures KeyTotal(s + [e], key) == KeyTotal(s, key) + (if e.key == key then e.amount else 0.0)
  {
    assert (s + [e])[..|s|] == s;
  }

  lemma BucketsOfSnoc(keys: seq<string>, key: string, s: seq<Keyed>)
    ensures BucketsOf(keys + [key], s) == BucketsOf(keys, s) + [Bucket(key, KeyTotal(s, key))]
  {
  }

  /** Adding a record to the data adds its amount to the sum of the bars exactly when its label is
      among them (each label is there once). */
  lemma {:induction false} BucketsSumSnoc(keys: seq<string>, s: seq<Keyed>, e: Keyed)
    requires Distinct(keys)
    ensures SumBy(BucketsOf(keys, s + [e]), BucketAmount)
      == SumBy(BucketsOf(keys, s), BucketAmount) + (if e.key in keys then e.amount else 0.0)
    decreases |keys|
  {
    if keys != [] {
      var front, last := keys[..|keys| - 1], keys[|keys| - 1];
      assert keys == front + [last];
      BucketsSumSnoc(front, s, e);
      BucketsOfSnoc(front, last, s + [e]);
      BucketsOfSnoc(front, last, s);
      SumByAppend(BucketsOf(front, s + [e]), [Bucket(last, KeyTotal(s + [e], last))], BucketAmount);
      SumByAppend(BucketsOf(front, s), [Bucket(last, KeyTotal(s, last))], BucketAmount);
      KeyTotalSnoc(s, e, last);
      assert e.key in keys <==> e.key in front || e.key == last;
      assert e.key == last ==> e.key !in front;
    }
  }

  function BucketAmount(b: Bucket): real {
    b.amount
  }

  /** Grouping loses and invents nothing: the bars add up to the total of the records grouped. */
  lemma {:induction false} GroupedConservesTotal(s: seq<Keyed>)
    ensures SumBy(Grouped(s), BucketAmount) == SumBy(s, KeyedAmount)
    decreases |s|
  {
    if s != [] {
      var front, e := s[..|s| - 1], s[|s| - 1];
      assert s == front + [e];
      GroupedConservesTotal(front);
      SumByAppend(front, [e], KeyedAmount);
      var keys := FirstSeenKeys(front);
      BucketsSumSnoc(keys, front, e);
      if e.key !in keys {
        BucketsOfSnoc(keys, e.key, s);
        SumByAppend(BucketsOf(keys, s), [Bucket(e.key, KeyTotal(s, e.key))], BucketAmount);
        KeyTotalSnoc(front, e, e.key);
        KeyTotalUnseen(front, e.key);
      }
    }
  }

  /** Labels met earlier keep their earlier place whatever comes later: the labels of a prefix of
      the data are a prefix of the labels of the whole. */
  lemma {:induction false} FirstSeenPrefix(s: seq<Keyed>, t: seq<Keyed>)
    ensures var p := FirstSeenKeys(s);
      |p| <= |FirstSeenKeys(s + t)| && FirstSeenKeys(s + t)[..|p|] == p
    decreases |t|
  {
    if t == [] {
      assert s + t == s;
    } else {
      var front := t[..|t| - 1];
      FirstSeenPrefix(s, front);
      assert (s + t)[..|s + t| - 1] == s + front;
    }
  }

  /** Bars appear in the order their labels are first met, not in label or date order: `Jan`,
      `Feb`, `Jan` gives the bar for `Jan` (with both January amounts) before the bar for `Feb`,
      whichever label sorts first. */
  lemma ScanOrderNotSorted(e1: Keyed, e2: Keyed, e3: Keyed)
    requires e1.key != e2.key && e3.key == e1.key
    ensures Grouped([e1, e2, e3]) == [Bucket(e1.key, e1.amount + e3.amount), Bucket(e2.key, e2.amount)]
  {
    var s := [e1, e2, e3];
    assert s[..2] == [e1, e2];
    assert [e1, e2][..1] == [e1];
    assert [e1][..0] == [];
    assert FirstSeenKeys([e1]) == [e1.key];
    assert FirstSeenKeys([e1, e2]) == [e1.key, e2.key];
    assert FirstSeenKeys(s) == [e1.key, e2.key];
    assert KeyTotal([e1], e1.key) == e1.amount;
    assert KeyTotal([e1], e2.key) == 0.0;
    assert KeyTotal([e1, e2], e1.key) == e1.amount;
    assert KeyTotal([e1, e2], e2.key) == e2.amount;
  }

  // ----- The series -----

  /** The chart shows at most this many bars. */
  const MaxBars: nat := 10

  /** `slice(-n)`: the last `n` elements, or all of them when there are fewer. */
  function KeepLast<T>(s: seq<T>, n: nat): (r: seq<T>)
    ensures |r| == if |s| <= n then |s| else n
    ensures r == s[|s| - |r|..]
  {
    if |s| <= n then s else s[|s| - n..]
  }

  /** `timeBasedData`: the bars for the records inside the window, in first-met order, the last
      `MaxBars` of them; no bars while there is no expense list. */
  function Series(expenses: Option<seq<ExpenseRecord>>, range: TimeRange, now: int, js: Builtins): seq<Bucket> {
    match expenses
    case None => []
    case Some(es) => KeepLast(Grouped(KeyedRecords(Recent(es, range, now), range, js)), MaxBars)
  }

  /** No period label occurs on two bars. */
  predicate DistinctPeriods(bars: seq<Bucket>) {
    forall i, j :: 0 <= i < j < |bars| ==> bars[i].period != bars[j].period
  }

  /** Each label has one bar after grouping. */
  lemma GroupedDistinct(keyed: seq<Keyed>)
    ensures DistinctPeriods(Grouped(keyed))
  {
    var keys := FirstSeenKeys(keyed);
    var grouped := Grouped(keyed);
    forall i, j | 0 <= i < j < |grouped| ensures grouped[i].period != grouped[j].period {
      assert grouped[i].period == keys[i] && grouped[j].period == keys[j];
    }
  }

  /** Keeping the last bars keeps their labels distinct. */
  lemma KeepLastDistinct(bars: seq<Bucket>, n: nat)
    requires DistinctPeriods(bars)
    ensures DistinctPeriods(KeepLast(bars, n))
  {
    SuffixDistinct(bars, |bars| - |KeepLast(bars, n)|);
  }

  lemma SuffixDistinct(bars: seq<Bucket>, off: nat)
    requires DistinctPeriods(bars) && off <= |bars|
    ensures DistinctPeriods(bars[off..])
  {
    var kept := bars[off..];
    forall i, j | 0 <= i < j < |kept| ensures kept[i].period != kept[j].period {
      assert kept[i] == bars[off + i];
      assert kept[j] == bars[off + j];
    }
  }

  /** The bars of the series: at most ten, each label once, each bar the sum of the amounts of
      the records in the window that carry its label; and when there are no more than ten labels,
      nothing is cut and the bars add up to the total spent in the window. */
  lemma SeriesShape(es: seq<ExpenseRecord>, range: TimeRange, now: int, js: Builtins)
    ensures var keyed := KeyedRecords(Recent(es, range, now), range, js);
      var series := Series(Some(es), range, now, js);
      |series| <= MaxBars
      && DistinctPeriods(series)
      && (forall i :: 0 <= i < |series| ==>
            series[i].amount == SumBy(Filter(keyed, HasKey(series[i].period)), KeyedAmount))
      && (|FirstSeenKeys(keyed)| <= MaxBars ==>
            series == Grouped(keyed) && SumBy(series, BucketAmount) == SumBy(keyed, KeyedAmount))
  {
    var keyed := KeyedRecords(Recent(es, range, now), range, js);
    var series := Series(Some(es), range, now, js);
    GroupedDistinct(keyed);
    KeepLastDistinct(Grouped(keyed), MaxBars);
    forall i | 0 <= i < |series|
      ensures series[i].amount == SumBy(Filter(keyed, HasKey(series[i].period)), KeyedAmount)
    {
      BarIsFilteredSum(keyed, series, i);
    }
    GroupedConservesTotal(keyed);
  }

  /** One bar of the kept series, as a sum over the records with its label. */
  lemma BarIsFilteredSum(keyed: seq<Keyed>, series: seq<Bucket>, i: nat)
    requires series == KeepLast(Grouped(keyed), MaxBars) && i < |series|
    ensures series[i].amount == SumBy(Filter(keyed, HasKey(series[i].period)), KeyedAmount)
  {
    var grouped := Grouped(keyed);
    assert series[i] == grouped[|grouped| - |series| + i];
    KeyTotalIsFilteredSum(keyed, series[i].period);
  }

  /** With more than ten labels the earliest-met label loses its bar, even when its records are the
      most recent ones. */
  lemma EarliestLabelDropped(keyed: seq<Keyed>)
    requires |FirstSeenKeys(keyed)| > MaxBars
    ensures forall b :: b in KeepLast(Grouped(keyed), MaxBars) ==> b.period != FirstSeenKeys(keyed)[0]
  {
    var keys := FirstSeenKeys(keyed);
    var grouped := Grouped(keyed);
    var series := KeepLast(grouped, MaxBars);
    forall b | b in series ensures b.period != keys[0] {
      var i :| 0 <= i < |series| && series[i] == b;
      var off := |grouped| - |series|;
      assert series[i] == grouped[off + i];
      assert b.period == keys[off + i];
    }
  }

  /** The grouping loop: one `Map` updated with `set(key, (get(key) || 0) + amount)` for each record,
      in order. */
  method GroupByKey(keyed: seq<Keyed>) returns (grouped: OrderedMap)
    ensures fresh(grouped) && grouped.Valid()
    ensures grouped.Entries() == Grouped(keyed)
  {
    grouped := new OrderedMap();
    var i := 0;
    while i < |keyed|
      invariant 0 <= i <= |keyed|
      invariant grouped.Valid()
      invariant grouped.keys == FirstSeenKeys(keyed[..i])
      invariant forall k :: k in grouped.values ==> grouped.values[k] == KeyTotal(keyed[..i], k)
    {
      var e := keyed[i];
      assert keyed[..i + 1] == keyed[..i] + [e];
      if e.key !in grouped.keys {
        KeyTotalUnseen(keyed[..i], e.key);
      }
      forall k ensures KeyTotal(keyed[..i + 1], k) == KeyTotal(keyed[..i], k) + (if e.key == k then e.amount else 0.0) {
        KeyTotalSnoc(keyed[..i], e, k);
      }
      grouped.Set(e.key, grouped.Get(e.key).GetOr(0.0) + e.amount);
      i := i + 1;
    }
    assert keyed[..i] == keyed;
  }

  /** `timeBasedData`: filter the records to the window, label each, group, and keep the last ten
      bars. */
  method TimeBasedData(expenses: Option<seq<ExpenseRecord>>, range: TimeRange, now: int, js: Builtins)
    returns (series: seq<Bucket>)
    ensures series == Series(expenses, range, now, js)
  {
    if expenses.None? {
      return [];
    }
    var filtered := Recent(expenses.value, range, now);
    var keyed := KeyedRecords(filtered, range, js);
    var grouped := GroupByKey(keyed);
    series := KeepLast(grouped.Entries(), MaxBars);
  }
}
