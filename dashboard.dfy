/** The admin Dashboard: the four headline totals and the income/expense
    chart by month. */
module Dashboard {
  import opened Common
  import opened Rows
  import Sorting

  // -------------------------------------------------------------------
  // Headline totals

  datatype Stats = Stats(totalCars: nat, totalBookings: nat, totalIncome: int, totalExpenses: int)

  /** `reduce((sum, b) => sum + Number(b.total_price || 0), acc)`. */
  function SumPrices(acc: int, bs: seq<BookingRow>): int
    decreases |bs|
  {
    if |bs| == 0 then acc else SumPrices(acc + Amount(bs[0].totalPrice), bs[1..])
  }

  /** `reduce((sum, e) => sum + Number(e.amount || 0), acc)`. */
  function SumAmounts(acc: int, es: seq<ExpenseRow>): int
    decreases |es|
  {
    if |es| == 0 then acc else SumAmounts(acc + Amount(es[0].amount), es[1..])
  }

  /** `fetchStats` once the three queries have returned; `carCount` is the
      head query's `count`. */
  function FetchStats(carCount: Option<nat>, bookings: seq<BookingRow>, expenses: seq<ExpenseRow>): Stats {
    Stats(if carCount.Some? then carCount.value else 0, |bookings|, SumPrices(0, bookings), SumAmounts(0, expenses))
  }

  /** The Net Profit card. */
  function NetProfit(s: Stats): int {
    s.totalIncome - s.totalExpenses
  }

  lemma {:induction false} TotalConcat(a: seq<Keyed>, b: seq<Keyed>)
    ensures Total(a + b) == Total(a) + Total(b)
  {
    if |b| == 0 {
      assert a + b == a;
    } else {
      assert (a + b)[..|a + b| - 1] == a + b[..|b| - 1];
      TotalConcat(a, b[..|b| - 1]);
    }
  }

  lemma {:induction false} SumPricesIsTotal(acc: int, bs: seq<BookingRow>)
    ensures SumPrices(acc, bs) == acc + Total(BookingEntries(bs))
    decreases |bs|
  {
    if |bs| > 0 {
      SumPricesIsTotal(acc + Amount(bs[0].totalPrice), bs[1..]);
      assert BookingEntries(bs) == [BookingKeyed(bs[0])] + BookingEntries(bs[1..]);
      TotalConcat([BookingKeyed(bs[0])], BookingEntries(bs[1..]));
      assert [BookingKeyed(bs[0])][..0] == [];
    }
  }

  lemma {:induction false} SumAmountsIsTotal(acc: int, es: seq<ExpenseRow>)
    ensures SumAmounts(acc, es) == acc + Total(ExpenseEntries(es))
    decreases |es|
  {
    if |es| > 0 {
      SumAmountsIsTotal(acc + Amount(es[0].amount), es[1..]);
      assert ExpenseEntries(es) == [ExpenseKeyed(es[0])] + ExpenseEntries(es[1..]);
      TotalConcat([ExpenseKeyed(es[0])], ExpenseEntries(es[1..]));
      assert [ExpenseKeyed(es[0])][..0] == [];
    }
  }

  /** The totals are the sums of every row's price and amount (null as 0),
      the same figures the Reports summary shows for the same rows; the
      booking count is the number of rows, and net profit is their
      difference. */
  lemma StatsAreTotals(carCount: Option<nat>, bookings: seq<BookingRow>, expenses: seq<ExpenseRow>)
    ensures var s := FetchStats(carCount, bookings, expenses);
      && s.totalIncome == Total(BookingEntries(bookings))
      && s.totalExpenses == Total(ExpenseEntries(expenses))
      && s.totalBookings == |bookings|
      && NetProfit(s) == Total(BookingEntries(bookings)) - Total(ExpenseEntries(expenses))
  {
    SumPricesIsTotal(0, bookings);
    SumAmountsIsTotal(0, expenses);
  }

  // -------------------------------------------------------------------
  // Month buckets

  datatype Bucket = Bucket(income: int, expense: int)

  /** The chart's `map`: month keys in insertion order, and their buckets. */
  datatype MonthMap = MonthMap(months: seq<string>, buckets: map<string, Bucket>)

  const NoMonths := MonthMap([], map[])

  ghost predicate Valid(m: MonthMap) {
    Distinct(m.months) && forall k :: k in m.buckets <==> k in m.months
  }

  /** `date?.slice(0, 7)`, kept only when truthy. */
  function MonthOf(date: Option<string>): (r: Option<string>)
    ensures r.Some? ==> r.value != "" && date.Some? && StartsWith(date.value, r.value) && |r.value| <= 7
    ensures r.None? <==> date.None? || date.value == ""
    ensures r.Some? ==> |r.value| == (if |date.value| < 7 then |date.value| else 7)
  {
    if date.None? then None
    else
      var m := if |date.value| <= 7 then date.value else date.value[..7];
      if m == "" then None else Some(m)
  }

  /** Two dates of at least seven characters fall in the same bucket exactly
      when their `YYYY-MM` parts agree, and a full date's key is its first
      seven characters. */
  lemma SameMonthKey(a: string, b: string)
    requires |a| >= 7 && |b| >= 7
    ensures MonthOf(Some(a)) == Some(a[..7])
    ensures MonthOf(Some(a)) == MonthOf(Some(b)) <==> a[..7] == b[..7]
  {
    var ka, kb := MonthOf(Some(a)).value, MonthOf(Some(b)).value;
    assert ka == a[..7] by {
      forall i | 0 <= i < 7 ensures ka[i] == a[i] {
        assert StartsWith(a, ka);
      }
    }
    assert kb == b[..7] by {
      forall i | 0 <= i < 7 ensures kb[i] == b[i] {
        assert StartsWith(b, kb);
      }
    }
  }

  /** A month's bucket, `{ income: 0, expense: 0 }` when absent. */
  function BucketOf(m: MonthMap, k: string): Bucket {
    if k in m.buckets then m.buckets[k] else Bucket(0, 0)
  }

  /** `if (!map[month]) map[month] = { income: 0, expense: 0 }`. */
  function Touch(m: MonthMap, k: string): (r: MonthMap)
    requires Valid(m)
    ensures Valid(r) && k in r.buckets
    ensures forall k' :: BucketOf(r, k') == BucketOf(m, k')
    ensures r.months == if k in m.months then m.months else m.months + [k]
  {
    if k in m.buckets then m
    else
      assert Distinct(m.months + [k]) by {
        var s := m.months + [k];
        forall i, j | 0 <= i < j < |s| ensures s[i] != s[j] {
          assert s[i] == m.months[i];
          if j < |m.months| { assert s[j] == m.months[j]; }
        }
      }
      MonthMap(m.months + [k], m.buckets[k := Bucket(0, 0)])
  }

  /** One step of the bookings `forEach`. */
  function IncomeStep(m: MonthMap, b: BookingRow): (r: MonthMap)
    requires Valid(m)
    ensures Valid(r)
  {
    var month := MonthOf(b.bookingDate);
    if month.None? then m
    else
      var t := Touch(m, month.value);
      var old_ := t.buckets[month.value];
      MonthMap(t.months, t.buckets[month.value := old_.(income := old_.income + Amount(b.totalPrice))])
  }

  /** One step of the expenses `forEach`. */
  function ExpenseStep(m: MonthMap, e: ExpenseRow): (r: MonthMap)
    requires Valid(m)
    ensures Valid(r)
  {
    var month := MonthOf(e.expenseDate);
    if month.None? then m
    else
      var t := Touch(m, month.value);
      var old_ := t.buckets[month.value];
      MonthMap(t.months, t.buckets[month.value := old_.(expense := old_.expense + Amount(e.amount))])
  }

  function FoldIncome(m: MonthMap, bs: seq<BookingRow>): (r: MonthMap)
    requires Valid(m)
    ensures Valid(r)
  {
    if |bs| == 0 then m else IncomeStep(FoldIncome(m, bs[..|bs| - 1]), bs[|bs| - 1])
  }

  function FoldExpense(m: MonthMap, es: seq<ExpenseRow>): (r: MonthMap)
    requires Valid(m)
    ensures Valid(r)
  {
    if |es| == 0 then m else ExpenseStep(FoldExpense(m, es[..|es| - 1]), es[|es| - 1])
  }

  /** The month map once both passes are done. */
  function MonthMapOf(bookings: seq<BookingRow>, expenses: seq<ExpenseRow>): (r: MonthMap)
    ensures Valid(r)
  {
    FoldExpense(FoldIncome(NoMonths, bookings), expenses)
  }

  /** One chart point. The month label is the key; its rendering as a short
      month name is not part of this model. */
  datatype ChartPoint = ChartPoint(month: string, income: int, expense: int)

  function Points(m: MonthMap, ks: seq<string>): (r: seq<ChartPoint>)
    ensures |r| == |ks| && forall i :: 0 <= i < |ks| ==>
      r[i] == ChartPoint(ks[i], BucketOf(m, ks[i]).income, BucketOf(m, ks[i]).expense)
  {
    seq(|ks|, i requires 0 <= i < |ks| => ChartPoint(ks[i], BucketOf(m, ks[i]).income, BucketOf(m, ks[i]).expense))
  }

  /** The chart data: the entries sorted by month key. */
  function ChartData(bookings: seq<BookingRow>, expenses: seq<ExpenseRow>): seq<ChartPoint> {
    var m := MonthMapOf(bookings, expenses);
    Points(m, Sorting.SortAsc(m.months))
  }

  /** `fetchChartData` once the two queries have returned. */
  method FetchChartData(bookings: seq<BookingRow>, expenses: seq<ExpenseRow>) returns (chart: seq<ChartPoint>)
    ensures chart == ChartData(bookings, expenses)
  {
    var months, buckets := BucketBookings([], map[], bookings);
    months, buckets := BucketExpenses(months, buckets, expenses);
    chart := Points(MonthMap(months, buckets), Sorting.SortAsc(months));
  }

  /** One step of the bookings `forEach`, as the loop below writes it. */
  lemma IncomeStepIs(months: seq<string>, buckets: map<string, Bucket>, b: BookingRow)
    requires Valid(MonthMap(months, buckets))
    ensures var month := MonthOf(b.bookingDate);
      IncomeStep(MonthMap(months, buckets), b) ==
        if month.None? then MonthMap(months, buckets)
        else
          var k := month.value;
          var ms := if k !in buckets then months + [k] else months;
          var bs := if k !in buckets then buckets[k := Bucket(0, 0)] else buckets;
          MonthMap(ms, bs[k := bs[k].(income := bs[k].income + Amount(b.totalPrice))])
  {
  }

  /** One step of the expenses `forEach`, as the loop below writes it. */
  lemma ExpenseStepIs(months: seq<string>, buckets: map<string, Bucket>, e: ExpenseRow)
    requires Valid(MonthMap(months, buckets))
    ensures var month := MonthOf(e.expenseDate);
      ExpenseStep(MonthMap(months, buckets), e) ==
        if month.None? then MonthMap(months, buckets)
        else
          var k := month.value;
          var ms := if k !in buckets then months + [k] else months;
          var bs := if k !in buckets then buckets[k := Bucket(0, 0)] else buckets;
          MonthMap(ms, bs[k := bs[k].(expense := bs[k].expense + Amount(e.amount))])
  {
  }

  /** The bookings `forEach`: each dated row adds its price to its month. */
  method BucketBookings(months0: seq<string>, buckets0: map<string, Bucket>, bookings: seq<BookingRow>)
    returns (months: seq<string>, buckets: map<string, Bucket>)
    requires Valid(MonthMap(months0, buckets0))
    ensures MonthMap(months, buckets) == FoldIncome(MonthMap(months0, buckets0), bookings)
  {
    months, buckets := months0, buckets0;
    for i := 0 to |bookings|
      invariant MonthMap(months, buckets) == FoldIncome(MonthMap(months0, buckets0), bookings[..i])
    {
      assert bookings[..i + 1][..i] == bookings[..i];
      IncomeStepIs(months, buckets, bookings[i]);
      var month := MonthOf(bookings[i].bookingDate);
      if month.Some? {
        var k := month.value;
        if k !in buckets {
          buckets := buckets[k := Bucket(0, 0)];
          months := months + [k];
        }
        buckets := buckets[k := buckets[k].(income := buckets[k].income + Amount(bookings[i].totalPrice))];
      }
    }
    assert bookings[..|bookings|] == bookings;
  }

  /** The expenses `forEach`: each dated row adds its amount to its month. */
  method BucketExpenses(months0: seq<string>, buckets0: map<string, Bucket>, expenses: seq<ExpenseRow>)
    returns (months: seq<string>, buckets: map<string, Bucket>)
    requires Valid(MonthMap(months0, buckets0))
    ensures MonthMap(months, buckets) == FoldExpense(MonthMap(months0, buckets0), expenses)
  {
    months, buckets := months0, buckets0;
    for i := 0 to |expenses|
      invariant MonthMap(months, buckets) == FoldExpense(MonthMap(months0, buckets0), expenses[..i])
    {
      assert expenses[..i + 1][..i] == expenses[..i];
      ExpenseStepIs(months, buckets, expenses[i]);
      var month := MonthOf(expenses[i].expenseDate);
      if month.Some? {
        var k := month.value;
        if k !in buckets {
          buckets := buckets[k := Bucket(0, 0)];
          months := months + [k];
        }
        buckets := buckets[k := buckets[k].(expense := buckets[k].expense + Amount(expenses[i].amount))];
      }
    }
    assert expenses[..|expenses|] == expenses;
  }

  // -------------------------------------------------------------------
  // Properties of the buckets

  /** The sum of the prices of the bookings dated in month `k`. */
  function MonthIncome(bs: seq<BookingRow>, k: string): int {
    if |bs| == 0 then 0
    else MonthIncome(bs[..|bs| - 1], k) + (if MonthOf(bs[|bs| - 1].bookingDate) == Some(k) then Amount(bs[|bs| - 1].totalPrice) else 0)
  }

  /** The sum of the amounts of the expenses dated in month `k`. */
  function MonthExpense(es: seq<ExpenseRow>, k: string): int {
    if |es| == 0 then 0
    else MonthExpense(es[..|es| - 1], k) + (if MonthOf(es[|es| - 1].expenseDate) == Some(k) then Amount(es[|es| - 1].amount) else 0)
  }

  /** The sum of the prices of the bookings that have a month. */
  function DatedIncome(bs: seq<BookingRow>): int {
    if |bs| == 0 then 0
    else DatedIncome(bs[..|bs| - 1]) + (if MonthOf(bs[|bs| - 1].bookingDate).Some? then Amount(bs[|bs| - 1].totalPrice) else 0)
  }

  /** The sum of the amounts of the expenses that have a month. */
  function DatedExpense(es: seq<ExpenseRow>): int {
    if |es| == 0 then 0
    else DatedExpense(es[..|es| - 1]) + (if MonthOf(es[|es| - 1].expenseDate).Some? then Amount(es[|es| - 1].amount) else 0)
  }

  lemma {:induction false} FoldIncomeBuckets(m: MonthMap, bs: seq<BookingRow>, k: string)
    requires Valid(m)
    ensures BucketOf(FoldIncome(m, bs), k).income == BucketOf(m, k).income + MonthIncome(bs, k)
    ensures BucketOf(FoldIncome(m, bs), k).expense == BucketOf(m, k).expense
  {
    if |bs| > 0 {
      FoldIncomeBuckets(m, bs[..|bs| - 1], k);
    }
  }

  lemma {:induction false} FoldExpenseBuckets(m: MonthMap, es: seq<ExpenseRow>, k: string)
    requires Valid(m)
    ensures BucketOf(FoldExpense(m, es), k).expense == BucketOf(m, k).expense + MonthExpense(es, k)
    ensures BucketOf(FoldExpense(m, es), k).income == BucketOf(m, k).income
  {
    if |es| > 0 {
      FoldExpenseBuckets(m, es[..|es| - 1], k);
    }
  }

  /** Each month's bucket holds the sum of that month's booking prices and
      the sum of that month's expense amounts; a month with no rows reads as
      zero. */
  lemma BucketSums(bookings: seq<BookingRow>, expenses: seq<ExpenseRow>, k: string)
    ensures BucketOf(MonthMapOf(bookings, expenses), k) == Bucket(MonthIncome(bookings, k), MonthExpense(expenses, k))
  {
    FoldIncomeBuckets(NoMonths, bookings, k);
    FoldExpenseBuckets(FoldIncome(NoMonths, bookings), expenses, k);
  }

  predicate BookedIn(bs: seq<BookingRow>, k: string) {
    exists i :: 0 <= i < |bs| && MonthOf(bs[i].bookingDate) == Some(k)
  }

  predicate SpentIn(es: seq<ExpenseRow>, k: string) {
    exists i :: 0 <= i < |es| && MonthOf(es[i].expenseDate) == Some(k)
  }

  lemma IncomeStepMonths(m: MonthMap, r: BookingRow, k: string)
    requires Valid(m)
    ensures k in IncomeStep(m, r).months <==> k in m.months || MonthOf(r.bookingDate) == Some(k)
  {
  }

  lemma {:induction false} FoldIncomeMonths(m: MonthMap, bs: seq<BookingRow>, k: string)
    requires Valid(m)
    ensures k in FoldIncome(m, bs).months <==> k in m.months || BookedIn(bs, k)
  {
    if |bs| > 0 {
      var p := bs[..|bs| - 1];
      FoldIncomeMonths(m, p, k);
      IncomeStepMonths(FoldIncome(m, p), bs[|bs| - 1], k);
      if BookedIn(p, k) {
        var i :| 0 <= i < |p| && MonthOf(p[i].bookingDate) == Some(k);
        assert bs[i] == p[i];
      }
      if BookedIn(bs, k) {
        var i :| 0 <= i < |bs| && MonthOf(bs[i].bookingDate) == Some(k);
        if i < |p| { assert bs[i] == p[i]; }
      }
    }
  }

  lemma ExpenseStepMonths(m: MonthMap, r: ExpenseRow, k: string)
    requires Valid(m)
    ensures k in ExpenseStep(m, r).months <==> k in m.months || MonthOf(r.expenseDate) == Some(k)
  {
  }

  lemma {:induction false} FoldExpenseMonths(m: MonthMap, es: seq<ExpenseRow>, k: string)
    requires Valid(m)
    ensures k in FoldExpense(m, es).months <==> k in m.months || SpentIn(es, k)
  {
    if |es| > 0 {
      var p := es[..|es| - 1];
      FoldExpenseMonths(m, p, k);
      ExpenseStepMonths(FoldExpense(m, p), es[|es| - 1], k);
      if SpentIn(p, k) {
        var i :| 0 <= i < |p| && MonthOf(p[i].expenseDate) == Some(k);
        assert es[i] == p[i];
      }
      if SpentIn(es, k) {
        var i :| 0 <= i < |es| && MonthOf(es[i].expenseDate) == Some(k);
        if i < |p| { assert es[i] == p[i]; }
      }
    }
  }

  /** The chart lists each month some dated booking or expense falls in,
      once, in strictly ascending key order, and no other month. */
  lemma ChartMonths(bookings: seq<BookingRow>, expenses: seq<ExpenseRow>, k: string)
    ensures var chart := ChartData(bookings, expenses);
      && (forall i, j :: 0 <= i < j < |chart| ==> Sorting.Less(chart[i].month, chart[j].month))
      && ((exists i :: 0 <= i < |chart| && chart[i].month == k) <==> BookedIn(bookings, k) || SpentIn(expenses, k))
  {
    var m := MonthMapOf(bookings, expenses);
    var ks := Sorting.SortAsc(m.months);
    Sorting.SortAscSorted(m.months);
    FoldIncomeMonths(NoMonths, bookings, k);
    FoldExpenseMonths(FoldIncome(NoMonths, bookings), expenses, k);
    var chart := Points(m, ks);
    assert k in ks <==> k in multiset(m.months);
    if k in ks {
      var i :| 0 <= i < |ks| && ks[i] == k;
      assert chart[i].month == k;
    }
  }

  // -------------------------------------------------------------------
  // Nothing is lost between the rows and the buckets

  function IncomeIn(m: MonthMap): string -> int {
    k => BucketOf(m, k).income
  }

  function ExpenseIn(m: MonthMap): string -> int {
    k => BucketOf(m, k).expense
  }

  /** Changing one key's value by `d` changes a sum over distinct keys by `d`
      when the key is listed, and not at all otherwise. */
  lemma {:induction false} SumByBump(ks: seq<string>, f: string -> int, g: string -> int, k: string, d: int)
    requires Distinct(ks)
    requires forall x :: g(x) == if x == k then f(x) + d else f(x)
    ensures Sorting.SumBy(ks, g) == Sorting.SumBy(ks, f) + (if k in ks then d else 0)
  {
    if |ks| > 0 {
      assert Distinct(ks[1..]);
      SumByBump(ks[1..], f, g, k, d);
      assert k in ks <==> k == ks[0] || k in ks[1..];
      if k == ks[0] {
        assert k !in ks[1..];
      }
    }
  }

  lemma IncomeStepConserves(m: MonthMap, b: BookingRow)
    requires Valid(m)
    ensures Sorting.SumBy(IncomeStep(m, b).months, IncomeIn(IncomeStep(m, b))) ==
            Sorting.SumBy(m.months, IncomeIn(m)) + (if MonthOf(b.bookingDate).Some? then Amount(b.totalPrice) else 0)
  {
    var month := MonthOf(b.bookingDate);
    if month.Some? {
      var k := month.value;
      var t := Touch(m, k);
      var r := IncomeStep(m, b);
      TouchSum(m, k, IncomeIn(m), IncomeIn(t));
      SumByBump(t.months, IncomeIn(t), IncomeIn(r), k, Amount(b.totalPrice));
    }
  }

  lemma ExpenseStepConserves(m: MonthMap, e: ExpenseRow)
    requires Valid(m)
    ensures Sorting.SumBy(ExpenseStep(m, e).months, ExpenseIn(ExpenseStep(m, e))) ==
            Sorting.SumBy(m.months, ExpenseIn(m)) + (if MonthOf(e.expenseDate).Some? then Amount(e.amount) else 0)
  {
    var month := MonthOf(e.expenseDate);
    if month.Some? {
      var k := month.value;
      var t := Touch(m, k);
      var r := ExpenseStep(m, e);
      TouchSum(m, k, ExpenseIn(m), ExpenseIn(t));
      SumByBump(t.months, ExpenseIn(t), ExpenseIn(r), k, Amount(e.amount));
    }
  }

  /** A new bucket starts at zero, so opening it adds nothing to a sum. */
  lemma TouchSum(m: MonthMap, k: string, f: string -> int, g: string -> int)
    requires Valid(m)
    requires forall x :: f(x) == g(x)
    requires k !in m.buckets ==> g(k) == 0
    ensures Sorting.SumBy(Touch(m, k).months, g) == Sorting.SumBy(m.months, f)
  {
    SumByAgree(m.months, f, g);
    if k !in m.buckets {
      Sorting.SumByConcat(m.months, [k], g);
    }
  }

  lemma {:induction false} SumByAgree(ks: seq<string>, f: string -> int, g: string -> int)
    requires forall x :: f(x) == g(x)
    ensures Sorting.SumBy(ks, f) == Sorting.SumBy(ks, g)
  {
    if |ks| > 0 {
      SumByAgree(ks[1..], f, g);
    }
  }

  /** The booking pass collects every dated booking's price into some bucket. */
  lemma {:induction false} FoldIncomeConserves(m: MonthMap, bs: seq<BookingRow>)
    requires Valid(m)
    ensures Sorting.SumBy(FoldIncome(m, bs).months, IncomeIn(FoldIncome(m, bs))) ==
            Sorting.SumBy(m.months, IncomeIn(m)) + DatedIncome(bs)
  {
    if |bs| > 0 {
      FoldIncomeConserves(m, bs[..|bs| - 1]);
      IncomeStepConserves(FoldIncome(m, bs[..|bs| - 1]), bs[|bs| - 1]);
    }
  }

  /** The expense pass leaves the income total of the buckets as it was. */
  lemma {:induction false} FoldExpenseKeepsIncome(m: MonthMap, es: seq<ExpenseRow>)
    requires Valid(m)
    ensures Sorting.SumBy(FoldExpense(m, es).months, IncomeIn(FoldExpense(m, es))) ==
            Sorting.SumBy(m.months, IncomeIn(m))
  {
    if |es| > 0 {
      var p := FoldExpense(m, es[..|es| - 1]);
      FoldExpenseKeepsIncome(m, es[..|es| - 1]);
      var month := MonthOf(es[|es| - 1].expenseDate);
      if month.Some? {
        var t := Touch(p, month.value);
        TouchSum(p, month.value, IncomeIn(p), IncomeIn(t));
        SumByAgree(t.months, IncomeIn(t), IncomeIn(ExpenseStep(p, es[|es| - 1])));
      }
    }
  }

  /** The expense pass collects every dated expense's amount into some bucket. */
  lemma {:induction false} FoldExpenseConserves(m: MonthMap, es: seq<ExpenseRow>)
    requires Valid(m)
    ensures Sorting.SumBy(FoldExpense(m, es).months, ExpenseIn(FoldExpense(m, es))) ==
            Sorting.SumBy(m.months, ExpenseIn(m)) + DatedExpense(es)
  {
    if |es| > 0 {
      FoldExpenseConserves(m, es[..|es| - 1]);
      ExpenseStepConserves(FoldExpense(m, es[..|es| - 1]), es[|es| - 1]);
    }
  }

  /** The booking pass opens buckets with zero expense only. */
  lemma {:induction false} FoldIncomeNoExpense(bs: seq<BookingRow>)
    ensures Sorting.SumBy(FoldIncome(NoMonths, bs).months, ExpenseIn(FoldIncome(NoMonths, bs))) == 0
  {
    var m := FoldIncome(NoMonths, bs);
    forall x ensures ExpenseIn(m)(x) == 0 {
      FoldIncomeBuckets(NoMonths, bs, x);
    }
    SumByZero(m.months, ExpenseIn(m));
  }

  lemma {:induction false} SumByZero(ks: seq<string>, f: string -> int)
    requires forall x :: f(x) == 0
    ensures Sorting.SumBy(ks, f) == 0
  {
    if |ks| > 0 {
      SumByZero(ks[1..], f);
    }
  }

  function PointIncome(p: ChartPoint): int { p.income }
  function PointExpense(p: ChartPoint): int { p.expense }

  lemma {:induction false} PointsSum(m: MonthMap, ks: seq<string>)
    ensures Sorting.SumBy(Points(m, ks), PointIncome) == Sorting.SumBy(ks, IncomeIn(m))
    ensures Sorting.SumBy(Points(m, ks), PointExpense) == Sorting.SumBy(ks, ExpenseIn(m))
  {
    if |ks| > 0 {
      assert Points(m, ks)[1..] == Points(m, ks[1..]);
      PointsSum(m, ks[1..]);
    }
  }

  /** Summed over the chart, the incomes are the total price of the dated
      bookings and the expenses the total amount of the dated expenses. */
  lemma ChartConserves(bookings: seq<BookingRow>, expenses: seq<ExpenseRow>)
    ensures Sorting.SumBy(ChartData(bookings, expenses), PointIncome) == DatedIncome(bookings)
    ensures Sorting.SumBy(ChartData(bookings, expenses), PointExpense) == DatedExpense(expenses)
  {
    var m0 := FoldIncome(NoMonths, bookings);
    var m := MonthMapOf(bookings, expenses);
    FoldIncomeConserves(NoMonths, bookings);
    FoldExpenseKeepsIncome(m0, expenses);
    FoldIncomeNoExpense(bookings);
    FoldExpenseConserves(m0, expenses);
    var ks := Sorting.SortAsc(m.months);
    PointsSum(m, ks);
    Sorting.SumByPermutation(ks, m.months, IncomeIn(m));
    Sorting.SumByPermutation(ks, m.months, ExpenseIn(m));
  }
}
