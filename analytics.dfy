/** The Analytics page: income and expense per car for the charts, a profit
    per car, and the three insight figures. */
module Analytics {
  import opened Common
  import opened Rows
  import Sorting

  /** One bar or slice of a chart. */
  datatype ChartRow = ChartRow(name: string, value: int)

  /** One `[id, value]` pair of `Object.entries`. */
  datatype Entry = Entry(id: string, value: int)

  datatype Insights = Insights(mostProfitable: string, highestCost: string, totalBookings: nat)

  datatype AnalyticsData = AnalyticsData(incomePerCar: seq<ChartRow>, expensePerCar: seq<ChartRow>, insights: Insights)

  function Value(e: Entry): int { e.value }

  /** `Object.entries(m)`. */
  function Entries(t: Tally): (r: seq<Entry>)
    ensures |r| == |t.keys| && forall i :: 0 <= i < |r| ==> r[i] == Entry(t.keys[i], Get(t, t.keys[i]))
  {
    seq(|t.keys|, i requires 0 <= i < |t.keys| => Entry(t.keys[i], Get(t, t.keys[i])))
  }

  /** `Object.entries(m).map(([id, val]) => ({ name: carMap[id] || 'Unknown', value: val }))`. */
  function ChartRows(carMap: map<string, string>, t: Tally): (r: seq<ChartRow>)
    ensures |r| == |t.keys|
    ensures forall i :: 0 <= i < |r| ==> r[i].value == Get(t, t.keys[i])
    ensures forall i :: 0 <= i < |r| && t.keys[i] in carMap && carMap[t.keys[i]] != "" ==>
      r[i].name == carMap[t.keys[i]]
    ensures forall i :: 0 <= i < |r| && (t.keys[i] !in carMap || carMap[t.keys[i]] == "") ==>
      r[i].name == "Unknown"
  {
    seq(|t.keys|, i requires 0 <= i < |t.keys| => ChartRow(NameOr(carMap, t.keys[i], "Unknown"), Get(t, t.keys[i])))
  }

  /** `(incomeMap[id] || 0) - (expenseMap[id] || 0)`. */
  function Profit(income: Tally, expense: Tally, id: string): int {
    Get(income, id) - Get(expense, id)
  }

  /** `profitMap` after the `forEach` over the first `n` ids: each assigned
      income - expense. */
  function ProfitPrefix(ids: seq<string>, n: nat, income: Tally, expense: Tally): (r: Tally)
    requires n <= |ids|
    ensures WellFormed(r)
  {
    if n == 0 then EmptyTally
    else
      var id := ids[n - 1];
      Put(ProfitPrefix(ids, n - 1, income, expense), id, Profit(income, expense, id))
  }

  /** `profitMap` once the `forEach` is over. */
  function ProfitMap(ids: seq<string>, income: Tally, expense: Tally): (r: Tally)
    ensures WellFormed(r)
  {
    ProfitPrefix(ids, |ids|, income, expense)
  }

  /** `sorted[0] ? carMap[sorted[0][0]] || '' : 'N/A'`. */
  function TopName(carMap: map<string, string>, sorted: seq<Entry>): string {
    if |sorted| == 0 then "N/A" else NameOr(carMap, sorted[0].id, "")
  }

  /** What `fetchData` shows, as a function of the gateway's rows. */
  function AnalyticsOf(cars: seq<CarRow>, bookings: seq<BookingRow>, expenses: seq<ExpenseRow>): AnalyticsData {
    var carMap := CarMapOf(cars);
    var income := TallyOf(BookingEntries(bookings));
    var expense := TallyOf(ExpenseEntries(expenses));
    var profit := ProfitMap(UnionKeys(income.keys, expense.keys), income, expense);
    AnalyticsData(
      ChartRows(carMap, income),
      ChartRows(carMap, expense),
      Insights(
        TopName(carMap, Sorting.SortDesc(Entries(profit), Value)),
        TopName(carMap, Sorting.SortDesc(Entries(expense), Value)),
        |bookings|))
  }

  /** `fetchData` once the three queries have returned: four `forEach`
      passes fill `carMap`, `incomeMap`, `expenseMap` and `profitMap`. */
  method FetchData(cars: seq<CarRow>, bookings: seq<BookingRow>, expenses: seq<ExpenseRow>)
    returns (data: AnalyticsData)
    ensures data == AnalyticsOf(cars, bookings, expenses)
  {
    var carMap := CollectCarMap(cars);
    var incomeMap, _ := TallyBookings(bookings);
    var expenseMap, _ := TallyExpenses(expenses);
    var ids := UnionKeys(incomeMap.keys, expenseMap.keys);
    var profitMap := FillProfitMap(ids, incomeMap, expenseMap);
    var sorted := Sorting.SortDesc(Entries(profitMap), Value);
    var highCost := Sorting.SortDesc(Entries(expenseMap), Value);
    data := AnalyticsData(
      ChartRows(carMap, incomeMap),
      ChartRows(carMap, expenseMap),
      Insights(TopName(carMap, sorted), TopName(carMap, highCost), |bookings|));
  }

  /** `Object.keys({ ...incomeMap, ...expenseMap }).forEach((id) => { profitMap[id] = ... })`. */
  method FillProfitMap(ids: seq<string>, incomeMap: Tally, expenseMap: Tally) returns (profitMap: Tally)
    ensures profitMap == ProfitMap(ids, incomeMap, expenseMap)
  {
    profitMap := EmptyTally;
    for i := 0 to |ids|
      invariant profitMap == ProfitPrefix(ids, i, incomeMap, expenseMap)
    {
      profitMap := Put(profitMap, ids[i], Profit(incomeMap, expenseMap, ids[i]));
    }
  }

  // -------------------------------------------------------------------
  // Properties

  /** With distinct ids, the profit map after `n` ids lists exactly those
      ids, in order. */
  lemma {:induction false} ProfitPrefixKeys(ids: seq<string>, n: nat, income: Tally, expense: Tally)
    requires Distinct(ids) && n <= |ids|
    ensures ProfitPrefix(ids, n, income, expense).keys == ids[..n]
  {
    if n > 0 {
      ProfitPrefixKeys(ids, n - 1, income, expense);
      DistinctPrefixLast(ids, n);
      TakeSnoc(ids, n);
    }
  }

  /** After `n` ids each of them has income - expense, a missing side
      counting as 0, and any other id reads as 0; repeated ids do no harm. */
  lemma {:induction false} ProfitPrefixValues(ids: seq<string>, n: nat, income: Tally, expense: Tally)
    requires n <= |ids|
    ensures forall id ::
      Get(ProfitPrefix(ids, n, income, expense), id) == (if id in ids[..n] then Profit(income, expense, id) else 0)
  {
    if n > 0 {
      ProfitPrefixValues(ids, n - 1, income, expense);
      assert ids[..n] == ids[..n - 1] + [ids[n - 1]];
    }
  }

  /** With distinct ids, the profit map lists exactly those ids, in order,
      each with income - expense. */
  lemma ProfitMapContents(ids: seq<string>, income: Tally, expense: Tally)
    requires Distinct(ids)
    ensures ProfitMap(ids, income, expense).keys == ids
    ensures forall id :: id in ids ==> Get(ProfitMap(ids, income, expense), id) == Get(income, id) - Get(expense, id)
  {
    ProfitPrefixKeys(ids, |ids|, income, expense);
    ProfitPrefixValues(ids, |ids|, income, expense);
    assert ids[..|ids|] == ids;
  }

  /** The profit map covers the car ids of both maps, each once. */
  lemma ProfitIds(bookings: seq<BookingRow>, expenses: seq<ExpenseRow>)
    ensures var income := TallyOf(BookingEntries(bookings));
      var expense := TallyOf(ExpenseEntries(expenses));
      var ids := UnionKeys(income.keys, expense.keys);
      && ProfitMap(ids, income, expense).keys == ids
      && (forall id :: id in ids <==> id in income.keys || id in expense.keys)
      && (forall id :: id in ids ==> Get(ProfitMap(ids, income, expense), id) == Get(income, id) - Get(expense, id))
  {
    var income := TallyOf(BookingEntries(bookings));
    var expense := TallyOf(ExpenseEntries(expenses));
    UnionKeysDistinct(income.keys, expense.keys);
    ProfitMapContents(UnionKeys(income.keys, expense.keys), income, expense);
  }

  /** Does `id` have a profit no id of `ids` exceeds? */
  predicate MaxProfit(id: string, ids: seq<string>, income: Tally, expense: Tally) {
    id in ids && forall id' :: id' in ids ==> Get(income, id') - Get(expense, id') <= Get(income, id) - Get(expense, id)
  }

  /** Does `id` have an expense total no id of `ids` exceeds? */
  predicate MaxExpense(id: string, ids: seq<string>, expense: Tally) {
    id in ids && forall id' :: id' in ids ==> Get(expense, id') <= Get(expense, id)
  }

  /** The insight is `N/A` for no entries; otherwise it names (with '' for
      an unknown id) an entry whose value no other entry exceeds. */
  lemma {:induction false} TopNameIsMaximal(carMap: map<string, string>, es: seq<Entry>)
    ensures |es| == 0 ==> TopName(carMap, Sorting.SortDesc(es, Value)) == "N/A"
    ensures |es| > 0 ==> exists k :: (0 <= k < |es| &&
      TopName(carMap, Sorting.SortDesc(es, Value)) == NameOr(carMap, es[k].id, "") &&
      forall i :: 0 <= i < |es| ==> es[i].value <= es[k].value)
  {
    if |es| > 0 {
      var s := Sorting.SortDesc(es, Value);
      Sorting.SortDescHeadMax(es, Value);
      assert s[0] in multiset(es);
      var k :| 0 <= k < |es| && es[k] == s[0];
      assert forall i :: 0 <= i < |es| ==> Value(es[i]) <= Value(es[k]);
    }
  }

  lemma {:induction false} TopOfProfits(carMap: map<string, string>, ids: seq<string>, income: Tally, expense: Tally)
    requires Distinct(ids)
    ensures var top := TopName(carMap, Sorting.SortDesc(Entries(ProfitMap(ids, income, expense)), Value));
      && (|ids| == 0 ==> top == "N/A")
      && (|ids| > 0 ==> exists id :: MaxProfit(id, ids, income, expense) && top == NameOr(carMap, id, ""))
  {
    ProfitMapContents(ids, income, expense);
    var es := Entries(ProfitMap(ids, income, expense));
    TopNameIsMaximal(carMap, es);
    if |ids| > 0 {
      var k :| 0 <= k < |es| && TopName(carMap, Sorting.SortDesc(es, Value)) == NameOr(carMap, es[k].id, "") &&
        forall i :: 0 <= i < |es| ==> es[i].value <= es[k].value;
      var id := ids[k];
      forall id' | id' in ids
        ensures Get(income, id') - Get(expense, id') <= Get(income, id) - Get(expense, id)
      {
        var j :| 0 <= j < |ids| && ids[j] == id';
        assert es[j].value <= es[k].value;
      }
      assert MaxProfit(id, ids, income, expense);
    }
  }

  lemma {:induction false} TopOfExpenses(carMap: map<string, string>, expense: Tally)
    ensures var top := TopName(carMap, Sorting.SortDesc(Entries(expense), Value));
      && (|expense.keys| == 0 ==> top == "N/A")
      && (|expense.keys| > 0 ==> exists id :: MaxExpense(id, expense.keys, expense) && top == NameOr(carMap, id, ""))
  {
    var es := Entries(expense);
    TopNameIsMaximal(carMap, es);
    if |es| > 0 {
      var k :| 0 <= k < |es| && TopName(carMap, Sorting.SortDesc(es, Value)) == NameOr(carMap, es[k].id, "") &&
        forall i :: 0 <= i < |es| ==> es[i].value <= es[k].value;
      var id := expense.keys[k];
      forall id' | id' in expense.keys ensures Get(expense, id') <= Get(expense, id) {
        var j :| 0 <= j < |expense.keys| && expense.keys[j] == id';
        assert es[j].value <= es[k].value;
      }
      assert MaxExpense(id, expense.keys, expense);
    }
  }

  /** `mostProfitable` names a car whose profit is maximal over every id of
      either map, and is `N/A` exactly when neither map has an id. */
  lemma MostProfitable(cars: seq<CarRow>, bookings: seq<BookingRow>, expenses: seq<ExpenseRow>)
    ensures var income := TallyOf(BookingEntries(bookings));
      var expense := TallyOf(ExpenseEntries(expenses));
      var ids := UnionKeys(income.keys, expense.keys);
      var top := AnalyticsOf(cars, bookings, expenses).insights.mostProfitable;
      && (|ids| == 0 ==> top == "N/A")
      && (|ids| > 0 ==> exists id :: MaxProfit(id, ids, income, expense) && top == NameOr(CarMapOf(cars), id, ""))
  {
    var income := TallyOf(BookingEntries(bookings));
    var expense := TallyOf(ExpenseEntries(expenses));
    UnionKeysDistinct(income.keys, expense.keys);
    TopOfProfits(CarMapOf(cars), UnionKeys(income.keys, expense.keys), income, expense);
  }

  /** `highestCost` names a car whose expense total is maximal, and is `N/A`
      exactly when no expense row names a car. */
  lemma HighestCost(cars: seq<CarRow>, bookings: seq<BookingRow>, expenses: seq<ExpenseRow>)
    ensures var expense := TallyOf(ExpenseEntries(expenses));
      var top := AnalyticsOf(cars, bookings, expenses).insights.highestCost;
      && (|expense.keys| == 0 ==> top == "N/A")
      && (|expense.keys| > 0 ==> exists id :: MaxExpense(id, expense.keys, expense) && top == NameOr(CarMapOf(cars), id, ""))
  {
    TopOfExpenses(CarMapOf(cars), TallyOf(ExpenseEntries(expenses)));
  }

  /** The chart bars list the income map's ids once each with their sums and
      name an id missing from the car table `Unknown`, whereas the insights
      name such an id ''. */
  lemma {:induction false} UnknownNames(cars: seq<CarRow>, bookings: seq<BookingRow>, expenses: seq<ExpenseRow>, i: nat)
    requires i < |TallyOf(BookingEntries(bookings)).keys|
    ensures var income := TallyOf(BookingEntries(bookings));
      var id := income.keys[i];
      var bar := AnalyticsOf(cars, bookings, expenses).incomePerCar[i];
      && bar.value == SumFor(BookingEntries(bookings), id)
      && ((forall j :: 0 <= j < |cars| ==> cars[j].id != id) ==>
            bar.name == "Unknown" && NameOr(CarMapOf(cars), id, "") == "")
  {
    TallyValue(BookingEntries(bookings), TallyOf(BookingEntries(bookings)).keys[i]);
  }

  /** Both charts have one bar per id of their map, in the map's order; a bar
      is named after the car, or `Unknown`, and carries the sum of the
      amounts of that car's rows: the income chart over the bookings, the
      cost chart over the expenses. */
  lemma ChartBars(cars: seq<CarRow>, bookings: seq<BookingRow>, expenses: seq<ExpenseRow>)
    ensures var data := AnalyticsOf(cars, bookings, expenses);
      var income := TallyOf(BookingEntries(bookings));
      var expense := TallyOf(ExpenseEntries(expenses));
      && |data.incomePerCar| == |income.keys| && |data.expensePerCar| == |expense.keys|
      && (forall i :: 0 <= i < |income.keys| ==>
            data.incomePerCar[i] == ChartRow(NameOr(CarMapOf(cars), income.keys[i], "Unknown"),
                                             SumFor(BookingEntries(bookings), income.keys[i])))
      && (forall i :: 0 <= i < |expense.keys| ==>
            data.expensePerCar[i] == ChartRow(NameOr(CarMapOf(cars), expense.keys[i], "Unknown"),
                                              SumFor(ExpenseEntries(expenses), expense.keys[i])))
  {
    var income := TallyOf(BookingEntries(bookings));
    var expense := TallyOf(ExpenseEntries(expenses));
    forall i | 0 <= i < |income.keys| ensures Get(income, income.keys[i]) == SumFor(BookingEntries(bookings), income.keys[i]) {
      TallyValue(BookingEntries(bookings), income.keys[i]);
    }
    forall i | 0 <= i < |expense.keys| ensures Get(expense, expense.keys[i]) == SumFor(ExpenseEntries(expenses), expense.keys[i]) {
      TallyValue(ExpenseEntries(expenses), expense.keys[i]);
    }
  }

  /** `totalBookings` counts every booking row, with or without a car. */
  lemma TotalBookings(cars: seq<CarRow>, bookings: seq<BookingRow>, expenses: seq<ExpenseRow>)
    ensures AnalyticsOf(cars, bookings, expenses).insights.totalBookings == |bookings|
  {
  }
}
