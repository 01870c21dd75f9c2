/** The Reports page: per-car income, expense and profit over the booking and
    expense rows the gateway returned for the chosen date range, the summary
    totals, and the CSV export. */
module Reports {
  import opened Common
  import opened Rows
  import Sorting

  /** One line of the per-car table (`CarProfit`). */
  datatype ReportRow = ReportRow(name: string, income: int, expense: int, profit: int)

  datatype Summary = Summary(bookings: nat, income: int, expenses: int)

  datatype Report = Report(rows: seq<ReportRow>, summary: Summary)

  function Profit(r: ReportRow): int { r.profit }

  /** The row for one car id: its name (or `Unknown`), its two sums (0 when
      absent) and their difference. */
  function RowFor(carMap: map<string, string>, income: Tally, expense: Tally, id: string): ReportRow {
    var inc := Get(income, id);
    var exp := Get(expense, id);
    ReportRow(NameOr(carMap, id, "Unknown"), inc, exp, inc - exp)
  }

  function RowsFor(carMap: map<string, string>, income: Tally, expense: Tally, ids: seq<string>): (r: seq<ReportRow>)
    ensures |r| == |ids| && forall i :: 0 <= i < |ids| ==> r[i] == RowFor(carMap, income, expense, ids[i])
  {
    seq(|ids|, i requires 0 <= i < |ids| => RowFor(carMap, income, expense, ids[i]))
  }

  /** `allIds`: the union of the two maps' ids, income ids first. */
  function ReportIds(bookings: seq<BookingRow>, expenses: seq<ExpenseRow>): seq<string> {
    UnionKeys(TallyOf(BookingEntries(bookings)).keys, TallyOf(ExpenseEntries(expenses)).keys)
  }

  /** The table `fetchReport` shows, as a function of the gateway's rows. */
  function ReportRows(cars: seq<CarRow>, bookings: seq<BookingRow>, expenses: seq<ExpenseRow>): seq<ReportRow> {
    var rows := RowsFor(CarMapOf(cars), TallyOf(BookingEntries(bookings)), TallyOf(ExpenseEntries(expenses)),
                        ReportIds(bookings, expenses));
    Sorting.SortDesc(rows, Profit)
  }

  /** `fetchReport` after the three queries have returned: three `forEach`
      passes fill `carMap`, `incomeMap` and `expenseMap` and accumulate the
      totals, then the ids are merged, mapped to rows and sorted. */
  method FetchReport(cars: seq<CarRow>, bookings: seq<BookingRow>, expenses: seq<ExpenseRow>)
    returns (report: Report)
    ensures report.rows == ReportRows(cars, bookings, expenses)
    ensures report.summary == Summary(|bookings|, Total(BookingEntries(bookings)), Total(ExpenseEntries(expenses)))
  {
    var carMap := CollectCarMap(cars);
    var incomeMap, totalIncome := TallyBookings(bookings);
    var expenseMap, totalExpense := TallyExpenses(expenses);
    var allIds := UnionKeys(incomeMap.keys, expenseMap.keys);
    var profits := Sorting.SortDesc(RowsFor(carMap, incomeMap, expenseMap, allIds), Profit);
    report := Report(profits, Summary(|bookings|, totalIncome, totalExpense));
  }

  // -------------------------------------------------------------------
  // Properties of the table

  /** The report has one row per car id that occurs, with a truthy value, in
      a booking or an expense row; each id is listed once. */
  lemma {:induction false} IdsAreUnion(bookings: seq<BookingRow>, expenses: seq<ExpenseRow>, id: string)
    ensures Distinct(ReportIds(bookings, expenses))
    ensures id in ReportIds(bookings, expenses) <==>
      Occurs(BookingEntries(bookings), id) || Occurs(ExpenseEntries(expenses), id)
  {
    UnionKeysDistinct(TallyOf(BookingEntries(bookings)).keys, TallyOf(ExpenseEntries(expenses)).keys);
    TallyKeys(BookingEntries(bookings), id);
    TallyKeys(ExpenseEntries(expenses), id);
  }

  /** Rows without a car id never reach the per-car sums. */
  lemma NullCarNotTallied(bookings: seq<BookingRow>, expenses: seq<ExpenseRow>, id: string)
    requires forall i :: 0 <= i < |bookings| ==> bookings[i].carId != Some(id)
    requires forall i :: 0 <= i < |expenses| ==> expenses[i].carId != Some(id)
    ensures id !in ReportIds(bookings, expenses)
  {
    IdsAreUnion(bookings, expenses, id);
  }

  /** Each unsorted row carries the id's name (or `Unknown`), the sum of its
      booking prices, the sum of its expense amounts, and profit = income -
      expense. */
  lemma {:induction false} RowContents(cars: seq<CarRow>, bookings: seq<BookingRow>, expenses: seq<ExpenseRow>, id: string)
    ensures var r := RowFor(CarMapOf(cars), TallyOf(BookingEntries(bookings)), TallyOf(ExpenseEntries(expenses)), id);
      && r.income == SumFor(BookingEntries(bookings), id)
      && r.expense == SumFor(ExpenseEntries(expenses), id)
      && r.profit == r.income - r.expense
      && ((forall i :: 0 <= i < |cars| ==> cars[i].id != id) ==> r.name == "Unknown")
  {
    TallyValue(BookingEntries(bookings), id);
    TallyValue(ExpenseEntries(expenses), id);
  }

  /** The table is the unsorted rows, reordered so that profit never
      increases down the table. */
  lemma {:induction false} TableSortedByProfit(cars: seq<CarRow>, bookings: seq<BookingRow>, expenses: seq<ExpenseRow>)
    ensures var rows := ReportRows(cars, bookings, expenses);
      && Sorting.SortedDesc(rows, Profit)
      && multiset(rows) == multiset(RowsFor(CarMapOf(cars), TallyOf(BookingEntries(bookings)),
                                            TallyOf(ExpenseEntries(expenses)), ReportIds(bookings, expenses)))
      && forall i, j :: 0 <= i < j < |rows| ==> rows[i].profit >= rows[j].profit
  {
    var rows := RowsFor(CarMapOf(cars), TallyOf(BookingEntries(bookings)), TallyOf(ExpenseEntries(expenses)),
                        ReportIds(bookings, expenses));
    Sorting.SortDescSorted(rows, Profit);
  }

  /** Every row of the table has profit = income - expense. */
  lemma {:induction false} TableProfit(cars: seq<CarRow>, bookings: seq<BookingRow>, expenses: seq<ExpenseRow>)
    ensures forall r :: r in ReportRows(cars, bookings, expenses) ==> r.profit == r.income - r.expense
  {
    var rows := RowsFor(CarMapOf(cars), TallyOf(BookingEntries(bookings)), TallyOf(ExpenseEntries(expenses)),
                        ReportIds(bookings, expenses));
    forall r | r in ReportRows(cars, bookings, expenses) ensures r.profit == r.income - r.expense {
      assert r in multiset(ReportRows(cars, bookings, expenses));
      assert r in multiset(rows);
    }
  }

  /** The sum of the total's amounts, split by whether the row had a car. */
  function LooseTotal(es: seq<Keyed>): int {
    if |es| == 0 then 0
    else LooseTotal(es[..|es| - 1]) + (if Truthy(es[|es| - 1].key) then 0 else es[|es| - 1].amount)
  }

  /** The summary income counts every booking, with or without a car: it is
      the per-car total plus the carless rows' total. */
  lemma {:induction false} TotalSplits(es: seq<Keyed>)
    ensures Total(es) == KeyedTotal(es) + LooseTotal(es)
  {
    if |es| > 0 {
      TotalSplits(es[..|es| - 1]);
    }
  }

  /** Summing the per-car income over the income map's ids gives the whole
      income of the rows that name a car. */
  lemma PerCarIncomeAddsUp(bookings: seq<BookingRow>)
    ensures var t := TallyOf(BookingEntries(bookings));
      SumOver(t.keys, t) == Total(BookingEntries(bookings)) - LooseTotal(BookingEntries(bookings))
  {
    TallyConserves(BookingEntries(bookings));
    TotalSplits(BookingEntries(bookings));
  }

  // -------------------------------------------------------------------
  // CSV export

  const Header: seq<string> := ["Car", "Income", "Expenses", "Profit"]

  function Fields(r: ReportRow): seq<string> {
    [r.name, IntToString(r.income), IntToString(r.expense), IntToString(r.profit)]
  }

  function CsvLine(r: ReportRow): string {
    Join(Fields(r), ",")
  }

  function CsvLines(rows: seq<ReportRow>): (r: seq<string>)
    ensures |r| == |rows| && forall i :: 0 <= i < |rows| ==> r[i] == CsvLine(rows[i])
  {
    seq(|rows|, i requires 0 <= i < |rows| => CsvLine(rows[i]))
  }

  /** The text `exportCSV` downloads. */
  function CsvText(rows: seq<ReportRow>): string {
    Join([Join(Header, ",")] + CsvLines(rows), "\n")
  }

  lemma FieldsAvoid(r: ReportRow, c: char)
    requires c !in r.name && !IsDigit(c) && c != '-'
    ensures forall i :: 0 <= i < |Fields(r)| ==> c !in Fields(r)[i]
  {
  }

  /** The header line. */
  lemma HeaderLine()
    ensures Join(Header, ",") == "Car,Income,Expenses,Profit"
  {
  }

  /** A row whose name holds no line break gives a line without one. */
  lemma LineAvoidsBreak(r: ReportRow)
    requires '\n' !in r.name
    ensures '\n' !in CsvLine(r)
  {
    FieldsAvoid(r, '\n');
    JoinAvoids(Fields(r), ",", '\n');
  }

  /** Splitting the CSV on line breaks gives the header and then one line
      per table row, in table order, provided no car name holds a line break. */
  lemma {:induction false} CsvLinesRoundTrip(rows: seq<ReportRow>)
    requires forall i :: 0 <= i < |rows| ==> '\n' !in rows[i].name
    ensures Split(CsvText(rows), '\n') == ["Car,Income,Expenses,Profit"] + CsvLines(rows)
  {
    var lines := [Join(Header, ",")] + CsvLines(rows);
    HeaderLine();
    forall i | 0 <= i < |lines| ensures '\n' !in lines[i] {
      if i > 0 {
        LineAvoidsBreak(rows[i - 1]);
      }
    }
    SplitJoinPlain(lines, '\n');
  }

  /** Splitting one line on commas gives back the four fields, provided the
      car name holds no comma. */
  lemma {:induction false} CsvFieldsRoundTrip(r: ReportRow)
    requires ',' !in r.name
    ensures Split(CsvLine(r), ',') == [r.name, IntToString(r.income), IntToString(r.expense), IntToString(r.profit)]
  {
    FieldsAvoid(r, ',');
    SplitJoinPlain(Fields(r), ',');
  }
}
