/** The reports route (`/reports/api?type=&period=&date=`): the rows of one
    table that fall in the period around `date`, summed into daily items,
    weekday buckets, four "weeks" or twelve months. */
module Reports {
  import opened Common
  import opened Tables
  import opened Sorting
  import opened Sums
  import opened Calendar
  import opened StockApi
  import opened SalesApi
  import opened ProductionsApi
  import opened ChargesApi
  import opened ExpensesApi
  import opened InvoicesApi

  /** A fetched row as the report reads it: its date and whichever of the
      four amount columns its table has. */
  datatype ReportRow = ReportRow(
    date: int, total: Option<int>, montant: Option<int>, prix: Option<int>, unitPrice: Option<int>)

  /** The row's amount: the first present column among total, montant,
      prix and unitPrice, or 0 when none is. Only a missing column is
      skipped; a zero is kept. */
  function GetAmount(r: ReportRow): (a: int)
    ensures r.total.Some? ==> a == r.total.value
    ensures r.total.None? && r.montant.Some? ==> a == r.montant.value
    ensures r.total.None? && r.montant.None? && r.prix.Some? ==> a == r.prix.value
    ensures r.total.None? && r.montant.None? && r.prix.None? && r.unitPrice.Some? ==> a == r.unitPrice.value
    ensures r.total.None? && r.montant.None? && r.prix.None? && r.unitPrice.None? ==> a == 0
  {
    if r.total.Some? then r.total.value
    else if r.montant.Some? then r.montant.value
    else if r.prix.Some? then r.prix.value
    else if r.unitPrice.Some? then r.unitPrice.value
    else 0
  }

  function RowDate(r: ReportRow): int {
    r.date
  }

  // ---------------------------------------------------------------------
  // The six tables a report can read

  datatype Db = Db(
    charges: Table<Charge>, depenses: Table<Depense>, factures: Table<Facture>,
    productions: Table<Production>, ventes: Table<Vente>, stocks: Table<Stock>)

  function ChargeRow(r: Row<Charge>): ReportRow {
    ReportRow(r.data.date, None, None, Some(r.data.prix), None)
  }

  function DepenseRow(r: Row<Depense>): ReportRow {
    ReportRow(r.data.date, None, Some(r.data.montant), None, None)
  }

  function FactureRow(r: Row<Facture>): ReportRow {
    ReportRow(r.data.date, Some(r.data.total), None, None, None)
  }

  function ProductionRow(r: Row<Production>): ReportRow {
    ReportRow(r.data.date, Some(r.data.total), None, None, Some(r.data.unitPrice))
  }

  function VenteRow(r: Row<Vente>): ReportRow {
    ReportRow(r.data.date, Some(r.data.total), None, None, Some(r.data.unitPrice))
  }

  function StockRow(r: Row<Stock>): ReportRow {
    ReportRow(r.data.date, Some(r.data.total), None, None, Some(r.data.unitPrice))
  }

  function Project<T>(rows: seq<Row<T>>, f: Row<T> -> ReportRow): (r: seq<ReportRow>)
    ensures |r| == |rows|
    ensures forall i :: 0 <= i < |rows| ==> r[i] == f(rows[i])
  {
    seq(|rows|, i requires 0 <= i < |rows| => f(rows[i]))
  }

  const REPORT_TYPES: seq<string> := ["charges", "depenses", "factures", "productions", "ventes", "stocks"]
  const INVALID_TYPE := "Type invalide"

  /** The table the `type` parameter names, projected to report rows; none
      for any other name. */
  function Source(db: Db, reportType: Option<string>): (r: Option<seq<ReportRow>>)
    ensures r.Some? <==> reportType.Some? && reportType.value in REPORT_TYPES
    ensures reportType == Some("charges") ==> r == Some(Project(db.charges.rows, ChargeRow))
    ensures reportType == Some("depenses") ==> r == Some(Project(db.depenses.rows, DepenseRow))
    ensures reportType == Some("factures") ==> r == Some(Project(db.factures.rows, FactureRow))
    ensures reportType == Some("productions") ==> r == Some(Project(db.productions.rows, ProductionRow))
    ensures reportType == Some("ventes") ==> r == Some(Project(db.ventes.rows, VenteRow))
    ensures reportType == Some("stocks") ==> r == Some(Project(db.stocks.rows, StockRow))
  {
    match reportType
    case None => None
    case Some(ty) =>
      if ty == "charges" then Some(Project(db.charges.rows, ChargeRow))
      else if ty == "depenses" then Some(Project(db.depenses.rows, DepenseRow))
      else if ty == "factures" then Some(Project(db.factures.rows, FactureRow))
      else if ty == "productions" then Some(Project(db.productions.rows, ProductionRow))
      else if ty == "ventes" then Some(Project(db.ventes.rows, VenteRow))
      else if ty == "stocks" then Some(Project(db.stocks.rows, StockRow))
      else None
  }

  // ---------------------------------------------------------------------
  // Periods

  datatype Period = Daily | Weekly | Monthly | Yearly | OtherPeriod

  /** The `period` query parameter: each of the four names selects its own
      layout, an absent or empty parameter means weekly, and any other name
      selects no layout. */
  function ParsePeriod(p: Option<string>): (r: Period)
    ensures !Given(p) ==> r == Weekly
    ensures Given(p) && p.value == "daily" ==> r == Daily
    ensures Given(p) && p.value == "weekly" ==> r == Weekly
    ensures Given(p) && p.value == "monthly" ==> r == Monthly
    ensures Given(p) && p.value == "yearly" ==> r == Yearly
    ensures r == OtherPeriod <==> Given(p) && p.value !in ["daily", "weekly", "monthly", "yearly"]
  {
    var name := OrElse(p, "weekly");
    if name == "daily" then Daily
    else if name == "weekly" then Weekly
    else if name == "monthly" then Monthly
    else if name == "yearly" then Yearly
    else OtherPeriod
  }

  /** The `where.date` range. For an unknown period it is the instant of
      the request, and the rows it selects are never used. */
  predicate InPeriod(period: Period, date: int, d: int) {
    match period
    case Daily => d == date
    case Weekly => WeekStart(date) <= d <= WeekStart(date) + 6
    case Monthly => SameMonth(d, date)
    case Yearly => SameYear(d, date)
    case OtherPeriod => false
  }

  /** The rows the date-range query fetches, in storage order: the rows
      of the period and no other. */
  function Where(rows: seq<ReportRow>, period: Period, date: int): (r: seq<ReportRow>)
    ensures forall i :: 0 <= i < |r| ==> InPeriod(period, date, r[i].date)
    ensures forall x :: x in r <==> x in rows && InPeriod(period, date, x.date)
  {
    if |rows| == 0 then []
    else
      var tail := Where(rows[1..], period, date);
      assert rows == [rows[0]] + rows[1..];
      if InPeriod(period, date, rows[0].date) then [rows[0]] + tail else tail
  }

  /** The query keeps duplicates: a row of the period is fetched as many
      times as it is stored, a row outside it never. */
  lemma {:induction false} WhereKeepsCounts(rows: seq<ReportRow>, period: Period, date: int, x: ReportRow)
    ensures multiset(Where(rows, period, date))[x] == if InPeriod(period, date, x.date) then multiset(rows)[x] else 0
  {
    if |rows| > 0 {
      assert rows == [rows[0]] + rows[1..];
      assert multiset(rows) == multiset{rows[0]} + multiset(rows[1..]);
      WhereKeepsCounts(rows[1..], period, date, x);
    }
  }

  // ---------------------------------------------------------------------
  // The four layouts

  datatype Item = Item(date: int, total: int)
  datatype DayBucket = DayBucket(day: string, value: int, prev: int)
  datatype WeekBucket = WeekBucket(week: string, value: int)
  datatype MonthBucket = MonthBucket(month: string, value: int)

  datatype Report =
    | DailyReport(items: seq<Item>, total: int)
    | WeeklyReport(days: seq<DayBucket>, totalCurrent: int, totalPrev: int, percentChange: real)
    | MonthlyReport(weeks: seq<WeekBucket>, total: int)
    | YearlyReport(months: seq<MonthBucket>, total: int)
    | EmptyReport

  function ItemTotal(it: Item): int { it.total }
  function DayValue(b: DayBucket): int { b.value }
  function DayPrev(b: DayBucket): int { b.prev }
  function WeekValue(b: WeekBucket): int { b.value }
  function MonthValue(b: MonthBucket): int { b.value }

  function Items(rows: seq<ReportRow>): (r: seq<Item>)
    ensures |r| == |rows|
    ensures forall i :: 0 <= i < |rows| ==> r[i] == Item(rows[i].date, GetAmount(rows[i]))
  {
    if |rows| == 0 then [] else [Item(rows[0].date, GetAmount(rows[0]))] + Items(rows[1..])
  }

  lemma {:induction false} ItemsAddUp(rows: seq<ReportRow>)
    ensures SumBy(Items(rows), ItemTotal) == SumBy(rows, GetAmount)
  {
    if |rows| > 0 {
      assert Items(rows)[1..] == Items(rows[1..]);
      ItemsAddUp(rows[1..]);
    }
  }

  /** Daily: one item per row, in the rows' order, and their sum. */
  function DailyOf(rows: seq<ReportRow>): (r: Report)
    ensures r.DailyReport?
    ensures |r.items| == |rows|
    ensures forall i :: 0 <= i < |rows| ==> r.items[i] == Item(rows[i].date, GetAmount(rows[i]))
    ensures r.total == SumBy(rows, GetAmount)
  {
    var items := Items(rows);
    ItemsAddUp(rows);
    DailyReport(items, SumBy(items, ItemTotal))
  }

  /** The change from the previous total to the current one, in percent of
      the previous; 100 when the previous total is 0. */
  function PercentChange(current: int, previous: int): (r: real)
    ensures previous == 0 ==> r == 100.0
    ensures previous != 0 ==> r * (previous as real) == ((current - previous) as real) * 100.0
  {
    if previous == 0 then 100.0 else ((current - previous) as real / previous as real) * 100.0
  }

  function WeekDays(date: int): (r: seq<int>)
    ensures |r| == 7
    ensures forall k :: 0 <= k < 7 ==> r[k] == WeekStart(date) + k
    ensures Distinct(r)
  {
    var ws := WeekStart(date);
    seq(7, k requires 0 <= k < 7 => ws + k)
  }

  function DayBuckets(days: seq<int>, names: seq<string>, rows: seq<ReportRow>, prevRows: seq<ReportRow>): (r: seq<DayBucket>)
    requires |names| == |days|
    ensures |r| == |days|
    ensures forall k :: 0 <= k < |days| ==>
      r[k] == DayBucket(names[k], SumOn(rows, RowDate, GetAmount, days[k]), SumOn(prevRows, RowDate, GetAmount, days[k]))
  {
    if |days| == 0 then []
    else [DayBucket(names[0], SumOn(rows, RowDate, GetAmount, days[0]), SumOn(prevRows, RowDate, GetAmount, days[0]))]
         + DayBuckets(days[1..], names[1..], rows, prevRows)
  }

  lemma {:induction false} DayBucketsAddUp(days: seq<int>, names: seq<string>, rows: seq<ReportRow>, prevRows: seq<ReportRow>)
    requires |names| == |days|
    ensures SumBy(DayBuckets(days, names, rows, prevRows), DayValue) == SumOver(days, rows, RowDate, GetAmount)
    ensures SumBy(DayBuckets(days, names, rows, prevRows), DayPrev) == SumOver(days, prevRows, RowDate, GetAmount)
  {
    if |days| > 0 {
      assert DayBuckets(days, names, rows, prevRows)[1..] == DayBuckets(days[1..], names[1..], rows, prevRows);
      DayBucketsAddUp(days[1..], names[1..], rows, prevRows);
    }
  }

  /** Weekly: Monday to Sunday of the week of `date`. The previous week's
      rows are matched against this week's days. */
  function WeeklyOf(rows: seq<ReportRow>, prevRows: seq<ReportRow>, date: int): (r: Report)
    ensures r.WeeklyReport?
    ensures |r.days| == 7
    ensures forall k :: 0 <= k < 7 ==>
      && r.days[k].day == DAY_NAMES[k]
      && r.days[k].value == SumOn(rows, RowDate, GetAmount, WeekStart(date) + k)
      && r.days[k].prev == SumOn(prevRows, RowDate, GetAmount, WeekStart(date) + k)
    ensures r.totalCurrent == SumBy(r.days, DayValue)
    ensures r.totalPrev == SumBy(r.days, DayPrev)
    ensures r.percentChange == PercentChange(r.totalCurrent, r.totalPrev)
  {
    var data := DayBuckets(WeekDays(date), DAY_NAMES, rows, prevRows);
    var current := SumBy(data, DayValue);
    var previous := SumBy(data, DayPrev);
    WeeklyReport(data, current, previous, PercentChange(current, previous))
  }

  /** The rows at positions `from` up to but not including `to`; bounds past
      the end are clamped to it. */
  function Slice<T>(s: seq<T>, from: nat, to: nat): (r: seq<T>)
    requires from <= to
    ensures to <= |s| ==> r == s[from..to]
    ensures from <= |s| <= to ==> r == s[from..]
    ensures |s| < from ==> r == []
  {
    var a := if from < |s| then from else |s|;
    var b := if to < |s| then to else |s|;
    s[a..b]
  }

  const WEEK_NAMES: seq<string> := ["Semaine 1", "Semaine 2", "Semaine 3", "Semaine 4"]

  /** Monthly: "Semaine w" sums the rows at positions 7(w − 1) to 7w − 1. */
  function MonthlyOf(rows: seq<ReportRow>): (r: Report)
    ensures r.MonthlyReport?
    ensures |r.weeks| == 4
    ensures forall w :: 1 <= w <= 4 ==>
      r.weeks[w - 1] == WeekBucket(WEEK_NAMES[w - 1], SumBy(Slice(rows, 7 * (w - 1), 7 * w), GetAmount))
    ensures r.total == SumBy(r.weeks, WeekValue)
  {
    var data := seq(4, i requires 0 <= i < 4 => WeekBucket(WEEK_NAMES[i], SumBy(Slice(rows, 7 * i, 7 * (i + 1)), GetAmount)));
    MonthlyReport(data, SumBy(data, WeekValue))
  }

  /** The month numbers 0 (January) to 11 (December), in order. */
  const MONTHS: seq<int> := seq(12, m requires 0 <= m < 12 => m)

  function RowMonth(r: ReportRow): int {
    Month(r.date)
  }

  /** Yearly: one bucket per calendar month of the rows' dates. */
  function YearlyOf(rows: seq<ReportRow>): (r: Report)
    ensures r.YearlyReport?
    ensures |r.months| == 12
    ensures forall m :: 0 <= m < 12 ==>
      r.months[m] == MonthBucket(MONTH_NAMES[m], SumOn(rows, RowMonth, GetAmount, m))
    ensures r.total == SumBy(r.months, MonthValue)
  {
    var data := seq(12, m requires 0 <= m < 12 => MonthBucket(MONTH_NAMES[m], SumOn(rows, RowMonth, GetAmount, m)));
    YearlyReport(data, SumBy(data, MonthValue))
  }

  // ---------------------------------------------------------------------
  // GET

  /** The rows a report is built from: the period's rows, by ascending date. */
  function PeriodRows(all: seq<ReportRow>, period: Period, date: int): (r: seq<ReportRow>)
    ensures SortedBy(r, RowDate)
    ensures multiset(r) == multiset(Where(all, period, date))
  {
    SortBy(Where(all, period, date), RowDate)
  }

  /** The body built for each period from the table's rows. */
  function Layout(all: seq<ReportRow>, period: Period, date: int): (r: Report)
    ensures period == Daily ==> r == DailyOf(PeriodRows(all, Daily, date))
    ensures period == Weekly ==> r == WeeklyOf(PeriodRows(all, Weekly, date), Where(all, Weekly, date - 7), date)
    ensures period == Monthly ==> r == MonthlyOf(PeriodRows(all, Monthly, date))
    ensures period == Yearly ==> r == YearlyOf(PeriodRows(all, Yearly, date))
    ensures period == OtherPeriod ==> r == EmptyReport
  {
    var rows := PeriodRows(all, period, date);
    match period
    case Daily => DailyOf(rows)
    case Weekly => WeeklyOf(rows, Where(all, Weekly, date - 7), date)
    case Monthly => MonthlyOf(rows)
    case Yearly => YearlyOf(rows)
    case OtherPeriod => EmptyReport
  }

  /** GET. `dateParam` is `None` for a missing or empty `date` parameter,
      which falls back to `today`. */
  function Get(db: Db, reportType: Option<string>, periodParam: Option<string>, dateParam: Option<int>, today: int): (r: Reply<Report>)
    ensures r.Fail? <==> reportType.None? || reportType.value !in REPORT_TYPES
    ensures r.Fail? ==> r == Fail(400, Text(INVALID_TYPE))
    ensures r.Ok? ==> r == Ok(200, Layout(Source(db, reportType).value, ParsePeriod(periodParam), dateParam.GetOr(today)))
  {
    match Source(db, reportType)
    case None => Fail(400, Text(INVALID_TYPE))
    case Some(all) => Ok(200, Layout(all, ParsePeriod(periodParam), dateParam.GetOr(today)))
  }

  // ---------------------------------------------------------------------
  // Properties of the layouts

  lemma {:induction false} SumOnMissing(rows: seq<ReportRow>, d: int)
    requires forall i :: 0 <= i < |rows| ==> rows[i].date != d
    ensures SumOn(rows, RowDate, GetAmount, d) == 0
  {
    if |rows| > 0 {
      SumOnMissing(rows[1..], d);
    }
  }

  /** Rows of the previous week never fall on a day of this week, so every
      `prev` is 0, `totalPrev` is 0 and `percentChange` is always 100. */
  lemma {:induction false} WeeklyPrevIsAlwaysZero(rows: seq<ReportRow>, all: seq<ReportRow>, date: int)
    ensures
      var r := WeeklyOf(rows, Where(all, Weekly, date - 7), date);
      && (forall k :: 0 <= k < 7 ==> r.days[k].prev == 0)
      && r.totalPrev == 0
      && r.percentChange == 100.0
  {
    var prevRows := Where(all, Weekly, date - 7);
    var ws := WeekStart(date);
    assert WeekStart(date - 7) == ws - 7 by {
      assert Weekday(date - 7) == Weekday(date);
    }
    var days := WeekDays(date);
    forall k | 0 <= k < 7 ensures SumOn(prevRows, RowDate, GetAmount, days[k]) == 0 {
      SumOnMissing(prevRows, days[k]);
    }
    DayBucketsAddUp(days, DAY_NAMES, rows, prevRows);
    SumOverZero(days, prevRows);
  }

  lemma {:induction false} SumOverZero(days: seq<int>, rows: seq<ReportRow>)
    requires forall k :: 0 <= k < |days| ==> SumOn(rows, RowDate, GetAmount, days[k]) == 0
    ensures SumOver(days, rows, RowDate, GetAmount) == 0
  {
    if |days| > 0 {
      SumOverZero(days[1..], rows);
    }
  }

  /** The weekday buckets hold every row of the week: `totalCurrent` is the
      sum of the rows fetched for it. */
  lemma WeeklyCurrentAddsUp(all: seq<ReportRow>, prevRows: seq<ReportRow>, date: int)
    ensures
      var rows := PeriodRows(all, Weekly, date);
      WeeklyOf(rows, prevRows, date).totalCurrent == SumBy(rows, GetAmount)
  {
    var rows := PeriodRows(all, Weekly, date);
    var days := WeekDays(date);
    assert forall i :: 0 <= i < |rows| ==> rows[i].date in days by {
      forall i | 0 <= i < |rows| ensures rows[i].date in days {
        assert rows[i] in multiset(Where(all, Weekly, date));
        assert days[rows[i].date - WeekStart(date)] == rows[i].date;
      }
    }
    DayBucketsAddUp(days, DAY_NAMES, rows, prevRows);
    SumOverKeys(days, rows, RowDate, GetAmount);
  }

  /** Adjacent clamped slices join into one. */
  lemma SliceJoin(rows: seq<ReportRow>, a: nat, b: nat, c: nat)
    requires a <= b <= c
    ensures SumBy(Slice(rows, a, b), GetAmount) + SumBy(Slice(rows, b, c), GetAmount)
      == SumBy(Slice(rows, a, c), GetAmount)
  {
    assert Slice(rows, a, c) == Slice(rows, a, b) + Slice(rows, b, c);
    SumByAppend(Slice(rows, a, b), Slice(rows, b, c), GetAmount);
  }

  lemma SumOfFourWeeks(ws: seq<WeekBucket>)
    requires |ws| == 4
    ensures SumBy(ws, WeekValue) == ws[0].value + ws[1].value + ws[2].value + ws[3].value
  {
    assert ws[1..][1..][1..][1..] == [];
    assert SumBy(ws[1..][1..][1..], WeekValue) == ws[3].value;
    assert SumBy(ws[1..][1..], WeekValue) == ws[2].value + ws[3].value;
  }

  lemma MonthlyTotalIsSlice(rows: seq<ReportRow>)
    ensures MonthlyOf(rows).total == SumBy(Slice(rows, 0, 28), GetAmount)
  {
    var r := MonthlyOf(rows);
    SumOfFourWeeks(r.weeks);
    assert r.weeks[0].value == SumBy(Slice(rows, 0, 7), GetAmount);
    assert r.weeks[1].value == SumBy(Slice(rows, 7, 14), GetAmount);
    assert r.weeks[2].value == SumBy(Slice(rows, 14, 21), GetAmount);
    assert r.weeks[3].value == SumBy(Slice(rows, 21, 28), GetAmount);
    SliceJoin(rows, 0, 7, 14);
    SliceJoin(rows, 0, 14, 21);
    SliceJoin(rows, 0, 21, 28);
  }

  /** The four "weeks" are the first 28 rows in date order: the month's
      total leaves out every row after the 28th. */
  lemma MonthlyCountsFirst28Rows(rows: seq<ReportRow>)
    ensures |rows| <= 28 ==> MonthlyOf(rows).total == SumBy(rows, GetAmount)
    ensures |rows| > 28 ==> MonthlyOf(rows).total == SumBy(rows[..28], GetAmount)
    ensures |rows| > 28 ==> MonthlyOf(rows).total == SumBy(rows, GetAmount) - SumBy(rows[28..], GetAmount)
  {
    MonthlyTotalIsSlice(rows);
    if |rows| > 28 {
      assert rows == rows[..28] + rows[28..];
      SumByAppend(rows[..28], rows[28..], GetAmount);
    }
  }

  /** The twelve month buckets split the year's rows: the yearly total is
      the sum of all of them. */
  lemma YearlyAddsUp(rows: seq<ReportRow>)
    ensures YearlyOf(rows).total == SumBy(rows, GetAmount)
  {
    var r := YearlyOf(rows);
    assert forall k :: 0 <= k < 12 ==> r.months[k].value == SumOn(rows, RowMonth, GetAmount, MONTHS[k]);
    MonthsAddUp(r.months, MONTHS, rows);
    forall i | 0 <= i < |rows| ensures RowMonth(rows[i]) in MONTHS {
      assert MONTHS[RowMonth(rows[i])] == RowMonth(rows[i]);
    }
    SumOverKeys(MONTHS, rows, RowMonth, GetAmount);
  }

  lemma {:induction false} MonthsAddUp(buckets: seq<MonthBucket>, ms: seq<int>, rows: seq<ReportRow>)
    requires |buckets| == |ms|
    requires forall k :: 0 <= k < |ms| ==> buckets[k].value == SumOn(rows, RowMonth, GetAmount, ms[k])
    ensures SumBy(buckets, MonthValue) == SumOver(ms, rows, RowMonth, GetAmount)
  {
    if |ms| > 0 {
      MonthsAddUp(buckets[1..], ms[1..], rows);
    }
  }

  /** The weekly layout: the comparison with last week is always "+100 %",
      while the current total is the sum of the week's rows. */
  lemma WeeklyLayout(all: seq<ReportRow>, date: int)
    ensures
      var r := Layout(all, Weekly, date);
      && r.WeeklyReport?
      && r.totalPrev == 0
      && r.percentChange == 100.0
      && r.totalCurrent == SumBy(PeriodRows(all, Weekly, date), GetAmount)
  {
    WeeklyPrevIsAlwaysZero(PeriodRows(all, Weekly, date), all, date);
    WeeklyCurrentAddsUp(all, Where(all, Weekly, date - 7), date);
  }

  /** A weekly report of any of the six tables answers 200 with that layout. */
  lemma WeeklyReportOfGet(db: Db, reportType: Option<string>, dateParam: Option<int>, today: int)
    requires reportType.Some? && reportType.value in REPORT_TYPES
    ensures
      var r := Get(db, reportType, Some("weekly"), dateParam, today);
      var rows := PeriodRows(Source(db, reportType).value, Weekly, dateParam.GetOr(today));
      && r.Ok? && r.value.WeeklyReport?
      && r.value.totalPrev == 0
      && r.value.percentChange == 100.0
      && r.value.totalCurrent == SumBy(rows, GetAmount)
  {
    assert ParsePeriod(Some("weekly")) == Weekly;
    WeeklyLayout(Source(db, reportType).value, dateParam.GetOr(today));
  }
}
